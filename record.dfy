/**
 * The submission record that the intake form edits and posts, the keys of
 * its fields, and the key/value document it travels as: the request body
 * built by `JSON.stringify(values)`, and that body read back into the record type.
 */
module Record {
  import opened Wrappers

  /** One form response, with the field types the client schema gives them. */
  datatype Submission = Submission(
    name: string,
    companyName: string,
    email: string,
    phone: string,
    hasWebsite: string,
    websiteUse: Option<string>,
    businessIndustry: Option<string>,
    targetAudience: Option<string>,
    challenges: Option<seq<string>>,
    implementedStrategies: Option<string>,
    campaigns: Option<string>,
    digitalperformance: Option<string>,
    joinWishlist: Option<string>,
    wantWebsite: Option<string>,
    creationChallenges: Option<seq<string>>,
    businessIndustryOther: Option<string>,
    websiteUseOther: Option<string>,
    targetAudienceOther: Option<string>)

  /** The field names, in the order the client schema declares them. */
  datatype Key =
    | Name | CompanyName | Email | Phone | HasWebsite
    | WebsiteUse | BusinessIndustry | TargetAudience | Challenges
    | ImplementedStrategies | Campaigns | DigitalPerformance | JoinWishlist
    | WantWebsite | CreationChallenges
    | BusinessIndustryOther | WebsiteUseOther | TargetAudienceOther

  const AllKeys: seq<Key> := [
    Name, CompanyName, Email, Phone, HasWebsite,
    WebsiteUse, BusinessIndustry, TargetAudience, Challenges,
    ImplementedStrategies, Campaigns, DigitalPerformance, JoinWishlist,
    WantWebsite, CreationChallenges,
    BusinessIndustryOther, WebsiteUseOther, TargetAudienceOther]

  lemma AllKeysListed(k: Key)
    ensures k in AllKeys
  {
  }

  /** The two fields that hold a list of strings; every other field holds one string. */
  predicate IsListKey(k: Key) {
    k.Challenges? || k.CreationChallenges?
  }

  /** A JSON value of the request body. */
  datatype Value = Str(text: string) | List(items: seq<string>)

  /** A request body: the fields that are defined, with their values. */
  type Document = map<Key, Value>

  function OptText(o: Option<string>): Option<Value> {
    match o
    case None => None
    case Some(s) => Some(Str(s))
  }

  function OptList(o: Option<seq<string>>): Option<Value> {
    match o
    case None => None
    case Some(xs) => Some(List(xs))
  }

  /** The entry of field `k` in the request body; `None` when the field is undefined. */
  function View(v: Submission, k: Key): (r: Option<Value>)
    ensures r.Some? ==> (r.value.List? <==> IsListKey(k))
  {
    match k
    case Name => Some(Str(v.name))
    case CompanyName => Some(Str(v.companyName))
    case Email => Some(Str(v.email))
    case Phone => Some(Str(v.phone))
    case HasWebsite => Some(Str(v.hasWebsite))
    case WebsiteUse => OptText(v.websiteUse)
    case BusinessIndustry => OptText(v.businessIndustry)
    case TargetAudience => OptText(v.targetAudience)
    case Challenges => OptList(v.challenges)
    case ImplementedStrategies => OptText(v.implementedStrategies)
    case Campaigns => OptText(v.campaigns)
    case DigitalPerformance => OptText(v.digitalperformance)
    case JoinWishlist => OptText(v.joinWishlist)
    case WantWebsite => OptText(v.wantWebsite)
    case CreationChallenges => OptList(v.creationChallenges)
    case BusinessIndustryOther => OptText(v.businessIndustryOther)
    case WebsiteUseOther => OptText(v.websiteUseOther)
    case TargetAudienceOther => OptText(v.targetAudienceOther)
  }

  lemma OptTextInjective(a: Option<string>, b: Option<string>)
    requires OptText(a) == OptText(b)
    ensures a == b
  {
  }

  lemma OptListInjective(a: Option<seq<string>>, b: Option<seq<string>>)
    requires OptList(a) == OptList(b)
    ensures a == b
  {
  }

  lemma SameIdentity(v: Submission, w: Submission)
    requires View(v, Name) == View(w, Name)
    requires View(v, CompanyName) == View(w, CompanyName)
    requires View(v, Email) == View(w, Email)
    requires View(v, Phone) == View(w, Phone)
    requires View(v, HasWebsite) == View(w, HasWebsite)
    ensures v.name == w.name
    ensures v.companyName == w.companyName
    ensures v.email == w.email
    ensures v.phone == w.phone
    ensures v.hasWebsite == w.hasWebsite
  {
  }

  lemma SameChoices(v: Submission, w: Submission)
    requires View(v, WebsiteUse) == View(w, WebsiteUse)
    requires View(v, BusinessIndustry) == View(w, BusinessIndustry)
    requires View(v, TargetAudience) == View(w, TargetAudience)
    requires View(v, Challenges) == View(w, Challenges)
    ensures v.websiteUse == w.websiteUse
    ensures v.businessIndustry == w.businessIndustry
    ensures v.targetAudience == w.targetAudience
    ensures v.challenges == w.challenges
  {
    OptTextInjective(v.websiteUse, w.websiteUse);
    OptTextInjective(v.businessIndustry, w.businessIndustry);
    OptTextInjective(v.targetAudience, w.targetAudience);
    OptListInjective(v.challenges, w.challenges);
  }

  lemma SameAnswers(v: Submission, w: Submission)
    requires View(v, ImplementedStrategies) == View(w, ImplementedStrategies)
    requires View(v, Campaigns) == View(w, Campaigns)
    requires View(v, DigitalPerformance) == View(w, DigitalPerformance)
    requires View(v, JoinWishlist) == View(w, JoinWishlist)
    requires View(v, WantWebsite) == View(w, WantWebsite)
    ensures v.implementedStrategies == w.implementedStrategies
    ensures v.campaigns == w.campaigns
    ensures v.digitalperformance == w.digitalperformance
    ensures v.joinWishlist == w.joinWishlist
    ensures v.wantWebsite == w.wantWebsite
  {
    OptTextInjective(v.implementedStrategies, w.implementedStrategies);
    OptTextInjective(v.campaigns, w.campaigns);
    OptTextInjective(v.digitalperformance, w.digitalperformance);
    OptTextInjective(v.joinWishlist, w.joinWishlist);
    OptTextInjective(v.wantWebsite, w.wantWebsite);
  }

  lemma SameRest(v: Submission, w: Submission)
    requires View(v, CreationChallenges) == View(w, CreationChallenges)
    requires View(v, BusinessIndustryOther) == View(w, BusinessIndustryOther)
    requires View(v, WebsiteUseOther) == View(w, WebsiteUseOther)
    requires View(v, TargetAudienceOther) == View(w, TargetAudienceOther)
    ensures v.creationChallenges == w.creationChallenges
    ensures v.businessIndustryOther == w.businessIndustryOther
    ensures v.websiteUseOther == w.websiteUseOther
    ensures v.targetAudienceOther == w.targetAudienceOther
  {
    OptListInjective(v.creationChallenges, w.creationChallenges);
    OptTextInjective(v.businessIndustryOther, w.businessIndustryOther);
    OptTextInjective(v.websiteUseOther, w.websiteUseOther);
    OptTextInjective(v.targetAudienceOther, w.targetAudienceOther);
  }

  /** Two submissions with the same entry for every key are the same submission. */
  lemma ViewDetermines(v: Submission, w: Submission)
    requires forall k :: View(v, k) == View(w, k)
    ensures v == w
  {
    SameIdentity(v, w);
    SameChoices(v, w);
    SameAnswers(v, w);
    SameRest(v, w);
  }

  /** `form.setValue(k, s)` / `field.onChange(s)` on a string field. */
  function WithString(v: Submission, k: Key, s: string): (r: Submission)
    requires !IsListKey(k)
    ensures View(r, k) == Some(Str(s))
    ensures forall j :: j != k ==> View(r, j) == View(v, j)
  {
    match k
    case Name => v.(name := s)
    case CompanyName => v.(companyName := s)
    case Email => v.(email := s)
    case Phone => v.(phone := s)
    case HasWebsite => v.(hasWebsite := s)
    case WebsiteUse => v.(websiteUse := Some(s))
    case BusinessIndustry => v.(businessIndustry := Some(s))
    case TargetAudience => v.(targetAudience := Some(s))
    case ImplementedStrategies => v.(implementedStrategies := Some(s))
    case Campaigns => v.(campaigns := Some(s))
    case DigitalPerformance => v.(digitalperformance := Some(s))
    case JoinWishlist => v.(joinWishlist := Some(s))
    case WantWebsite => v.(wantWebsite := Some(s))
    case BusinessIndustryOther => v.(businessIndustryOther := Some(s))
    case WebsiteUseOther => v.(websiteUseOther := Some(s))
    case TargetAudienceOther => v.(targetAudienceOther := Some(s))
  }

  /** `field.onChange(xs)` on a list field. */
  function WithList(v: Submission, k: Key, xs: seq<string>): (r: Submission)
    requires IsListKey(k)
    ensures View(r, k) == Some(List(xs))
    ensures forall j :: j != k ==> View(r, j) == View(v, j)
  {
    match k
    case Challenges => v.(challenges := Some(xs))
    case CreationChallenges => v.(creationChallenges := Some(xs))
  }

  /** The entries of the defined fields among `keys`. */
  function EncodeKeys(v: Submission, keys: seq<Key>): Document
  {
    if keys == [] then map[]
    else
      var rest := EncodeKeys(v, keys[1..]);
      if View(v, keys[0]).Some? then rest[keys[0] := View(v, keys[0]).value] else rest
  }

  lemma {:induction false} EncodeKeysEntry(v: Submission, keys: seq<Key>, k: Key)
    ensures k in EncodeKeys(v, keys) <==> k in keys && View(v, k).Some?
    ensures k in EncodeKeys(v, keys) ==> Some(EncodeKeys(v, keys)[k]) == View(v, k)
  {
    if keys != [] {
      EncodeKeysEntry(v, keys[1..], k);
    }
  }

  /** `JSON.stringify(values)`: every defined field becomes an entry; undefined ones are omitted. */
  function Encode(v: Submission): Document {
    EncodeKeys(v, AllKeys)
  }

  /** The body holds an entry for exactly the defined fields, each with the field's value. */
  lemma EncodeEntry(v: Submission, k: Key)
    ensures k in Encode(v) <==> View(v, k).Some?
    ensures k in Encode(v) ==> Some(Encode(v)[k]) == View(v, k)
  {
    AllKeysListed(k);
    EncodeKeysEntry(v, AllKeys, k);
  }

  function TextAt(d: Document, k: Key): Option<string> {
    if k in d && d[k].Str? then Some(d[k].text) else None
  }

  function ListAt(d: Document, k: Key): Option<seq<string>> {
    if k in d && d[k].List? then Some(d[k].items) else None
  }

  /** A body the record can be read from: the five identity fields are there, and each value has its field's shape. */
  predicate WellShaped(d: Document) {
    && Name in d && CompanyName in d && Email in d && Phone in d && HasWebsite in d
    && forall k :: k in d ==> (d[k].List? <==> IsListKey(k))
  }

  /** A body read back into the form's record type, or `None` when it does not have the record's shape. */
  function Decode(d: Document): (r: Option<Submission>)
    ensures r.Some? <==> WellShaped(d)
  {
    if !WellShaped(d) then None
    else Some(Submission(
      d[Name].text, d[CompanyName].text, d[Email].text, d[Phone].text, d[HasWebsite].text,
      TextAt(d, WebsiteUse), TextAt(d, BusinessIndustry), TextAt(d, TargetAudience),
      ListAt(d, Challenges),
      TextAt(d, ImplementedStrategies), TextAt(d, Campaigns), TextAt(d, DigitalPerformance),
      TextAt(d, JoinWishlist), TextAt(d, WantWebsite),
      ListAt(d, CreationChallenges),
      TextAt(d, BusinessIndustryOther), TextAt(d, WebsiteUseOther), TextAt(d, TargetAudienceOther)))
  }

  lemma TextAtOf(d: Document, k: Key, o: Option<string>)
    requires k in d <==> o.Some?
    requires k in d ==> d[k] == Str(o.value)
    ensures TextAt(d, k) == o
  {
  }

  lemma ListAtOf(d: Document, k: Key, o: Option<seq<string>>)
    requires k in d <==> o.Some?
    requires k in d ==> d[k] == List(o.value)
    ensures ListAt(d, k) == o
  {
  }

  lemma EncodeWellShaped(v: Submission)
    ensures WellShaped(Encode(v))
    ensures Encode(v)[Name] == Str(v.name)
    ensures Encode(v)[CompanyName] == Str(v.companyName)
    ensures Encode(v)[Email] == Str(v.email)
    ensures Encode(v)[Phone] == Str(v.phone)
    ensures Encode(v)[HasWebsite] == Str(v.hasWebsite)
  {
    var d := Encode(v);
    forall k | k in d ensures d[k].List? <==> IsListKey(k) {
      EncodeEntry(v, k);
    }
    EncodeEntry(v, Name);
    EncodeEntry(v, CompanyName);
    EncodeEntry(v, Email);
    EncodeEntry(v, Phone);
    EncodeEntry(v, HasWebsite);
  }

  lemma EncodeChoices(v: Submission)
    ensures TextAt(Encode(v), WebsiteUse) == v.websiteUse
    ensures TextAt(Encode(v), BusinessIndustry) == v.businessIndustry
    ensures TextAt(Encode(v), TargetAudience) == v.targetAudience
    ensures ListAt(Encode(v), Challenges) == v.challenges
  {
    EncodeEntry(v, WebsiteUse); TextAtOf(Encode(v), WebsiteUse, v.websiteUse);
    EncodeEntry(v, BusinessIndustry); TextAtOf(Encode(v), BusinessIndustry, v.businessIndustry);
    EncodeEntry(v, TargetAudience); TextAtOf(Encode(v), TargetAudience, v.targetAudience);
    EncodeEntry(v, Challenges); ListAtOf(Encode(v), Challenges, v.challenges);
  }

  lemma EncodeAnswers(v: Submission)
    ensures TextAt(Encode(v), ImplementedStrategies) == v.implementedStrategies
    ensures TextAt(Encode(v), Campaigns) == v.campaigns
    ensures TextAt(Encode(v), DigitalPerformance) == v.digitalperformance
    ensures TextAt(Encode(v), JoinWishlist) == v.joinWishlist
    ensures TextAt(Encode(v), WantWebsite) == v.wantWebsite
  {
    EncodeEntry(v, ImplementedStrategies); TextAtOf(Encode(v), ImplementedStrategies, v.implementedStrategies);
    EncodeEntry(v, Campaigns); TextAtOf(Encode(v), Campaigns, v.campaigns);
    EncodeEntry(v, DigitalPerformance); TextAtOf(Encode(v), DigitalPerformance, v.digitalperformance);
    EncodeEntry(v, JoinWishlist); TextAtOf(Encode(v), JoinWishlist, v.joinWishlist);
    EncodeEntry(v, WantWebsite); TextAtOf(Encode(v), WantWebsite, v.wantWebsite);
  }

  lemma EncodeRest(v: Submission)
    ensures ListAt(Encode(v), CreationChallenges) == v.creationChallenges
    ensures TextAt(Encode(v), BusinessIndustryOther) == v.businessIndustryOther
    ensures TextAt(Encode(v), WebsiteUseOther) == v.websiteUseOther
    ensures TextAt(Encode(v), TargetAudienceOther) == v.targetAudienceOther
  {
    EncodeEntry(v, CreationChallenges); ListAtOf(Encode(v), CreationChallenges, v.creationChallenges);
    EncodeEntry(v, BusinessIndustryOther); TextAtOf(Encode(v), BusinessIndustryOther, v.businessIndustryOther);
    EncodeEntry(v, WebsiteUseOther); TextAtOf(Encode(v), WebsiteUseOther, v.websiteUseOther);
    EncodeEntry(v, TargetAudienceOther); TextAtOf(Encode(v), TargetAudienceOther, v.targetAudienceOther);
  }

  /** The body the client sends reads back as exactly the submission it was built from. */
  lemma DecodeEncode(v: Submission)
    ensures Decode(Encode(v)) == Some(v)
  {
    EncodeWellShaped(v);
    EncodeChoices(v);
    EncodeAnswers(v);
    EncodeRest(v);
  }

  /** Each entry of a well-shaped body is the entry of the submission read from it. */
  lemma ViewDecode(d: Document, k: Key)
    requires WellShaped(d)
    ensures View(Decode(d).value, k) == if k in d then Some(d[k]) else None
  {
  }

  /** Conversely, a body that reads back as a submission is exactly that submission's encoding. */
  lemma EncodeDecode(d: Document)
    requires Decode(d).Some?
    ensures Encode(Decode(d).value) == d
  {
    var v := Decode(d).value;
    var e := Encode(v);
    forall k ensures (k in e <==> k in d) && (k in d ==> e[k] == d[k]) {
      ViewDecode(d, k);
      EncodeEntry(v, k);
    }
    assert e.Keys == d.Keys;
    assert forall k :: k in d ==> e[k] == d[k];
  }
}
