/**
 * The stored-record schema (`BusinessFormSchema`), written as the table of
 * paths it declares, and the acceptance predicate its `required` and `enum`
 * validators impose on a document.
 */
module BusinessFormModel {
  import opened Wrappers
  import opened Record

  datatype SchemaType = StringType | StringArray

  /** One path of the schema: its type, whether it is required, and its enum (empty when there is none). */
  datatype PathDecl = PathDecl(key: Key, kind: SchemaType, required: bool, enumValues: seq<string>)

  const YesNo: seq<string> := ["yes", "no"]

  /** The paths in declaration order. */
  const BusinessFormSchema: seq<PathDecl> := [
    PathDecl(Name, StringType, true, []),
    PathDecl(CompanyName, StringType, true, []),
    PathDecl(Email, StringType, true, []),
    PathDecl(Phone, StringType, true, []),
    PathDecl(HasWebsite, StringType, true, YesNo),
    PathDecl(WebsiteUse, StringArray, false, []),
    PathDecl(WebsiteUseOther, StringType, false, []),
    PathDecl(BusinessIndustry, StringArray, false, []),
    PathDecl(BusinessIndustryOther, StringType, false, []),
    PathDecl(TargetAudience, StringArray, false, []),
    PathDecl(TargetAudienceOther, StringType, false, []),
    PathDecl(Challenges, StringArray, false, []),
    PathDecl(ImplementedStrategies, StringType, false, YesNo),
    PathDecl(Campaigns, StringType, false, YesNo),
    PathDecl(DigitalPerformance, StringType, false, YesNo),
    PathDecl(JoinWishlist, StringType, false, YesNo),
    PathDecl(WantWebsite, StringType, false, YesNo),
    PathDecl(CreationChallenges, StringArray, false, [])]

  /** `required: true` on a string path: the value is there and is a non-empty string (an array fails the string cast). */
  predicate Supplied(d: Document, k: Key) {
    k in d && match d[k] case Str(s) => s != "" case List(_) => false
  }

  /** An `enum` validator: an absent value passes, a present one must be a string from the list. */
  predicate InEnum(d: Document, k: Key, values: seq<string>) {
    k in d ==> d[k].Str? && d[k].text in values
  }

  predicate PathAccepts(p: PathDecl, d: Document) {
    && (p.required ==> Supplied(d, p.key))
    && (|p.enumValues| > 0 ==> InEnum(d, p.key, p.enumValues))
  }

  /** The document passes every validator of the schema. */
  predicate Accepts(d: Document) {
    forall i :: 0 <= i < |BusinessFormSchema| ==> PathAccepts(BusinessFormSchema[i], d)
  }

  /** What the schema demands, path by path: five supplied identity fields, `hasWebsite` in yes/no, five optional yes/no answers. */
  lemma AcceptsRules(d: Document)
    ensures Accepts(d) <==>
      && Supplied(d, Name) && Supplied(d, CompanyName) && Supplied(d, Email)
      && Supplied(d, Phone) && Supplied(d, HasWebsite) && InEnum(d, HasWebsite, YesNo)
      && InEnum(d, ImplementedStrategies, YesNo) && InEnum(d, Campaigns, YesNo)
      && InEnum(d, DigitalPerformance, YesNo) && InEnum(d, JoinWishlist, YesNo)
      && InEnum(d, WantWebsite, YesNo)
  {
    if Accepts(d) {
      assert PathAccepts(BusinessFormSchema[0], d) && PathAccepts(BusinessFormSchema[1], d);
      assert PathAccepts(BusinessFormSchema[2], d) && PathAccepts(BusinessFormSchema[3], d);
      assert PathAccepts(BusinessFormSchema[4], d);
      assert PathAccepts(BusinessFormSchema[12], d) && PathAccepts(BusinessFormSchema[13], d);
      assert PathAccepts(BusinessFormSchema[14], d) && PathAccepts(BusinessFormSchema[15], d);
      assert PathAccepts(BusinessFormSchema[16], d);
    }
  }

  /** The position of the path that declares field `k`: every field of the record is declared. */
  function DeclIndex(k: Key): (i: nat)
    ensures i < |BusinessFormSchema| && BusinessFormSchema[i].key == k
  {
    match k
    case Name => 0
    case CompanyName => 1
    case Email => 2
    case Phone => 3
    case HasWebsite => 4
    case WebsiteUse => 5
    case WebsiteUseOther => 6
    case BusinessIndustry => 7
    case BusinessIndustryOther => 8
    case TargetAudience => 9
    case TargetAudienceOther => 10
    case Challenges => 11
    case ImplementedStrategies => 12
    case Campaigns => 13
    case DigitalPerformance => 14
    case JoinWishlist => 15
    case WantWebsite => 16
    case CreationChallenges => 17
  }

  /** No field is declared twice. */
  lemma DeclaredOnce(i: nat, j: nat)
    requires i < j < |BusinessFormSchema|
    ensures BusinessFormSchema[i].key != BusinessFormSchema[j].key
  {
    assert forall n :: 0 <= n < |BusinessFormSchema| ==> DeclIndex(BusinessFormSchema[n].key) == n;
  }

  /** The `*Other` paths are free text: optional strings with no enum, so any text or none is accepted there. */
  lemma OtherTextsUnconstrained(d: Document, k: Key, text: Option<string>)
    requires k == WebsiteUseOther || k == BusinessIndustryOther || k == TargetAudienceOther
    ensures Accepts(d) ==> Accepts(if text.Some? then d[k := Str(text.value)] else d - {k})
  {
    var e := if text.Some? then d[k := Str(text.value)] else d - {k};
    if Accepts(d) {
      AcceptsRules(d);
      AcceptsRules(e);
    }
  }

  /** The kinds of the paths: the five multi-valued fields are string arrays, every other path a single string. */
  lemma PathKinds(i: nat)
    requires i < |BusinessFormSchema|
    ensures BusinessFormSchema[i].kind == StringArray <==>
      BusinessFormSchema[i].key in [WebsiteUse, BusinessIndustry, TargetAudience, Challenges, CreationChallenges]
  {
  }
}
