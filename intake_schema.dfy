/**
 * The client-side schema of the intake form (`formSchema`, a zod object):
 * the rule each field must meet, the issues a parse reports, and the phone
 * pattern together with a scanner that decides it.
 */
module IntakeSchema {
  import opened Wrappers
  import opened Record

  // ---------------------------------------------------------------- lengths

  /** The number of UTF-16 code units of `s`, which is what a JavaScript string's `length` counts. */
  function Utf16Length(s: string): (n: nat)
    ensures |s| <= n <= 2 * |s|
  {
    if s == [] then 0
    else (if s[0] as int >= 0x1_0000 then 2 else 1) + Utf16Length(s[1..])
  }

  /** On text made only of Basic Multilingual Plane characters the UTF-16 length is the character count. */
  lemma {:induction false} Utf16LengthOfBmp(s: string)
    requires forall i :: 0 <= i < |s| ==> s[i] as int < 0x1_0000
    ensures Utf16Length(s) == |s|
  {
    if s != [] {
      Utf16LengthOfBmp(s[1..]);
    }
  }

  /** `z.string().min(2)`: no trimming, so blanks count like any other character. */
  predicate AtLeastTwo(s: string) {
    Utf16Length(s) >= 2
  }

  // ---------------------------------------------------------------- the phone pattern

  /** `\d` in a JavaScript regular expression without the `u` flag: an ASCII digit. */
  predicate IsRegexDigit(c: char) {
    '0' <= c <= '9'
  }

  /** `\s` in a JavaScript regular expression: the WhiteSpace and LineTerminator code points. */
  predicate IsRegexSpace(c: char) {
    var n := c as int;
    || n == 0x09 || n == 0x0A || n == 0x0B || n == 0x0C || n == 0x0D || n == 0x20
    || n == 0xA0 || n == 0x1680 || (0x2000 <= n <= 0x200A) || n == 0x2028 || n == 0x2029
    || n == 0x202F || n == 0x205F || n == 0x3000 || n == 0xFEFF
  }

  /** The class `[\d\s-()]`; the `-` stands between `\s` and `(` and is a literal hyphen. */
  predicate IsPhoneChar(c: char) {
    IsRegexDigit(c) || IsRegexSpace(c) || c == '-' || c == '(' || c == ')'
  }

  /** `[\d\s-()]{10,}` matched against the whole of `s`. */
  predicate IsPhoneBody(s: string) {
    |s| >= 10 && forall i :: 0 <= i < |s| ==> IsPhoneChar(s[i])
  }

  /** `/^\+?[\d\s-()]{10,}$/`: the body alone, or a `+` followed by the body. */
  predicate PhoneMatches(s: string) {
    IsPhoneBody(s) || (|s| > 0 && s[0] == '+' && IsPhoneBody(s[1..]))
  }

  /** The states of a left-to-right scanner for the phone pattern; `InBody(n)` has seen `n` body characters, counting stops at 10. */
  datatype ScanState = AtStart | InBody(seen: nat) | Rejected

  function ScanStep(q: ScanState, c: char): ScanState {
    match q
    case AtStart => if c == '+' then InBody(0) else if IsPhoneChar(c) then InBody(1) else Rejected
    case InBody(n) => if IsPhoneChar(c) then InBody(if n < 10 then n + 1 else 10) else Rejected
    case Rejected => Rejected
  }

  function Scan(q: ScanState, s: string): ScanState
    decreases |s|
  {
    if s == [] then q else Scan(ScanStep(q, s[0]), s[1..])
  }

  predicate ScannerAccepts(s: string) {
    Scan(AtStart, s) == InBody(10)
  }

  lemma {:induction false} ScanRejectedStays(s: string)
    ensures Scan(Rejected, s) == Rejected
  {
    if s != [] {
      ScanRejectedStays(s[1..]);
    }
  }

  /** Inside the body the scanner counts phone characters up to 10 and rejects at the first other character. */
  lemma {:induction false} ScanInBody(n: nat, s: string)
    requires n <= 10
    decreases |s|
    ensures (forall i :: 0 <= i < |s| ==> IsPhoneChar(s[i])) ==>
              Scan(InBody(n), s) == InBody(if n + |s| < 10 then n + |s| else 10)
    ensures !(forall i :: 0 <= i < |s| ==> IsPhoneChar(s[i])) ==> Scan(InBody(n), s) == Rejected
  {
    if s != [] {
      var next := if n < 10 then n + 1 else 10;
      if IsPhoneChar(s[0]) {
        ScanInBody(next, s[1..]);
        if !(forall i :: 0 <= i < |s| ==> IsPhoneChar(s[i])) {
          var i :| 0 <= i < |s| && !IsPhoneChar(s[i]);
          assert !IsPhoneChar(s[1..][i - 1]);
        }
      } else {
        ScanRejectedStays(s[1..]);
      }
    }
  }

  /** The scanner accepts exactly the strings the phone pattern matches. */
  lemma ScannerDecidesPhone(s: string)
    ensures ScannerAccepts(s) <==> PhoneMatches(s)
  {
    if s == [] {
    } else if s[0] == '+' {
      ScanInBody(0, s[1..]);
      assert !IsPhoneChar(s[0]);
    } else if IsPhoneChar(s[0]) {
      ScanInBody(1, s[1..]);
      assert IsPhoneBody(s) <==> IsPhoneBody(s[1..]) || (|s[1..]| == 9 && forall i :: 0 <= i < |s[1..]| ==> IsPhoneChar(s[1..][i]));
    } else {
      ScanRejectedStays(s[1..]);
    }
  }

  /** Ten or more body characters are needed, and a leading `+` is not one of them. */
  lemma PhoneNeedsTenBodyCharacters(s: string)
    requires PhoneMatches(s)
    ensures |s| >= 10
    ensures s[0] == '+' ==> |s| >= 11 && IsPhoneBody(s[1..])
  {
    if s[0] == '+' {
      assert !IsPhoneChar(s[0]);
    }
  }

  lemma PhoneAcceptedExamples()
    ensures PhoneMatches("1234567890")
    ensures PhoneMatches("+1 (555) 123-4567")
  {
  }

  lemma PhoneRejectedExamples()
    ensures !PhoneMatches("123456789")
    ensures !PhoneMatches("+123456789")
    ensures !PhoneMatches("+1.555.123.4567")
  {
    assert !IsPhoneChar('+') && !IsPhoneChar('.');
    assert "+123456789"[0] == '+';
    assert "+1.555.123.4567"[0] == '+';
    assert "+1.555.123.4567"[1..][1] == '.';
  }

  // ---------------------------------------------------------------- field rules

  predicate IsYesNo(s: string) {
    s == "yes" || s == "no"
  }

  /** `z.enum(["yes", "no"]).optional()`: undefined, or one of the two answers. */
  predicate OptionalYesNo(o: Option<string>) {
    o.None? || IsYesNo(o.value)
  }

  /** The rule the schema attaches to field `k`; `isEmail` stands for zod's `email()` check. */
  predicate FieldOk(v: Submission, k: Key, isEmail: string -> bool) {
    match k
    case Name => AtLeastTwo(v.name)
    case CompanyName => AtLeastTwo(v.companyName)
    case Email => isEmail(v.email)
    case Phone => PhoneMatches(v.phone)
    case HasWebsite => IsYesNo(v.hasWebsite)
    case ImplementedStrategies => OptionalYesNo(v.implementedStrategies)
    case Campaigns => OptionalYesNo(v.campaigns)
    case DigitalPerformance => OptionalYesNo(v.digitalperformance)
    case JoinWishlist => OptionalYesNo(v.joinWishlist)
    case WantWebsite => OptionalYesNo(v.wantWebsite)
    case _ => true
  }

  /** The schema accepts the submission. */
  predicate ClientValid(v: Submission, isEmail: string -> bool) {
    forall k :: FieldOk(v, k, isEmail)
  }

  /** Validity field by field: these ten rules and nothing else. */
  lemma ClientValidRules(v: Submission, isEmail: string -> bool)
    ensures ClientValid(v, isEmail) <==>
      && Utf16Length(v.name) >= 2 && Utf16Length(v.companyName) >= 2
      && isEmail(v.email) && PhoneMatches(v.phone) && IsYesNo(v.hasWebsite)
      && OptionalYesNo(v.implementedStrategies) && OptionalYesNo(v.campaigns)
      && OptionalYesNo(v.digitalperformance) && OptionalYesNo(v.joinWishlist)
      && OptionalYesNo(v.wantWebsite)
  {
    if ClientValid(v, isEmail) {
      assert FieldOk(v, Name, isEmail) && FieldOk(v, CompanyName, isEmail);
      assert FieldOk(v, Email, isEmail) && FieldOk(v, Phone, isEmail) && FieldOk(v, HasWebsite, isEmail);
      assert FieldOk(v, ImplementedStrategies, isEmail) && FieldOk(v, Campaigns, isEmail);
      assert FieldOk(v, DigitalPerformance, isEmail) && FieldOk(v, JoinWishlist, isEmail);
      assert FieldOk(v, WantWebsite, isEmail);
    } else {
      var k :| !FieldOk(v, k, isEmail);
    }
  }

  /** The name rule on ordinary text: rejected exactly when fewer than two characters. */
  lemma NameRuleOnBmpText(v: Submission, isEmail: string -> bool)
    requires forall i :: 0 <= i < |v.name| ==> v.name[i] as int < 0x1_0000
    ensures FieldOk(v, Name, isEmail) <==> |v.name| >= 2
  {
    Utf16LengthOfBmp(v.name);
  }

  /** Nothing trims: a name of two blanks passes, and a single astral character counts as two. */
  lemma NameRuleExamples()
    ensures AtLeastTwo("  ")
    ensures !AtLeastTwo("J")
    ensures AtLeastTwo([0x1_F600 as char])
  {
  }

  // ---------------------------------------------------------------- issues

  /** One entry of a failed parse: the field and the custom message, `None` where zod's default message is used. */
  datatype Issue = Issue(key: Key, message: Option<string>)

  function Message(k: Key): Option<string> {
    match k
    case Name => Some("Name must be at least 2 characters")
    case CompanyName => Some("Company name must be at least 2 characters")
    case Email => Some("Invalid email address")
    case Phone => Some("Invalid phone number")
    case _ => None
  }

  function KeysOf(issues: seq<Issue>): seq<Key> {
    seq(|issues|, i requires 0 <= i < |issues| => issues[i].key)
  }

  /** The issues reported for the fields `keys`, one for each failing entry of `keys`. */
  function IssuesOver(v: Submission, isEmail: string -> bool, keys: seq<Key>): (r: seq<Issue>)
    ensures |r| <= |keys|
    ensures forall i :: 0 <= i < |r| ==> r[i].message == Message(r[i].key)
    ensures forall k :: k in KeysOf(r) <==> k in keys && !FieldOk(v, k, isEmail)
  {
    if keys == [] then []
    else
      var head := if FieldOk(v, keys[0], isEmail) then [] else [Issue(keys[0], Message(keys[0]))];
      var rest := IssuesOver(v, isEmail, keys[1..]);
      assert KeysOf(head) == if FieldOk(v, keys[0], isEmail) then [] else [keys[0]];
      assert KeysOf(head + rest) == KeysOf(head) + KeysOf(rest);
      assert keys == [keys[0]] + keys[1..];
      head + rest
  }

  /** No key occurs twice. */
  predicate DistinctKeys(ks: seq<Key>) {
    forall i, j :: 0 <= i < j < |ks| ==> ks[i] != ks[j]
  }

  /** Over fields listed once each, every failing field is reported once. */
  lemma {:induction false} IssuesOverDistinct(v: Submission, isEmail: string -> bool, keys: seq<Key>)
    requires DistinctKeys(keys)
    ensures DistinctKeys(KeysOf(IssuesOver(v, isEmail, keys)))
  {
    if keys != [] {
      var head := if FieldOk(v, keys[0], isEmail) then [] else [Issue(keys[0], Message(keys[0]))];
      var rest := IssuesOver(v, isEmail, keys[1..]);
      assert DistinctKeys(keys[1..]);
      IssuesOverDistinct(v, isEmail, keys[1..]);
      forall j | 0 <= j < |keys[1..]| ensures keys[1..][j] != keys[0] {
        assert keys[1..][j] == keys[j + 1];
      }
      assert keys[0] !in KeysOf(rest);
      assert KeysOf(head) == if FieldOk(v, keys[0], isEmail) then [] else [keys[0]];
      assert KeysOf(head + rest) == KeysOf(head) + KeysOf(rest);
    }
  }

  /** `formSchema.safeParse(values)`: every field is checked and each failing one is reported, once. */
  function Issues(v: Submission, isEmail: string -> bool): (r: seq<Issue>)
    ensures forall k :: k in KeysOf(r) <==> !FieldOk(v, k, isEmail)
    ensures DistinctKeys(KeysOf(r))
  {
    forall k ensures k in AllKeys { AllKeysListed(k); }
    assert DistinctKeys(AllKeys);
    IssuesOverDistinct(v, isEmail, AllKeys);
    IssuesOver(v, isEmail, AllKeys)
  }

  /** A parse reports no issue exactly when the schema accepts the submission. */
  lemma NoIssuesIffValid(v: Submission, isEmail: string -> bool)
    ensures Issues(v, isEmail) == [] <==> ClientValid(v, isEmail)
  {
    var r := Issues(v, isEmail);
    if r != [] {
      assert KeysOf(r)[0] == r[0].key;
      assert r[0].key in KeysOf(r);
      assert !FieldOk(v, r[0].key, isEmail);
    }
  }

  /** The choice fields and every `*Other` text are unconstrained: any values there leave validity as it was. */
  lemma FreeFieldsIrrelevant(v: Submission, isEmail: string -> bool,
                             websiteUse: Option<string>, websiteUseOther: Option<string>,
                             businessIndustryOther: Option<string>, targetAudienceOther: Option<string>)
    ensures ClientValid(v.(websiteUse := websiteUse, websiteUseOther := websiteUseOther,
                           businessIndustryOther := businessIndustryOther,
                           targetAudienceOther := targetAudienceOther), isEmail)
            == ClientValid(v, isEmail)
  {
    var w := v.(websiteUse := websiteUse, websiteUseOther := websiteUseOther,
                businessIndustryOther := businessIndustryOther, targetAudienceOther := targetAudienceOther);
    ClientValidRules(v, isEmail);
    ClientValidRules(w, isEmail);
  }
}
