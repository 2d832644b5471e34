/**
 * How the two schemas relate: the body of every submission the client
 * schema accepts meets the stored-record schema's `required` and `enum`
 * validators, while the converse fails: the server stores a one-letter name.
 */
module SchemaAgreement {
  import opened Wrappers
  import opened Record
  import opened IntakeSchema
  import opened BusinessFormModel

  /** The one assumption about zod's `email()` this needs: it never accepts the empty string. */
  ghost predicate EmailNeverEmpty(isEmail: string -> bool) {
    forall s :: isEmail(s) ==> s != ""
  }

  /** The five optional yes/no answers. */
  predicate IsOptionalAnswer(k: Key) {
    k.ImplementedStrategies? || k.Campaigns? || k.DigitalPerformance? || k.JoinWishlist? || k.WantWebsite?
  }

  lemma AnswerStored(v: Submission, k: Key, isEmail: string -> bool)
    requires IsOptionalAnswer(k)
    requires FieldOk(v, k, isEmail)
    ensures InEnum(Encode(v), k, YesNo)
  {
    EncodeEntry(v, k);
  }

  lemma IdentityStored(v: Submission, isEmail: string -> bool)
    requires EmailNeverEmpty(isEmail)
    requires ClientValid(v, isEmail)
    ensures Supplied(Encode(v), Name) && Supplied(Encode(v), CompanyName) && Supplied(Encode(v), Email)
    ensures Supplied(Encode(v), Phone) && Supplied(Encode(v), HasWebsite)
    ensures InEnum(Encode(v), HasWebsite, YesNo)
  {
    assert FieldOk(v, Name, isEmail) && FieldOk(v, CompanyName, isEmail) && FieldOk(v, Email, isEmail);
    assert FieldOk(v, Phone, isEmail) && FieldOk(v, HasWebsite, isEmail);
    EncodeWellShaped(v);
    PhoneNeedsTenBodyCharacters(v.phone);
  }

  /** A submission the client lets through is one the server's schema stores. */
  lemma ClientValidIsStorable(v: Submission, isEmail: string -> bool)
    requires EmailNeverEmpty(isEmail)
    requires ClientValid(v, isEmail)
    ensures Accepts(Encode(v))
  {
    IdentityStored(v, isEmail);
    AnswerStored(v, ImplementedStrategies, isEmail);
    AnswerStored(v, Campaigns, isEmail);
    AnswerStored(v, DigitalPerformance, isEmail);
    AnswerStored(v, JoinWishlist, isEmail);
    AnswerStored(v, WantWebsite, isEmail);
    AcceptsRules(Encode(v));
  }

  /** A body with a one-letter name: every other field as the client would allow it. */
  function ShortNamed(): Submission {
    Submission("a", "Acme", "a@b.co", "1234567890", "no", None, None, None, None,
               None, None, None, None, None, None, None, None, None)
  }

  /** Different submissions are posted as different bodies. */
  lemma EncodeInjective(v: Submission, w: Submission)
    requires Encode(v) == Encode(w)
    ensures v == w
  {
    DecodeEncode(v);
    DecodeEncode(w);
  }

  /** An optional answer is posted within the server's enum exactly when it is absent or yes/no. */
  lemma AnswerEnum(v: Submission, k: Key, o: Option<string>)
    requires IsOptionalAnswer(k) && View(v, k) == OptText(o)
    ensures InEnum(Encode(v), k, YesNo) <==> OptionalYesNo(o)
  {
    EncodeEntry(v, k);
  }

  /** The five required paths of a posted submission are supplied exactly when those fields are non-empty. */
  lemma IdentitySupplied(v: Submission)
    ensures Supplied(Encode(v), Name) <==> v.name != ""
    ensures Supplied(Encode(v), CompanyName) <==> v.companyName != ""
    ensures Supplied(Encode(v), Email) <==> v.email != ""
    ensures Supplied(Encode(v), Phone) <==> v.phone != ""
    ensures Supplied(Encode(v), HasWebsite) <==> v.hasWebsite != ""
    ensures InEnum(Encode(v), HasWebsite, YesNo) <==> IsYesNo(v.hasWebsite)
  {
    EncodeWellShaped(v);
  }

  /** What the server demands of a posted submission, field by field: no length, email or phone rule. */
  lemma StoredRules(v: Submission)
    ensures Accepts(Encode(v)) <==>
      && v.name != "" && v.companyName != "" && v.email != "" && v.phone != ""
      && IsYesNo(v.hasWebsite)
      && OptionalYesNo(v.implementedStrategies) && OptionalYesNo(v.campaigns)
      && OptionalYesNo(v.digitalperformance) && OptionalYesNo(v.joinWishlist)
      && OptionalYesNo(v.wantWebsite)
  {
    IdentitySupplied(v);
    AnswerEnum(v, ImplementedStrategies, v.implementedStrategies);
    AnswerEnum(v, Campaigns, v.campaigns);
    AnswerEnum(v, DigitalPerformance, v.digitalperformance);
    AnswerEnum(v, JoinWishlist, v.joinWishlist);
    AnswerEnum(v, WantWebsite, v.wantWebsite);
    AcceptsRules(Encode(v));
  }

  /** The server stores the body of `ShortNamed()`, which the client refuses, and no other submission has that body. */
  lemma StorableNeedNotBeClientValid(isEmail: string -> bool)
    ensures Accepts(Encode(ShortNamed()))
    ensures forall v :: Encode(v) == Encode(ShortNamed()) ==> !ClientValid(v, isEmail)
  {
    StoredRules(ShortNamed());
    forall v | Encode(v) == Encode(ShortNamed()) ensures !ClientValid(v, isEmail) {
      EncodeInjective(v, ShortNamed());
      assert Utf16Length(v.name) == 1;
      assert !FieldOk(v, Name, isEmail);
    }
  }
}
