/**
 * The phone normalisation of the user model: the normaliser itself, the
 * schema setter, the pre-save hook and the pre-update hook.
 */
module UserModel {
  import opened Text
  import opened Wrappers

  /**
   * `normalizePhone` of the user model: a falsy (empty) input and an input with
   * no digit come back unchanged; otherwise `"+"` and the input's digits.
   */
  function NormalizePhone(phone: string): (r: string)
    ensures phone == "" ==> r == phone
    ensures Digits(phone) == "" ==> r == phone
    ensures Digits(phone) != "" ==> |r| > 1 && r[0] == '+' && r[1..] == Digits(phone)
  {
    if phone == "" then phone
    else
      DigitsOfTrim(phone);
      var digits := Digits(Trim(phone));
      if digits == "" then phone else "+" + digits
  }

  /** Normalising a normalised number changes nothing. */
  lemma NormalizeIdempotent(phone: string)
    ensures NormalizePhone(NormalizePhone(phone)) == NormalizePhone(phone)
  {
    var r := NormalizePhone(phone);
    if Digits(phone) != "" {
      var d := Digits(phone);
      assert r == "+" + d;
      DigitsAppend("+", d);
      DigitsOfDigits(d);
      assert Digits(r) == d;
      var r2 := NormalizePhone(r);
      assert r2 == [r2[0]] + r2[1..];
    }
  }

  /**
   * What the `phone` path stores for an assigned value: the schema's custom
   * setter followed by its `trim` setter. A value with digits is stored as
   * `"+"` and its digits; one without is stored trimmed.
   */
  function StoredPhone(value: string): (r: string)
    ensures Digits(value) != "" ==> r == "+" + Digits(value)
    ensures Digits(value) == "" ==> r == Trim(value)
  {
    var n := NormalizePhone(value);
    if Digits(value) != "" then
      assert n == "+" + Digits(value);
      TrimmedIsFixed(n);
      Trim(n)
    else
      Trim(n)
  }

  /** The two setters commute: trimming first and normalising after stores the same. */
  lemma StoredPhoneOrderIrrelevant(value: string)
    ensures StoredPhone(value) == NormalizePhone(Trim(value))
  {
    DigitsOfTrim(value);
  }

  /** Assigning a stored phone again stores the same phone. */
  lemma StoredPhoneIdempotent(value: string)
    ensures StoredPhone(StoredPhone(value)) == StoredPhone(value)
  {
    var r := StoredPhone(value);
    if Digits(value) != "" {
      DigitsAppend("+", Digits(value));
      DigitsOfDigits(Digits(value));
      assert Digits(r) == Digits(value);
    } else {
      DigitsOfTrim(value);
      TrimIdempotent(value);
    }
  }

  /** The pre-save hook leaves a phone that came through the setters as it was. */
  lemma PreSaveKeepsStored(value: string)
    ensures StoredPhone(NormalizePhone(StoredPhone(value))) == StoredPhone(value)
  {
    var r := StoredPhone(value);
    if Digits(value) != "" {
      DigitsAppend("+", Digits(value));
      DigitsOfDigits(Digits(value));
      assert Digits(r) == Digits(value);
      NormalizeIdempotent(value);
      assert NormalizePhone(r) == r;
    } else {
      DigitsOfTrim(value);
      assert NormalizePhone(r) == r;
    }
    StoredPhoneIdempotent(value);
  }

  /** A user document; only the `phone` path is modelled. */
  class UserDocument {
    var phone: string

    /** A document whose phone was assigned through the schema setters. */
    constructor (value: string)
      ensures phone == StoredPhone(value)
    {
      phone := StoredPhone(value);
    }

    /** An assignment to `phone`, which runs the schema setters. */
    method SetPhone(value: string)
      modifies this
      ensures phone == StoredPhone(value)
    {
      phone := StoredPhone(value);
    }

    /**
     * The pre-save hook: a non-empty phone is normalised and assigned back,
     * through the setters.
     */
    method PreSave()
      modifies this
      ensures phone == if old(phone) != "" then StoredPhone(NormalizePhone(old(phone))) else old(phone)
    {
      if phone != "" {
        SetPhone(NormalizePhone(phone));
      }
    }
  }

  /**
   * An update document: its top-level string fields and, when present, the
   * fields of its `$set` operator.
   */
  class UpdateDocument {
    var fields: map<string, string>
    var setFields: Option<map<string, string>>

    constructor (fields: map<string, string>, setFields: Option<map<string, string>>)
      ensures this.fields == fields && this.setFields == setFields
    {
      this.fields := fields;
      this.setFields := setFields;
    }

    /**
     * The pre-update hook: a non-empty `phone` is normalised at the top level
     * and inside `$set`; every other field stays as it was.
     */
    method PreUpdate()
      modifies this
      ensures fields == NormalizedPhoneField(old(fields))
      ensures setFields == if old(setFields).Some? then Some(NormalizedPhoneField(old(setFields).value)) else None
    {
      if "phone" in fields && fields["phone"] != "" {
        fields := fields["phone" := NormalizePhone(fields["phone"])];
      }
      if setFields.Some? && "phone" in setFields.value && setFields.value["phone"] != "" {
        setFields := Some(setFields.value["phone" := NormalizePhone(setFields.value["phone"])]);
      }
    }
  }

  /** One level of an update document after the hook has run on it. */
  function NormalizedPhoneField(m: map<string, string>): (r: map<string, string>)
    ensures r.Keys == m.Keys
    ensures forall k :: k in m && k != "phone" ==> r[k] == m[k]
    ensures "phone" in m ==> r["phone"] == NormalizePhone(m["phone"])
  {
    if "phone" in m && m["phone"] != "" then m["phone" := NormalizePhone(m["phone"])] else m
  }
}
