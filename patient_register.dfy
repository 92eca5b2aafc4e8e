/** The ASHA worker's patient registration form (client/src/pages/PatientRegister.jsx):
    a patient's details, a pregnancy checkbox offered only to women of
    child-bearing age and an immunisation checkbox offered only to young
    children, both decided from the age field through JavaScript's
    `parseInt`. */
module PatientRegister {
  import opened Common

  // ---------------------------------------------------------------------------
  // parseInt on a decimal string

  predicate IsDigit(c: char) {
    '0' <= c <= '9'
  }

  predicate AllDigits(s: string) {
    forall i :: 0 <= i < |s| ==> IsDigit(s[i])
  }

  /** The longest prefix of `s` made of decimal digits. */
  function DigitPrefix(s: string): (d: string)
    ensures |d| <= |s| && d == s[..|d|]
    ensures AllDigits(d)
    ensures |d| < |s| ==> !IsDigit(s[|d|])
  {
    if s != [] && IsDigit(s[0]) then [s[0]] + DigitPrefix(s[1..]) else []
  }

  /** The value of a string of decimal digits, most significant first. */
  function DigitsValue(d: string): nat
    requires AllDigits(d)
  {
    if d == [] then 0 else DigitsValue(d[..|d| - 1]) * 10 + (d[|d| - 1] as int - '0' as int)
  }

  /** `parseInt(s)` on the value of the number-typed age field, which never
      holds a radix prefix such as "0x": leading whitespace skipped, an
      optional sign, then the longest run of decimal digits; `None` (NaN)
      when there is no digit. */
  function ParseInt(s: string): Option<int> {
    ParseSigned(TrimStart(s))
  }

  /** An optional sign, then digits. */
  function ParseSigned(t: string): Option<int> {
    if t != [] && t[0] == '-' then
      match ParseDigits(t[1..])
      case Some(v) => Some(-v)
      case None => None
    else if t != [] && t[0] == '+' then ParseDigits(t[1..])
    else ParseDigits(t)
  }

  /** The value of the leading digits, `None` when there are none. */
  function ParseDigits(u: string): Option<int> {
    var d := DigitPrefix(u);
    if d == [] then None else Some(DigitsValue(d))
  }

  /** The digits of `n` read back give `n`. */
  lemma {:induction false} DigitsValueOfDecimal(n: nat)
    ensures AllDigits(Decimal(n)) && DigitsValue(Decimal(n)) == n
  {
    var r := Decimal(n);
    if n >= 10 {
      DigitsValueOfDecimal(n / 10);
      assert r[..|r| - 1] == Decimal(n / 10);
    }
  }

  /** A string of digits is its own digit prefix. */
  lemma {:induction false} DigitPrefixOfDigits(s: string)
    requires AllDigits(s)
    ensures DigitPrefix(s) == s
  {
    if s != [] {
      DigitPrefixOfDigits(s[1..]);
    }
  }

  /** Nothing is trimmed from a string that starts with a visible
      character. */
  lemma TrimStartKeeps(s: string)
    requires s != [] && !IsWhitespace(s[0])
    ensures TrimStart(s) == s
  {
  }

  /** `parseInt` reads back every number the number field can hold as a
      whole decimal, with or without a minus sign. */
  lemma ParseIntOfDecimal(n: nat)
    ensures ParseInt(Decimal(n)) == Some(n)
    ensures ParseInt("-" + Decimal(n)) == Some(-(n as int))
  {
    var r := Decimal(n);
    DigitsValueOfDecimal(n);
    DigitPrefixOfDigits(r);
    assert ParseDigits(r) == Some(n);
    assert IsDigit(r[0]);
    ParseIntUnsigned(r, n);
    ParseIntNegative(r, n);
  }

  /** Digits at the start of the field read as their value. */
  lemma ParseIntUnsigned(r: string, v: int)
    requires r != [] && IsDigit(r[0]) && ParseDigits(r) == Some(v)
    ensures ParseInt(r) == Some(v)
  {
    TrimStartKeeps(r);
  }

  /** A minus sign before digits negates their value. */
  lemma ParseIntNegative(r: string, v: int)
    requires ParseDigits(r) == Some(v)
    ensures ParseInt("-" + r) == Some(-v)
  {
    var m := "-" + r;
    TrimStartKeeps(m);
    assert m[1..] == r;
  }

  /** An empty field, or one that starts with anything but whitespace, a
      sign or a digit, is NaN. */
  lemma ParseIntNaN(s: string)
    requires s == [] || !(IsWhitespace(s[0]) || s[0] == '-' || s[0] == '+' || IsDigit(s[0]))
    ensures ParseInt(s).None?
  {
  }

  // ---------------------------------------------------------------------------
  // The form

  datatype FormData = FormData(
    fullName: string,
    age: string,
    gender: string,
    address: string,
    contactNumber: string,
    abhaId: string,
    isPregnant: bool,
    lmp: string,
    dateOfBirth: string,
    trackImmunization: bool)

  const InitialForm := FormData("", "", "Male", "", "", "", false, "", "", false)

  /** The inputs `handleChange` is bound to; the two flags are checkboxes. */
  datatype Field =
    | FullName | Age | Gender | Address | ContactNumber | AbhaId
    | IsPregnant | Lmp | DateOfBirth | TrackImmunization

  predicate IsCheckbox(f: Field) {
    f == IsPregnant || f == TrackImmunization
  }

  /** `{ ...formData, [name]: type === 'checkbox' ? checked : value }`. */
  function Changed(form: FormData, f: Field, value: string, checked: bool): (r: FormData)
    ensures IsCheckbox(f) ==> r.isPregnant == (if f == IsPregnant then checked else form.isPregnant)
    ensures IsCheckbox(f) ==> r.trackImmunization == (if f == TrackImmunization then checked else form.trackImmunization)
    ensures !IsCheckbox(f) ==> r.isPregnant == form.isPregnant && r.trackImmunization == form.trackImmunization
    ensures r.age == (if f == Age then value else form.age)
    ensures r.gender == (if f == Gender then value else form.gender)
  {
    match f
    case FullName => form.(fullName := value)
    case Age => form.(age := value)
    case Gender => form.(gender := value)
    case Address => form.(address := value)
    case ContactNumber => form.(contactNumber := value)
    case AbhaId => form.(abhaId := value)
    case IsPregnant => form.(isPregnant := checked)
    case Lmp => form.(lmp := value)
    case DateOfBirth => form.(dateOfBirth := value)
    case TrackImmunization => form.(trackImmunization := checked)
  }

  /** The pregnancy section is shown to a woman whose age parses to 15..50. */
  predicate ShowPregnancyOption(form: FormData) {
    var age := ParseInt(form.age);
    form.gender == "Female" && age.Some? && 15 <= age.value <= 50
  }

  /** The immunisation section is shown when the age parses to at most 5. */
  predicate ShowImmunizationOption(form: FormData) {
    var age := ParseInt(form.age);
    age.Some? && age.value <= 5
  }

  /** The two sections are never shown together; an unparsable age shows
      neither; a whole age shows them by its value. */
  lemma OptionsByAge(form: FormData, n: nat)
    ensures !(ShowPregnancyOption(form) && ShowImmunizationOption(form))
    ensures ParseInt(form.age).None? ==> !ShowPregnancyOption(form) && !ShowImmunizationOption(form)
    ensures form.age == Decimal(n) ==>
      && (ShowPregnancyOption(form) <==> form.gender == "Female" && 15 <= n <= 50)
      && (ShowImmunizationOption(form) <==> n <= 5)
  {
    if form.age == Decimal(n) {
      ParseIntOfDecimal(n);
    }
  }

  class PatientRegisterPage {
    var form: FormData
    var loading: bool

    constructor ()
      ensures form == InitialForm && !loading
    {
      form := InitialForm;
      loading := false;
    }

    /** `handleChange`. A checkbox keeps its value when a later change hides
        its section: the flag is not reset, and is sent with the form. */
    method HandleChange(f: Field, value: string, checked: bool)
      modifies this
      ensures form == Changed(old(form), f, value, checked)
      ensures !IsCheckbox(f) ==> form.isPregnant == old(form.isPregnant) && form.trackImmunization == old(form.trackImmunization)
      ensures loading == old(loading)
    {
      form := Changed(form, f, value, checked);
    }

    /** `handleSubmit`: `created` is the new patient's identifier, `None`
        when the request fails. A success leads to the patient's page; either
        way loading ends and the form is kept. */
    method HandleSubmit(created: Option<Id>) returns (destination: Option<string>)
      modifies this
      ensures created.Some? ==> destination == Some("/asha/patients/" + created.value)
      ensures created.None? ==> destination.None?
      ensures !loading && form == old(form)
    {
      loading := true;
      if created.Some? {
        destination := Some("/asha/patients/" + created.value);
      } else {
        destination := None;
      }
      loading := false;
    }
  }

  /** A pregnancy ticked for a 30-year-old woman is still sent as pregnant
      after the age is changed to 60, though the section is then hidden. */
  lemma HiddenPregnancyFlagIsKept(form: FormData)
    requires form.gender == "Female" && form.age == Decimal(30) && form.isPregnant
    ensures ShowPregnancyOption(form)
    ensures !ShowPregnancyOption(Changed(form, Age, Decimal(60), false))
    ensures Changed(form, Age, Decimal(60), false).isPregnant
  {
    ParseIntOfDecimal(30);
    ParseIntOfDecimal(60);
  }
}
