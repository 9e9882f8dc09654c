/**
 * The registration and login form rules. Each field rule is the conjunction of the
 * schema tests written for it; every test except `required` passes a missing value
 * and leaves it to `required` to reject.
 */
module Validation {

  import opened Wrappers

  /** Submitted form values by field name; a field the form did not send is absent. */
  type Form = map<string, string>

  function Field(form: Form, name: string): (v: Option<string>)
    ensures v.Some? <==> name in form
    ensures v.Some? ==> v.value == form[name]
  {
    if name in form then Some(form[name]) else None
  }

  // ---------------------------------------------------------------------------
  // The individual string tests
  // ---------------------------------------------------------------------------

  /** `.required()` on a string: present and not "". */
  predicate Required(v: Option<string>) {
    v.Some? && v.value != ""
  }

  /** `.min(n)`: at least `n` characters. */
  predicate MinLength(v: Option<string>, n: nat) {
    v.None? || |v.value| >= n
  }

  /** `.length(n)`: exactly `n` characters. */
  predicate ExactLength(v: Option<string>, n: nat) {
    v.None? || |v.value| == n
  }

  /** The regular-expression class `\d`: an ASCII digit. */
  predicate IsDigit(c: char) {
    '0' <= c <= '9'
  }

  predicate AllDigits(s: string) {
    forall i :: 0 <= i < |s| ==> IsDigit(s[i])
  }

  /** Whether the whole of `s` matches the anchored pattern `^\d{lo,hi}$`, consuming one character at a time. */
  function MatchDigits(s: string, lo: nat, hi: nat): bool {
    if s == [] then lo == 0
    else hi > 0 && IsDigit(s[0]) && MatchDigits(s[1..], if lo > 0 then lo - 1 else 0, hi - 1)
  }

  /** The pattern `^\d{lo,hi}$` accepts exactly the strings of digits whose length is between `lo` and `hi`. */
  lemma {:induction false} MatchDigitsIff(s: string, lo: nat, hi: nat)
    ensures MatchDigits(s, lo, hi) <==> AllDigits(s) && lo <= |s| <= hi
  {
    if s != [] {
      var rest := s[1..];
      MatchDigitsIff(rest, if lo > 0 then lo - 1 else 0, if hi > 0 then hi - 1 else 0);
      assert forall i :: 0 < i < |s| ==> s[i] == rest[i - 1];
      if AllDigits(s) {
        assert AllDigits(rest) by {
          forall i | 0 <= i < |rest| ensures IsDigit(rest[i]) {
            assert rest[i] == s[i + 1];
          }
        }
      }
    }
  }

  /** `.matches(/^\d{7,15}$/)`. */
  predicate MatchesPhonePattern(v: Option<string>) {
    v.None? || MatchDigits(v.value, 7, 15)
  }

  // ---------------------------------------------------------------------------
  // Field rules
  // ---------------------------------------------------------------------------

  /** `name`: at least 2 characters, required. */
  predicate NameValid(v: Option<string>)
    ensures NameValid(v) <==> v.Some? && |v.value| >= 2
  {
    MinLength(v, 2) && Required(v)
  }

  /** `email`: the e-mail format test (a parameter here) and required. */
  predicate EmailValid(v: Option<string>, isEmail: string -> bool)
    ensures EmailValid(v, isEmail) <==> v.Some? && v.value != "" && isEmail(v.value)
  {
    (v.None? || isEmail(v.value)) && Required(v)
  }

  /** `password`: at least 8 characters, required; the same rule in both schemas. */
  predicate PasswordValid(v: Option<string>)
    ensures PasswordValid(v) <==> v.Some? && |v.value| >= 8
  {
    MinLength(v, 8) && Required(v)
  }

  /** `countryCode`: required, nothing else. */
  predicate CountryCodeValid(v: Option<string>)
    ensures CountryCodeValid(v) <==> v.Some? && v.value != ""
  {
    Required(v)
  }

  /** `phoneNumber`: the pattern `^\d{7,15}$`, required. */
  predicate PhoneNumberValid(v: Option<string>)
    ensures PhoneNumberValid(v) <==> v.Some? && AllDigits(v.value) && 7 <= |v.value| <= 15
  {
    Required(v) && (MatchDigitsIff(v.value, 7, 15); MatchesPhonePattern(v))
  }

  /** `otp`: exactly 6 characters, required; the characters themselves are not constrained. */
  predicate OtpValid(v: Option<string>)
    ensures OtpValid(v) <==> v.Some? && |v.value| == 6
  {
    ExactLength(v, 6) && Required(v)
  }

  // ---------------------------------------------------------------------------
  // Schemas
  // ---------------------------------------------------------------------------

  /** The fields `registerSchema` marks as required. */
  const RegisterFields: set<string> := {"name", "email", "password", "countryCode", "phoneNumber", "otp"}

  /** `registerSchema`: every field rule holds. */
  predicate RegisterValid(form: Form, isEmail: string -> bool)
    ensures RegisterValid(form, isEmail) ==>
      forall name :: name in RegisterFields ==> name in form && form[name] != ""
    ensures RegisterValid(form, isEmail) ==>
      |form["name"]| >= 2 && |form["password"]| >= 8 && |form["otp"]| == 6 && AllDigits(form["phoneNumber"])
  {
    && NameValid(Field(form, "name"))
    && EmailValid(Field(form, "email"), isEmail)
    && PasswordValid(Field(form, "password"))
    && CountryCodeValid(Field(form, "countryCode"))
    && PhoneNumberValid(Field(form, "phoneNumber"))
    && OtpValid(Field(form, "otp"))
  }

  /** `loginSchema`: only `email` and `password`. */
  predicate LoginValid(form: Form, isEmail: string -> bool)
    ensures LoginValid(form, isEmail) <==>
      && "email" in form && form["email"] != "" && isEmail(form["email"])
      && "password" in form && |form["password"]| >= 8
  {
    && EmailValid(Field(form, "email"), isEmail)
    && PasswordValid(Field(form, "password"))
  }

  /** A registration form missing any required field, or sending it empty, is rejected. */
  lemma MissingRequiredFieldRejected(form: Form, name: string, isEmail: string -> bool)
    requires name in RegisterFields
    requires name !in form || form[name] == ""
    ensures !RegisterValid(form, isEmail)
  {
  }

  /** The login verdict depends on `email` and `password` alone: other fields, present or not, are ignored. */
  lemma LoginIgnoresOtherFields(form: Form, other: Form, isEmail: string -> bool)
    requires Field(form, "email") == Field(other, "email")
    requires Field(form, "password") == Field(other, "password")
    ensures LoginValid(form, isEmail) == LoginValid(other, isEmail)
  {
  }

  /** Every form that passes registration also passes login. */
  lemma RegisterImpliesLogin(form: Form, isEmail: string -> bool)
    requires RegisterValid(form, isEmail)
    ensures LoginValid(form, isEmail)
  {
  }

  /** The OTP rule accepts six letters, although its message speaks of six digits. */
  lemma OtpAcceptsNonDigits()
    ensures OtpValid(Some("abcdef")) && !AllDigits("abcdef")
  {
    assert !IsDigit("abcdef"[0]);
  }

  /** A phone number with a non-digit, such as a leading "+", is rejected. */
  lemma PhoneRejectsPlusSign()
    ensures !PhoneNumberValid(Some("+15551234"))
  {
    assert !IsDigit("+15551234"[0]);
  }
}
