/**
 * The request-body checks the routes declare, as predicates over the
 * submitted text, and JavaScript truthiness of optional fields.
 */
module Validators {
  import opened Wrappers
  import opened Text

  /**
   * `isMobilePhone()` with no locale: an optional '+' and ten to thirteen
   * digits. The library's per-locale pattern table is approximated here.
   */
  predicate IsMobilePhone(s: string) {
    var digits := if |s| > 0 && s[0] == '+' then s[1..] else s;
    10 <= |digits| <= 13 && AllDigits(digits)
  }

  /** A valid mobile number has no surrounding white space, so the trim setter leaves it alone. */
  lemma ValidPhoneUntrimmed(s: string)
    requires IsMobilePhone(s)
    ensures Trim(s) == s
  {
    assert !IsSpace(s[0]) && !IsSpace(s[|s| - 1]);
    TrimNoSpace(s);
  }

  /** `trim().notEmpty()`: something other than white space was sent. */
  predicate NotBlank(s: string) {
    Trim(s) != ""
  }

  /** An integer literal as `isInt()` accepts it (`^[-+]?[0-9]+$`), with the value `parseInt` reads. */
  function IntLiteral(s: string): (r: Option<int>)
    ensures r.Some? <==> (|s| > 0 && AllDigits(s)) || (|s| > 1 && (s[0] == '+' || s[0] == '-') && AllDigits(s[1..]))
    ensures AllDigits(s) && |s| > 0 ==> r == Some(DigitsValue(s))
    ensures |s| > 1 && s[0] == '-' && AllDigits(s[1..]) ==> r == Some(-(DigitsValue(s[1..]) as int))
    ensures |s| > 1 && s[0] == '+' && AllDigits(s[1..]) ==> r == Some(DigitsValue(s[1..]))
  {
    if |s| > 1 && (s[0] == '+' || s[0] == '-') && AllDigits(s[1..]) then
      var magnitude: int := DigitsValue(s[1..]);
      Some(if s[0] == '-' then -magnitude else magnitude)
    else if |s| > 0 && AllDigits(s) then Some(DigitsValue(s))
    else None
  }

  /** A present, non-empty string: what `if (field)` accepts for a text field. */
  predicate Truthy(v: Option<string>) {
    v.Some? && v.value != ""
  }
}
