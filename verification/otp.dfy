/**
 * The six-digit one-time code both routers generate
 * (`Math.floor(100000 + Math.random() * 900000).toString()`), with the
 * random draw passed in as `draw = floor(Math.random() * 900000)`.
 */
module Otp {
  import opened Text

  /** Ten minutes in milliseconds: how long a generated code stays valid. */
  const LifetimeMs: int := 10 * 60 * 1000

  function Generate(draw: nat): (otp: string)
    requires draw < 900000
    ensures |otp| == 6 && AllDigits(otp) && otp[0] != '0'
    ensures DigitsValue(otp) == 100000 + draw
  {
    assert Pow10(5) == 100000 && Pow10(6) == 1000000;
    DecimalStringLength(100000 + draw, 6);
    DecimalStringValue(100000 + draw);
    DecimalString(100000 + draw)
  }

  /** Every generated code lies in [100000, 999999], and distinct draws give distinct codes. */
  lemma GenerateInjective(d1: nat, d2: nat)
    requires d1 < 900000 && d2 < 900000
    ensures 100000 <= DigitsValue(Generate(d1)) <= 999999
    ensures Generate(d1) == Generate(d2) <==> d1 == d2
  {
  }
}
