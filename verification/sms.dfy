/**
 * The pure part of the SMS service: the country-code prefix applied to a
 * number before it is handed to the gateway, and the four message texts.
 * The gateway calls themselves are not modelled.
 */
module Sms {
  import opened Text

  /** `to.startsWith('91') ? to : '91' + to`, as both send paths compute it. */
  function FormatPhone(to: string): (r: string)
    ensures StartsWith(r, "91")
    ensures StartsWith(to, "91") ==> r == to
    ensures !StartsWith(to, "91") ==> r == "91" + to && |r| == |to| + 2
  {
    if StartsWith(to, "91") then to else "91" + to
  }

  /** Formatting an already formatted number changes nothing. */
  lemma FormatPhoneIdempotent(to: string)
    ensures FormatPhone(FormatPhone(to)) == FormatPhone(to)
  {
  }

  /** A ten-digit local number that happens to begin with 91 is sent without a country code. */
  lemma LocalNumberStartingWith91Unchanged()
    ensures FormatPhone("9123456789") == "9123456789"
  {
    assert StartsWith("9123456789", "91");
  }

  function OtpMessage(otp: string): (m: string)
    ensures Contains(m, otp)
  {
    var pre := "Your growmore verification OTP is: ";
    var m := pre + otp + ". Valid for 10 minutes. Do not share this code.";
    assert OccursAt(m, otp, |pre|);
    m
  }

  function ConfirmationMessage(bookingId: string, link: string): (m: string)
    ensures Contains(m, bookingId) && Contains(m, link)
  {
    var pre := "growmore: Your booking ";
    var mid := " is confirmed! Track and recall your car: ";
    var m := pre + bookingId + mid + link;
    assert OccursAt(m, bookingId, |pre|);
    assert OccursAt(m, link, |pre| + |bookingId| + |mid|);
    m
  }

  function RecallMessage(bookingId: string, minutes: string): (m: string)
    ensures Contains(m, bookingId) && Contains(m, minutes)
  {
    var pre := "growmore: Your car (";
    var mid := ") will arrive in ";
    var m := pre + bookingId + mid + minutes + " minutes.";
    assert OccursAt(m, bookingId, |pre|);
    assert OccursAt(m, minutes, |pre| + |bookingId| + |mid|);
    m
  }

  /** The arrival text carries the code but not the booking id it is called with. */
  function ArrivalMessage(otp: string): (m: string)
    ensures Contains(m, otp)
  {
    var pre := "growmore: Your car has arrived! Your verification OTP: ";
    var m := pre + otp;
    assert OccursAt(m, otp, |pre|);
    m
  }
}
