/**
 * What a successful handler sends out, in the order it sends it: socket
 * events to named rooms, text messages, and e-mails. Delivery is not
 * modelled; a handler's outbox is the list of its send calls.
 */
module Outbox {
  import opened Text

  /** A socket.io room: the supervisors' room, one per driver, one per customer phone. */
  datatype Room = Supervisors | DriverRoom(driverId: string) | CustomerRoom(phone: string)

  function RoomName(r: Room): string {
    match r
    case Supervisors => "supervisors"
    case DriverRoom(id) => "driver-" + id
    case CustomerRoom(phone) => "customer-" + phone
  }

  /** Different rooms never share a name, so an event reaches only its intended room. */
  lemma RoomNameInjective(a: Room, b: Room)
    requires RoomName(a) == RoomName(b)
    ensures a == b
  {
    var n := RoomName(a);
    match a
    case Supervisors =>
      assert n[0] == 's';
    case DriverRoom(x) =>
      assert n[0] == 'd';
      assert b.DriverRoom?;
      assert x == n[7..] == b.driverId;
    case CustomerRoom(x) =>
      assert n[0] == 'c';
      assert b.CustomerRoom?;
      assert x == n[9..] == b.phone;
  }

  /** Socket events with the payload fields the model keeps. */
  datatype Event =
    | NewBooking(bookingId: string)
    | RecallRequest(bookingId: string)
    | CarInTransit(bookingId: string, minutes: int)
    | CarArrived(bookingId: string, otp: string)
    | BookingCompleted(bookingId: string)

  function EventName(e: Event): string {
    match e
    case NewBooking(_) => "new-booking"
    case RecallRequest(_) => "recall-request"
    case CarInTransit(_, _) => "car-in-transit"
    case CarArrived(_, _) => "car-arrived"
    case BookingCompleted(_) => "booking-completed"
  }

  /** Which mail template is sent; the reference is the booking id, or the code for a login mail. */
  datatype EmailKind = ConfirmationEmail | RecallEmail | ArrivalEmail | OtpEmail

  datatype Message =
    | Emit(room: Room, event: Event)
    | TextMessage(to: string, body: string)
    | Email(to: string, kind: EmailKind, reference: string)

  /** The socket events of an outbox, in order. */
  function Emits(out: seq<Message>): (r: seq<(Room, Event)>)
    ensures |r| <= |out|
  {
    if |out| == 0 then []
    else (if out[0].Emit? then [(out[0].room, out[0].event)] else []) + Emits(out[1..])
  }
}
