/** What the application's errors say (internal/common/errors.go and the places that make
    them). The texts matter because the retry loop looks for a phrase in them. */
module Messages {
  import opened Domain

  predicate Lacks(s: string, c: char) {
    forall i | 0 <= i < |s| :: s[i] != c
  }

  /** A text without the letter that sets "serialize" apart. */
  type Plain = s: string | Lacks(s, 'z') witness ""

  function Plus(s: Plain, t: Plain): (r: Plain)
    ensures r == s + t
  {
    s + t
  }

  // ---- Times ----

  const DIGITS: Plain := "0123456789"

  /** n in decimal, padded with zeros to a width. */
  function Decimal(n: nat, width: nat): Plain {
    Plus(if n < 10 && width <= 1 then "" else Decimal(n / 10, if width == 0 then 0 else width - 1),
         [DIGITS[n % 10]])
  }

  function Signed(n: int, width: nat): Plain {
    if n < 0 then Plus("-", Decimal(-n, width)) else Decimal(n, width)
  }

  /** Year, month and day, in the Gregorian calendar, of a day counted from 1 January 1970. */
  function Date(day: int): (int, int, int) {
    var z := day + 719_468;
    var era, doe := z / 146_097, z % 146_097;
    var yoe := (doe - doe / 1460 + doe / 36_524 - doe / 146_096) / 365;
    var doy := doe - (365 * yoe + yoe / 4 - yoe / 100);
    var mp := (5 * doy + 2) / 153;
    var month := if mp < 10 then mp + 3 else mp - 9;
    (yoe + era * 400 + (if month <= 2 then 1 else 0), month, doy - (153 * mp + 2) / 5 + 1)
  }

  /** time.RFC3339 of an instant, in UTC. */
  function RFC3339(t: Time): Plain {
    var seconds := t / SECOND;
    var (year, month, dayOfMonth) := Date(seconds / 86_400);
    var s := seconds % 86_400;
    Plus(Plus(Plus(Signed(year, 4), Plus("-", Signed(month, 2))), Plus("-", Signed(dayOfMonth, 2))),
         Plus(Plus(Plus("T", Decimal(s / 3600, 2)), Plus(":", Decimal(s / 60 % 60, 2))),
              Plus(Plus(":", Decimal(s % 60, 2)), "Z")))
  }

  // ---- Invalid fields ----

  function FieldName(f: Field): Plain {
    match f
    case DealerShipID => "dealerShipID"
    case UserID => "userID"
    case ServiceType => "serviceType"
    case StartTime => "startTime"
    case TechnicianID => "technicianID"
    case ServiceBayID => "serviceBayID"
    case EstimatedDuration => "estimatedDuration"
  }

  function DetailSlug(d: Detail): Plain {
    if d.Required? then "required" else "out-of-range"
  }

  function DetailMessage(d: Detail): Plain {
    match d
    case Required(_) => " is required"
    case TooSoon(_) => Plus(" must satisfy ", "minimum lead time")
    case TooLate(_) => Plus(" must be within ", "the booking window")
    case NotPositive(_) => Plus(" must be ", "greater than 0")
  }

  function DetailText(d: Detail): Plain {
    var name := FieldName(d.field);
    Plus(Plus(Plus("{Appointment ", name), Plus(" ", DetailSlug(d))),
        Plus(Plus(" ", name), Plus(DetailMessage(d), "}")))
  }

  /** fmt's %v of a list of details, without its brackets. */
  function DetailsText(details: seq<Detail>): Plain {
    if details == [] then ""
    else if |details| == 1 then DetailText(details[0])
    else Plus(DetailText(details[0]), Plus(" ", DetailsText(details[1..])))
  }

  // ---- Refusals ----

  const APPOINTMENT: Plain := "appointment"
  const RESERVATION: Plain := "reservation"
  const NO_TECHNICIAN_OR_BAY: Plain := Plus("no technician or ", "service bay is ")
  const NOT_THIS_TIME: Plain := Plus("available for this time, ", "please choose another time")
  const NOT_OF_THIS_APPOINTMENT: Plain := Plus(" does not belong ", "to this appointment")
  const ONLY_CONFIRMED: Plain := Plus("only confirmed ", "appointments can be cancelled")

  function PublicError(e: Error): Plain
    requires !e.ServiceTypeNotFound?
  {
    match e
    case InvalidAppointment(_) => Plus("invalid ", Plus(APPOINTMENT, " input"))
    case InvalidReservation => "idempotencyKey is required"
    case NoAvailability => Plus(NO_TECHNICIAN_OR_BAY, NOT_THIS_TIME)
    case ReservationNotFound => Plus(RESERVATION, " not found")
    case AppointmentNotFound => Plus(APPOINTMENT, " not found")
    case ReservationMismatch => Plus(RESERVATION, NOT_OF_THIS_APPOINTMENT)
    case AppointmentNotPending => Plus(APPOINTMENT, Plus(" is not ", "pending confirmation"))
    case ReservationExpired(at) => Plus(Plus(RESERVATION, " expired at "), RFC3339(at))
    case AlreadyCancelled => Plus(APPOINTMENT, " is already cancelled")
    case NotConfirmed => ONLY_CONFIRMED
    case InThePast => Plus(APPOINTMENT, " is in the past")
  }

  function Slug(e: Error): Plain
    requires !e.ServiceTypeNotFound?
  {
    match e
    case InvalidAppointment(_) => Plus("invalid-", APPOINTMENT)
    case InvalidReservation => Plus("invalid-", RESERVATION)
    case NoAvailability => "no-availability"
    case ReservationNotFound => Plus(RESERVATION, "-not-found")
    case AppointmentNotFound => Plus(APPOINTMENT, "-not-found")
    case ReservationMismatch => Plus(RESERVATION, "-mismatch")
    case AppointmentNotPending => Plus(APPOINTMENT, "-not-pending")
    case ReservationExpired(_) => Plus(RESERVATION, "-expired")
    case AlreadyCancelled => Plus(APPOINTMENT, "-already-cancelled")
    case NotConfirmed => Plus(APPOINTMENT, "-not-confirmed")
    case InThePast => Plus(APPOINTMENT, "-in-the-past")
  }

  /** The driver's error that a failed lookup carries, and the invalid fields. */
  function Particulars(e: Error): Plain {
    match e
    case ReservationNotFound => ", InternalError: no rows in result set"
    case AppointmentNotFound => ", InternalError: no rows in result set"
    case InvalidAppointment(details) =>
      if details == [] then "" else Plus(", DocumentData: [", Plus(DetailsText(details), "]"))
    case _ => ""
  }

  // ---- The service type a caller asked for ----

  const HEX := "0123456789abcdef"

  /** The last digits of n in lower-case hex. */
  function Hex(n: nat, width: nat): (r: string)
    ensures |r| == width && forall i | 0 <= i < width :: r[i] in HEX
  {
    if width == 0 then "" else Hex(n / 16, width - 1) + [HEX[n % 16]]
  }

  /** fmt's %q of one character. Go's table says which characters beyond ASCII are printable. */
  function Escape(c: char, printable: char -> bool): string {
    if c == '\"' then "\\\""
    else if c == '\\' then "\\\\"
    else if c == '\U{0007}' then "\\a"
    else if c == '\U{0008}' then "\\b"
    else if c == '\U{000C}' then "\\f"
    else if c == '\n' then "\\n"
    else if c == '\r' then "\\r"
    else if c == '\t' then "\\t"
    else if c == '\U{000B}' then "\\v"
    else if c < ' ' || c == '\U{007F}' then "\\x" + Hex(c as int, 2)
    else if c <= '~' || printable(c) then [c]
    else if c < '\U{10000}' then "\\u" + Hex(c as int, 4)
    else "\\U" + Hex(c as int, 8)
  }

  /** fmt's %q, without the quotation marks. */
  function Quoted(s: string, printable: char -> bool): string {
    if s == "" then "" else Escape(s[0], printable) + Quoted(s[1..], printable)
  }

  const UNKNOWN_SERVICE_TYPE: Plain := "unknown service type "
  const SERVICE_TYPE_SLUG: Plain := ", Slug: service-type-not-found"

  function UnknownServiceType(serviceType: string, printable: char -> bool): string {
    UNKNOWN_SERVICE_TYPE + ['\"'] + (Quoted(serviceType, printable) + ['\"'] + SERVICE_TYPE_SLUG)
  }

  /** common.Error.Error() of an error that quotes no service type. */
  function Describe(e: Error): string
    requires !e.ServiceTypeNotFound?
  {
    PublicError(e) + ", Slug: " + Slug(e) + Particulars(e)
  }
}
