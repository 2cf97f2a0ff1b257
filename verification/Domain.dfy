/** The booking domain (internal/appointments/domain): the status machine of an
    appointment, the reservation that holds it, and the rules for start times. */
module Domain {
  import opened Wrappers

  // Instants are nanoseconds since the Unix epoch, durations are nanoseconds.
  type Time = int
  type Duration = int
  type Uuid = nat

  const SECOND: Duration := 1_000_000_000
  const MINUTE: Duration := 60 * SECOND
  const HOUR: Duration := 60 * MINUTE

  // Go's zero time.Time, 1 January of year 1.
  const ZERO_TIME: Time := -62_135_596_800 * SECOND

  const DEFAULT_RESERVATION_TTL: Duration := 5 * MINUTE
  const DEFAULT_MIN_START_LEAD_TIME: Duration := HOUR
  const DEFAULT_MAX_START_LEAD_TIME: Duration := 30 * 24 * HOUR

  datatype Status = Pending | Confirmed | Cancelled

  datatype Details = Details(
    dealership: string, bay: string, technician: string, user: string,
    serviceType: string, vehicle: Uuid, start: Time, end: Time)

  datatype Reservation = Reservation(uuid: Uuid, appointment: Uuid, createdAt: Time, expiredAt: Time, key: string)
  {
    predicate IsExpired(now: Time) {
      !(now < expiredAt)
    }
  }

  datatype Field = DealerShipID | UserID | ServiceType | StartTime | TechnicianID | ServiceBayID | EstimatedDuration

  datatype Detail = Required(field: Field) | TooSoon(field: Field) | TooLate(field: Field) | NotPositive(field: Field)

  datatype Error =
    | InvalidAppointment(details: seq<Detail>)
    | InvalidReservation
    | ServiceTypeNotFound(serviceType: string)
    | NoAvailability
    | ReservationNotFound
    | AppointmentNotFound
    | ReservationMismatch
    | AppointmentNotPending
    | ReservationExpired(expiredAt: Time)
    | AlreadyCancelled
    | NotConfirmed
    | InThePast

  // ---- Status machine ----

  /** The error Appointment.Confirm answers with, checks in the order of the source. */
  function ConfirmError(uuid: Uuid, status: Status, reservation: Option<Reservation>, now: Time): Option<Error> {
    if reservation == None || reservation.value.appointment != uuid then Some(ReservationMismatch)
    else if status != Pending then Some(AppointmentNotPending)
    else if reservation.value.IsExpired(now) then Some(ReservationExpired(reservation.value.expiredAt))
    else None
  }

  /** The error Appointment.Cancel answers with. */
  function CancelError(status: Status, start: Time, now: Time): Option<Error> {
    if status == Cancelled then Some(AlreadyCancelled)
    else if status != Confirmed then Some(NotConfirmed)
    else if start < now then Some(InThePast)
    else None
  }

  /** Appointment.IsExpired: a pending appointment whose start has passed. */
  predicate IsNoShow(status: Status, start: Time, now: Time) {
    status == Pending && start < now
  }

  class Appointment {
    const uuid: Uuid
    const details: Details
    var status: Status

    constructor (uuid: Uuid, details: Details, status: Status)
      ensures this.uuid == uuid && this.details == details && this.status == status
    {
      this.uuid, this.details, this.status := uuid, details, status;
    }

    method IsCancelled() returns (cancelled: bool)
      ensures cancelled <==> status == Cancelled
    {
      cancelled := status == Cancelled;
    }

    method IsExpired(now: Time) returns (expired: bool)
      ensures expired <==> IsNoShow(status, details.start, now)
      ensures expired <==> status == Pending && details.start < now
    {
      expired := status == Pending && details.start < now;
    }

    method Confirm(reservation: Option<Reservation>, now: Time) returns (err: Option<Error>)
      modifies this`status
      ensures err == ConfirmError(uuid, old(status), reservation, now)
      ensures err == None <==> reservation.Some? && reservation.value.appointment == uuid
                               && old(status) == Pending && now < reservation.value.expiredAt
      ensures err == Some(ReservationMismatch) <==> reservation == None || reservation.value.appointment != uuid
      ensures status == if err == None then Confirmed else old(status)
    {
      if reservation == None || reservation.value.appointment != uuid {
        return Some(ReservationMismatch);
      }
      if status != Pending {
        return Some(AppointmentNotPending);
      }
      if reservation.value.IsExpired(now) {
        return Some(ReservationExpired(reservation.value.expiredAt));
      }
      status := Confirmed;
      err := None;
    }

    method Cancel(now: Time) returns (err: Option<Error>)
      modifies this`status
      ensures err == CancelError(old(status), details.start, now)
      ensures err == None <==> old(status) == Confirmed && now <= details.start
      ensures err == Some(AlreadyCancelled) <==> old(status) == Cancelled
      ensures err == Some(NotConfirmed) <==> old(status) == Pending
      ensures status == if err == None then Cancelled else old(status)
    {
      var cancelled := IsCancelled();
      if cancelled {
        return Some(AlreadyCancelled);
      }
      if status != Confirmed {
        return Some(NotConfirmed);
      }
      if details.start < now {
        return Some(InThePast);
      }
      status := Cancelled;
      err := None;
    }
  }

  // ---- Booking factory ----

  datatype FactoryConfig = FactoryConfig(minStartLeadTime: Duration, maxStartLeadTime: Duration,
      reservationTTL: Duration)

  /** NewBookingFactory: a setting that is not positive is replaced by its default. */
  function NewBookingFactory(config: FactoryConfig): (r: FactoryConfig)
    ensures r.minStartLeadTime > 0 && r.maxStartLeadTime > 0 && r.reservationTTL > 0
    ensures config.minStartLeadTime > 0 ==> r.minStartLeadTime == config.minStartLeadTime
    ensures config.maxStartLeadTime > 0 ==> r.maxStartLeadTime == config.maxStartLeadTime
    ensures config.reservationTTL > 0 ==> r.reservationTTL == config.reservationTTL
  {
    FactoryConfig(
      if config.minStartLeadTime <= 0 then DEFAULT_MIN_START_LEAD_TIME else config.minStartLeadTime,
      if config.maxStartLeadTime <= 0 then DEFAULT_MAX_START_LEAD_TIME else config.maxStartLeadTime,
      if config.reservationTTL <= 0 then DEFAULT_RESERVATION_TTL else config.reservationTTL)
  }

  function StartTimeErrorDetail(factory: FactoryConfig, start: Time, now: Time): Option<Detail> {
    if start == ZERO_TIME then Some(Required(StartTime))
    else if start < now + factory.minStartLeadTime then Some(TooSoon(StartTime))
    else if start > now + factory.maxStartLeadTime then Some(TooLate(StartTime))
    else None
  }

  datatype AppointmentData = AppointmentData(
    dealership: string, user: string, serviceType: string, vehicle: Uuid, start: Time)

  /** The details NewAppointmentBuilder collects, in the order it appends them. */
  function BuilderErrors(factory: FactoryConfig, data: AppointmentData, now: Time): seq<Detail> {
    (if data.dealership == "" then [Required(DealerShipID)] else []) +
    (if data.user == "" then [Required(UserID)] else []) +
    (if data.serviceType == "" then [Required(ServiceType)] else []) +
    match StartTimeErrorDetail(factory, data.start, now) case None => [] case Some(d) => [d]
  }

  function BuildErrors(technician: string, bay: string, duration: Duration): seq<Detail> {
    (if technician == "" then [Required(TechnicianID)] else []) +
    (if bay == "" then [Required(ServiceBayID)] else []) +
    (if duration <= 0 then [NotPositive(EstimatedDuration)] else [])
  }

  function BuiltDetails(data: AppointmentData, duration: Duration, technician: string, bay: string): Details {
    Details(data.dealership, bay, technician, data.user, data.serviceType, data.vehicle, data.start,
        data.start + duration)
  }

  /** What the builder answers: a detail for each field that is missing, in the order of the
      fields, then what is wrong with the start; nothing else. */
  lemma BuilderErrorsTell(config: FactoryConfig, data: AppointmentData, now: Time)
    ensures var factory := NewBookingFactory(config);
            var errors := BuilderErrors(factory, data, now);
            && (Required(DealerShipID) in errors <==> data.dealership == "")
            && (Required(UserID) in errors <==> data.user == "")
            && (Required(ServiceType) in errors <==> data.serviceType == "")
            && (forall d: Detail | d.field == StartTime ::
                  d in errors <==> StartTimeErrorDetail(factory, data.start, now) == Some(d))
            && (forall d | d in errors ::
                  d.field == StartTime || d in [Required(DealerShipID), Required(UserID), Required(ServiceType)])
            && InFieldOrder(errors)
  {
    var factory := NewBookingFactory(config);
    StartTimeDetailIsOfStartTime(factory, data.start, now);
    var detail := StartTimeErrorDetail(factory, data.start, now);
    hide StartTimeErrorDetail, NewBookingFactory, InFieldOrder;
    var a := if data.dealership == "" then [Required(DealerShipID)] else [];
    var b := if data.user == "" then [Required(UserID)] else [];
    var c := if data.serviceType == "" then [Required(ServiceType)] else [];
    var d := match detail case None => [] case Some(x) => [x];
    assert BuilderErrors(factory, data, now) == a + b + c + d;
    hide BuilderErrors;
    FourDetails(a, b, c, d);
  }

  lemma StartTimeDetailIsOfStartTime(factory: FactoryConfig, start: Time, now: Time)
    ensures StartTimeErrorDetail(factory, start, now).Some? ==>
              StartTimeErrorDetail(factory, start, now).value.field == StartTime
  {
  }

  /** Four lists of at most one detail, of four fields in order, joined. */
  lemma FourDetails(a: seq<Detail>, b: seq<Detail>, c: seq<Detail>, d: seq<Detail>)
    requires a == [] || a == [Required(DealerShipID)]
    requires b == [] || b == [Required(UserID)]
    requires c == [] || c == [Required(ServiceType)]
    requires d == [] || (|d| == 1 && d[0].field == StartTime)
    ensures InFieldOrder(a + b + c + d)
    ensures forall x :: x in a + b + c + d <==> x in a || x in b || x in c || x in d
  {
  }

  /** Each field at most once, in the order in which the source checks them. */
  predicate InFieldOrder(errors: seq<Detail>) {
    forall m, n | 0 <= m < n < |errors| :: FieldRank(errors[m].field) < FieldRank(errors[n].field)
  }

  /** The order in which the source checks its fields. */
  function FieldRank(f: Field): nat {
    match f
    case DealerShipID => 0
    case UserID => 1
    case ServiceType => 2
    case StartTime => 3
    case TechnicianID => 4
    case ServiceBayID => 5
    case EstimatedDuration => 6
  }

  lemma BuildErrorsTell(technician: string, bay: string, duration: Duration)
    ensures var errors := BuildErrors(technician, bay, duration);
            && (Required(TechnicianID) in errors <==> technician == "")
            && (Required(ServiceBayID) in errors <==> bay == "")
            && (NotPositive(EstimatedDuration) in errors <==> duration <= 0)
            && (forall d | d in errors ::
                  d in [Required(TechnicianID), Required(ServiceBayID), NotPositive(EstimatedDuration)])
            && InFieldOrder(errors)
  {
  }

  // The characters Go's unicode.IsSpace accepts.
  predicate IsSpace(c: char) {
    c in "\t\n\r \U{000B}\U{000C}\U{0085}\U{00A0}\U{1680}\U{2028}\U{2029}\U{202F}\U{205F}\U{3000}"
    || '\U{2000}' <= c <= '\U{200A}'
  }

  /** A key of spaces only. */
  predicate IsBlank(key: string) {
    forall i | 0 <= i < |key| :: IsSpace(key[i])
  }

  /** strings.TrimSpace */
  function TrimSpace(s: string): string {
    if s != "" && IsSpace(s[0]) then TrimSpace(s[1..])
    else if s != "" && IsSpace(s[|s| - 1]) then TrimSpace(s[..|s| - 1])
    else s
  }

  /** A key is blank exactly when trimming leaves nothing of it; the space characters of Unicode
      are these, by their code points. */
  lemma {:induction false} BlankIsTrimmedAway(key: string)
    ensures IsBlank(key) <==> TrimSpace(key) == ""
    ensures forall c :: IsSpace(c) <==>
              9 <= c as int <= 13 || 0x2000 <= c as int <= 0x200A
              || c as int in {0x20, 0x85, 0xA0, 0x1680, 0x2028, 0x2029, 0x202F, 0x205F, 0x3000}
  {
    SpaceCodePoints();
    hide IsSpace;
    if key != "" && IsSpace(key[0]) {
      BlankIsTrimmedAway(key[1..]);
      assert IsBlank(key) <==> IsBlank(key[1..]) by { BlankParts(key); }
    } else if key != "" && IsSpace(key[|key| - 1]) {
      BlankIsTrimmedAway(key[..|key| - 1]);
      assert IsBlank(key) <==> IsBlank(key[..|key| - 1]) by { BlankParts(key); }
    } else if key != "" {
      assert !IsSpace(key[0]);
    }
  }

  lemma SpaceCodePoints()
    ensures forall c :: IsSpace(c) <==>
              9 <= c as int <= 13 || 0x2000 <= c as int <= 0x200A
              || c as int in {0x20, 0x85, 0xA0, 0x1680, 0x2028, 0x2029, 0x202F, 0x205F, 0x3000}
  {
  }

  lemma BlankParts(key: string)
    requires key != ""
    ensures IsBlank(key) <==> IsSpace(key[0]) && IsBlank(key[1..])
    ensures IsBlank(key) <==> IsBlank(key[..|key| - 1]) && IsSpace(key[|key| - 1])
  {
    hide IsSpace;
    if IsSpace(key[0]) && IsBlank(key[1..]) {
      forall i | 0 <= i < |key| ensures IsSpace(key[i]) {
        if i > 0 { assert key[i] == key[1..][i - 1]; }
      }
    }
    if IsBlank(key[..|key| - 1]) && IsSpace(key[|key| - 1]) {
      forall i | 0 <= i < |key| ensures IsSpace(key[i]) {
        if i < |key| - 1 { assert key[i] == key[..|key| - 1][i]; }
      }
    }
  }

  /** BookingFactory.CreateReservation, given the clock and a fresh UUID. */
  function CreateReservation(
    factory: FactoryConfig, uuid: Uuid, appointment: Uuid, key: string, now: Time): Result<Reservation, Error>
  {
    if IsBlank(key) then Err(InvalidReservation)
    else Ok(Reservation(uuid, appointment, now, now + factory.reservationTTL, key))
  }

  /** A setting that is positive is in force, else its default: a start is accepted from the
      minimum to the maximum lead time ahead, an hour and thirty days by default, and too soon
      or too late otherwise; and a hold is live for the TTL, five minutes by default, from the
      instant it is made. Durations are nanoseconds. */
  lemma SettingsInForce(
    config: FactoryConfig, start: Time, now: Time, uuid: Uuid, appointment: Uuid, key: string, later: Time)
    ensures var factory := NewBookingFactory(config);
            var soonest := now + InForce(config.minStartLeadTime, 3_600_000_000_000);
            var latest := now + InForce(config.maxStartLeadTime, 2_592_000_000_000_000);
            var ttl := InForce(config.reservationTTL, 300_000_000_000);
            && (StartTimeErrorDetail(factory, start, now) == None <==> start != ZERO_TIME && soonest <= start <= latest)
            && (StartTimeErrorDetail(factory, start, now) == Some(Required(StartTime)) <==> start == ZERO_TIME)
            && (StartTimeErrorDetail(factory, start, now) == Some(TooSoon(StartTime)) <==>
                start != ZERO_TIME && start < soonest)
            && (StartTimeErrorDetail(factory, start, now) == Some(TooLate(StartTime)) <==>
                start != ZERO_TIME && soonest <= start && latest < start)
            && match CreateReservation(factory, uuid, appointment, key, now)
               case Err(e) => e == InvalidReservation && TrimSpace(key) == ""
               case Ok(hold) =>
                 && TrimSpace(key) != "" && hold.uuid == uuid && hold.appointment == appointment && hold.key == key
                 && hold.createdAt == now && hold.expiredAt == now + ttl
                 && (!hold.IsExpired(later) <==> later < now + ttl)
  {
    hide IsBlank, TrimSpace;
    BlankIsTrimmedAway(key);
  }

  function InForce(setting: Duration, default: Duration): Duration {
    if setting > 0 then setting else default
  }

  /** A start inside the lead times in force. */
  predicate StartsInTime(config: FactoryConfig, start: Time, now: Time) {
    && start != ZERO_TIME
    && now + InForce(config.minStartLeadTime, 3_600_000_000_000) <= start
    && start <= now + InForce(config.maxStartLeadTime, 2_592_000_000_000_000)
  }

  /** The builder shared by every attempt of one request. */
  class AppointmentBuilder {
    const data: AppointmentData
    var estimatedDuration: Duration
    var technicianID: string
    var serviceBayID: string

    constructor (data: AppointmentData)
      ensures this.data == data && estimatedDuration == 0 && technicianID == "" && serviceBayID == ""
    {
      this.data, estimatedDuration, technicianID, serviceBayID := data, 0, "", "";
    }

    method WithDuration(duration: Duration)
      modifies this`estimatedDuration
      ensures estimatedDuration == duration
    {
      estimatedDuration := duration;
    }

    method WithTechnicianID(technician: string)
      modifies this`technicianID
      ensures technicianID == technician
    {
      technicianID := technician;
    }

    method WithServiceBayID(bay: string)
      modifies this`serviceBayID
      ensures serviceBayID == bay
    {
      serviceBayID := bay;
    }

    method Build(freshUuid: Uuid) returns (r: Result<Appointment, Error>)
      ensures r.Err? <==> BuildErrors(technicianID, serviceBayID, estimatedDuration) != []
      ensures r.Err? ==> r.error == InvalidAppointment(BuildErrors(technicianID, serviceBayID, estimatedDuration))
      ensures r.Ok? ==> fresh(r.value) && r.value.uuid == freshUuid && r.value.status == Pending
      ensures r.Ok? ==> r.value.details == BuiltDetails(data, estimatedDuration, technicianID, serviceBayID)
    {
      var errDetails: seq<Detail> := [];
      if technicianID == "" {
        errDetails := errDetails + [Required(TechnicianID)];
      }
      if serviceBayID == "" {
        errDetails := errDetails + [Required(ServiceBayID)];
      }
      if estimatedDuration <= 0 {
        errDetails := errDetails + [NotPositive(EstimatedDuration)];
      }
      assert errDetails == BuildErrors(technicianID, serviceBayID, estimatedDuration);
      if |errDetails| > 0 {
        return Err(InvalidAppointment(errDetails));
      }
      var appointment := new Appointment(
        freshUuid,
        Details(data.dealership, serviceBayID, technicianID, data.user, data.serviceType, data.vehicle,
                data.start, data.start + estimatedDuration),
        Pending);
      r := Ok(appointment);
    }
  }

  method NewAppointmentBuilder(factory: FactoryConfig, data: AppointmentData, now: Time)
    returns (r: Result<AppointmentBuilder, Error>)
    ensures r.Err? <==> BuilderErrors(factory, data, now) != []
    ensures r.Err? ==> r.error == InvalidAppointment(BuilderErrors(factory, data, now))
    ensures r.Ok? ==> fresh(r.value) && r.value.data == data && r.value.estimatedDuration == 0
    ensures r.Ok? ==> r.value.technicianID == r.value.serviceBayID == ""
  {
    var errDetails: seq<Detail> := [];
    if data.dealership == "" {
      errDetails := errDetails + [Required(DealerShipID)];
    }
    if data.user == "" {
      errDetails := errDetails + [Required(UserID)];
    }
    if data.serviceType == "" {
      errDetails := errDetails + [Required(ServiceType)];
    }
    var detail := StartTimeErrorDetail(factory, data.start, now);
    if detail != None {
      errDetails := errDetails + [detail.value];
    }
    assert errDetails == BuilderErrors(factory, data, now);
    if |errDetails| > 0 {
      return Err(InvalidAppointment(errDetails));
    }
    var builder := new AppointmentBuilder(data);
    r := Ok(builder);
  }
}
