/** The three tables (internal/appointments/adapters/db/dbmodels and the migrations)
    and the queries and writes the repository sends to them. */
module Tables {
  import opened Wrappers
  import opened Domain

  datatype VehicleSpec = VehicleSpec(makeCode: string, modelName: string, modelYear: int, licensePlate: string)

  datatype VehicleRow = VehicleRow(user: string, spec: VehicleSpec)

  datatype AppointmentRow = AppointmentRow(details: Details, status: Status)

  datatype Store = Store(
    vehicles: map<Uuid, VehicleRow>,
    appointments: map<Uuid, AppointmentRow>,
    reservations: map<Uuid, Reservation>)

  const EMPTY: Store := Store(map[], map[], map[])

  // ---- Reads ----

  predicate Overlaps(start0: Time, end0: Time, start1: Time, end1: Time) {
    start0 < end1 && end0 > start1
  }

  predicate Covers(start: Time, end: Time, instant: Time) {
    start <= instant < end
  }

  /** Half-open windows that are not empty overlap exactly when they share an instant, so a
      booking may start the moment another ends. */
  lemma OverlapIsASharedInstant(start0: Time, end0: Time, start1: Time, end1: Time)
    requires start0 < end0 && start1 < end1
    ensures Overlaps(start0, end0, start1, end1) <==>
            exists t: Time :: Covers(start0, end0, t) && Covers(start1, end1, t)
  {
    if Overlaps(start0, end0, start1, end1) {
      var t := if start0 < start1 then start1 else start0;
      assert Covers(start0, end0, t) && Covers(start1, end1, t);
    }
  }

  /** The parameters of the busy query; now is the transaction's now(). */
  datatype BusyQuery = BusyQuery(dealership: string, start: Time, end: Time, now: Time)

  predicate InWindow(q: BusyQuery, d: Details) {
    d.dealership == q.dealership && Overlaps(d.start, d.end, q.start, q.end)
  }

  /** The join with the reservation table: some reservation of a is unexpired at now. */
  predicate HasLiveHold(store: Store, a: Uuid, now: Time) {
    exists r | r in store.reservations :: store.reservations[r].appointment == a
        && store.reservations[r].expiredAt > now
  }

  /** The liveness half of the busy query's WHERE clause. */
  predicate Claimed(store: Store, a: Uuid, now: Time) {
    a in store.appointments &&
    (store.appointments[a].status == Confirmed ||
     (store.appointments[a].status == Pending && HasLiveHold(store, a, now)))
  }

  predicate Busy(store: Store, q: BusyQuery, a: Uuid) {
    a in store.appointments && InWindow(q, store.appointments[a].details) && Claimed(store, a, q.now)
  }

  datatype BusyRow = BusyRow(bay: string, technician: string)

  /** SELECT DISTINCT service_bay_id, technician_id ... */
  function BusyRows(store: Store, q: BusyQuery): set<BusyRow> {
    set a | a in store.appointments && Busy(store, q, a) ::
      BusyRow(store.appointments[a].details.bay, store.appointments[a].details.technician)
  }

  function BusyTechnicians(store: Store, q: BusyQuery): set<string> {
    set row | row in BusyRows(store, q) :: row.technician
  }

  function BusyBays(store: Store, q: BusyQuery): set<string> {
    set row | row in BusyRows(store, q) :: row.bay
  }

  /** Appointment a claims a technician and a bay of the dealership at some instant of the window:
      it is confirmed, or pending with a reservation that has not expired at now. */
  ghost predicate ClaimsInWindow(store: Store, a: Uuid, dealership: string, start: Time, end: Time, now: Time) {
    a in store.appointments &&
    var row := store.appointments[a];
    && row.details.dealership == dealership
    && (exists t: Time :: Covers(row.details.start, row.details.end, t) && Covers(start, end, t))
    && (row.status == Confirmed ||
        (row.status == Pending &&
         exists r | r in store.reservations :: store.reservations[r].appointment == a
             && now < store.reservations[r].expiredAt))
  }

  /** Over windows that are not empty, busy are exactly the technicians and the bays of such
      claims: no other dealership's, none back to back, none expired or cancelled. */
  lemma BusyAreTheClaims(
    store: Store, dealership: string, start: Time, end: Time, now: Time, technician: string, bay: string)
    requires start < end
    requires forall a | a in store.appointments ::
               store.appointments[a].details.start < store.appointments[a].details.end
    ensures technician in BusyTechnicians(store, BusyQuery(dealership, start, end, now)) <==>
            exists a | a in store.appointments ::
              store.appointments[a].details.technician == technician
                  && ClaimsInWindow(store, a, dealership, start, end, now)
    ensures bay in BusyBays(store, BusyQuery(dealership, start, end, now)) <==>
            exists a | a in store.appointments ::
              store.appointments[a].details.bay == bay && ClaimsInWindow(store, a, dealership, start, end, now)
  {
    var q := BusyQuery(dealership, start, end, now);
    forall a | a in store.appointments
           ensures Busy(store, q, a) <==> ClaimsInWindow(store, a, dealership, start, end, now) {
      OverlapIsASharedInstant(store.appointments[a].details.start, store.appointments[a].details.end, start, end);
    }
    hide Busy, ClaimsInWindow;
    forall a | a in store.appointments && Busy(store, q, a)
      ensures BusyRow(store.appointments[a].details.bay, store.appointments[a].details.technician) in BusyRows(store, q)
    {
    }
    if technician in BusyTechnicians(store, q) {
      var row :| row in BusyRows(store, q) && row.technician == technician;
    }
    if a :| a in store.appointments && store.appointments[a].details.technician == technician && Busy(store, q, a) {
      assert BusyRow(store.appointments[a].details.bay, technician) in BusyRows(store, q);
    }
    if bay in BusyBays(store, q) {
      var row :| row in BusyRows(store, q) && row.bay == bay;
    }
    if a :| a in store.appointments && store.appointments[a].details.bay == bay && Busy(store, q, a) {
      assert BusyRow(bay, store.appointments[a].details.technician) in BusyRows(store, q);
    }
  }

  // ---- The busy query as the server runs it ----

  datatype JoinedRow = JoinedRow(appointment: Uuid, reservation: Option<Uuid>)

  /** appointment LEFT JOIN reservation: an appointment once for each of its reservations, or
      once with none. */
  function LeftJoin(store: Store): set<JoinedRow> {
    (set r | r in store.reservations && store.reservations[r].appointment in store.appointments ::
       JoinedRow(store.reservations[r].appointment, Some(r))) +
    (set a | a in store.appointments && forall r | r in store.reservations :: store.reservations[r].appointment != a ::
       JoinedRow(a, None))
  }

  /** The WHERE clause; a comparison with the NULL of a missing reservation does not hold. */
  predicate Where(store: Store, q: BusyQuery, row: JoinedRow)
    requires row in LeftJoin(store)
  {
    var a := store.appointments[row.appointment];
    && a.details.dealership == q.dealership && a.details.start < q.end && a.details.end > q.start
    && (a.status == Confirmed ||
        (a.status == Pending && row.reservation.Some? && store.reservations[row.reservation.value].expiredAt > q.now))
  }

  function SelectDistinct(store: Store, q: BusyQuery): set<BusyRow> {
    set row | row in LeftJoin(store) && Where(store, q, row) ::
      BusyRow(store.appointments[row.appointment].details.bay, store.appointments[row.appointment].details.technician)
  }

  lemma JoinedRowOf(store: Store, q: BusyQuery, a: Uuid) returns (row: JoinedRow)
    requires a in store.appointments && Busy(store, q, a)
    ensures row in LeftJoin(store) && row.appointment == a && Where(store, q, row)
  {
    if store.appointments[a].status == Pending {
      var r :| r in store.reservations && store.reservations[r].appointment == a
          && store.reservations[r].expiredAt > q.now;
      row := JoinedRow(a, Some(r));
    } else if r :| r in store.reservations && store.reservations[r].appointment == a {
      row := JoinedRow(a, Some(r));
    } else {
      row := JoinedRow(a, None);
    }
  }

  /** Joining, filtering and projecting gives the pairs of exactly the claims in the window: the
      join neither drops one nor adds one. */
  lemma JoinFindsTheClaims(store: Store, q: BusyQuery)
    ensures SelectDistinct(store, q) == BusyRows(store, q)
  {
    hide Busy;
    forall pair | pair in BusyRows(store, q) ensures pair in SelectDistinct(store, q) {
      var a :| a in store.appointments && Busy(store, q, a)
               && pair == BusyRow(store.appointments[a].details.bay, store.appointments[a].details.technician);
      var row := JoinedRowOf(store, q, a);
    }
    forall pair | pair in SelectDistinct(store, q) ensures pair in BusyRows(store, q) {
      var row :| row in LeftJoin(store) && Where(store, q, row)
                 && pair == BusyRow(store.appointments[row.appointment].details.bay,
                                    store.appointments[row.appointment].details.technician);
      JoinedRowIsBusy(store, q, row);
    }
  }

  lemma JoinedRowIsBusy(store: Store, q: BusyQuery, row: JoinedRow)
    requires row in LeftJoin(store) && Where(store, q, row)
    ensures row.appointment in store.appointments && Busy(store, q, row.appointment)
  {
    if row.reservation.Some? {
      assert store.reservations[row.reservation.value].appointment == row.appointment;
    }
  }

  // ---- Lookups ----

  predicate HasKey(store: Store, key: string) {
    exists r | r in store.reservations :: store.reservations[r].key == key
  }

  /** GetReservationByIdempotencyKey; the key is unique, so one row at most matches. */
  ghost function FindByKey(store: Store, key: string): (r: Option<Uuid>)
    ensures r.Some? <==> HasKey(store, key)
    ensures r.Some? ==> r.value in store.reservations && store.reservations[r.value].key == key
  {
    if HasKey(store, key) then
      var r :| r in store.reservations && store.reservations[r].key == key;
      Some(r)
    else None
  }

  /** GetAppointmentByUUIDAndUserID */
  predicate OwnedBy(store: Store, a: Uuid, user: string) {
    a in store.appointments && store.appointments[a].details.user == user
  }

  // ---- Writes ----

  function UpsertVehicle(store: Store, uuid: Uuid, row: VehicleRow): Store {
    if uuid in store.vehicles then store else store.(vehicles := store.vehicles[uuid := row])
  }

  /** The first row put at a UUID stays, and no other row is touched. */
  lemma FirstVehicleStays(store: Store, uuid: Uuid, row: VehicleRow, later: VehicleRow)
    ensures UpsertVehicle(UpsertVehicle(store, uuid, row), uuid, later) == UpsertVehicle(store, uuid, row)
    ensures var vehicles := UpsertVehicle(store, uuid, row).vehicles;
            && vehicles.Keys == store.vehicles.Keys + {uuid}
            && (forall x | x in store.vehicles :: vehicles[x] == store.vehicles[x])
            && (uuid !in store.vehicles ==> vehicles[uuid] == row)
  {
  }

  function CreateAppointment(store: Store, uuid: Uuid, row: AppointmentRow): Store {
    store.(appointments := store.appointments[uuid := row])
  }

  function InsertReservation(store: Store, row: Reservation): Store {
    store.(reservations := store.reservations[row.uuid := row])
  }

  function UpdateAppointmentStatus(store: Store, uuid: Uuid, status: Status): Store {
    if uuid in store.appointments then
      store.(appointments := store.appointments[uuid := store.appointments[uuid].(status := status)])
    else store
  }

  /** What a transaction has written and not yet committed. */
  datatype Write =
    | NoWrite
    | Insert(appointment: Uuid, details: Details, hold: Reservation, vehicle: VehicleRow)
    | SetStatus(target: Uuid, status: Status)

  function ApplyWrite(store: Store, write: Write): Store {
    match write
    case NoWrite => store
    case Insert(a, details, hold, vehicle) =>
      InsertReservation(CreateAppointment(UpsertVehicle(store, details.vehicle, vehicle), a,
          AppointmentRow(details, Pending)), hold)
    case SetStatus(a, status) => UpdateAppointmentStatus(store, a, status)
  }
}
