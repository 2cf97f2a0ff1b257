/** The decisions the three commands make (internal/appointments/app and the closures of
    appointment_repository.go), as functions of what the transaction reads: its snapshot,
    its now() and the application clock. */
module Booking {
  import opened Wrappers
  import opened Domain
  import opened Tables
  import opened Workforce

  datatype CatalogEntry = CatalogEntry(duration: Duration, requiredCertifications: seq<string>)

  datatype BookCommand = BookCommand(
    user: string, dealership: string, serviceType: string, start: Time, key: string, vehicle: VehicleSpec)
  {
    function Data(vehicleUuid: Uuid): AppointmentData {
      AppointmentData(dealership, user, serviceType, vehicleUuid, start)
    }
  }

  /** What RequestBooking has gathered by the time it enters the repository. */
  datatype Plan = Plan(
    command: BookCommand, vehicle: Uuid, entry: CatalogEntry,
    technicians: seq<Technician>, bays: seq<ServiceBay>, validatedAt: Time)
  {
    /** RequestAppointmentParams: the window the busy query is asked about. */
    function Query(began: Time): BusyQuery {
      BusyQuery(command.dealership, command.start, command.start + entry.duration, began)
    }
  }

  // ---- Before the transaction ----

  /** sort.Slice by descending review score: some permutation of the input, ties in any order. */
  ghost predicate SortedByScore(technicians: seq<Technician>, from: seq<Technician>) {
    && multiset(technicians) == multiset(from)
    && forall i, j | 0 <= i < j < |technicians| :: technicians[i].reviewScore >= technicians[j].reviewScore
  }

  /** What the workforce service lists for the command's window. */
  function ListedTechnicians(catalog: map<string, CatalogEntry>, roster: Roster, c: BookCommand): seq<Technician>
    requires c.serviceType in catalog
  {
    EligibleTechnicians(roster.TechnicianEntries(c.dealership), catalog[c.serviceType].requiredCertifications,
                        c.start, c.start + catalog[c.serviceType].duration)
  }

  function ListedBays(catalog: map<string, CatalogEntry>, roster: Roster, c: BookCommand): seq<ServiceBay>
    requires c.serviceType in catalog
  {
    EligibleBays(roster.BayEntries(c.dealership), c.start, c.start + catalog[c.serviceType].duration)
  }

  /** The plan RequestBooking takes into the repository. */
  function PlanOf(
    catalog: map<string, CatalogEntry>, roster: Roster, c: BookCommand, vehicle: Uuid, sorted: seq<Technician>,
    validatedAt: Time): Plan
    requires c.serviceType in catalog
  {
    Plan(c, vehicle, catalog[c.serviceType], sorted, ListedBays(catalog, roster, c), validatedAt)
  }

  /** The checks RequestBooking makes between the key lookup and the transaction, in order. */
  function PrepareError(
    factory: FactoryConfig, catalog: map<string, CatalogEntry>, roster: Roster, c: BookCommand,
    now: Time): Option<Error>
  {
    var details := BuilderErrors(factory, c.Data(0), now);
    if details != [] then Some(InvalidAppointment(details))
    else if c.serviceType !in catalog then Some(ServiceTypeNotFound(c.serviceType))
    else if ListedTechnicians(catalog, roster, c) == [] || ListedBays(catalog, roster, c) == [] then
        Some(NoAvailability)
    else None
  }

  /** Dealership, user and service are named, and the start is inside the lead times in force. */
  predicate WellFormed(config: FactoryConfig, c: BookCommand, now: Time) {
    c.dealership != "" && c.user != "" && c.serviceType != "" && StartsInTime(config, c.start, now)
  }

  /** Somebody on the dealership's roster suits, and some bay of it is in service. */
  predicate Staffable(catalog: map<string, CatalogEntry>, roster: Roster, c: BookCommand)
    requires c.serviceType in catalog
  {
    var entry := catalog[c.serviceType];
    && (exists e | e in roster.TechnicianEntries(c.dealership) ::
          Suits(e, entry.requiredCertifications, c.start, c.start + entry.duration))
    && (exists e | e in roster.BayEntries(c.dealership) :: InService(e.blackouts, c.start, c.start + entry.duration))
  }

  /** Between the key lookup and the transaction a request is refused exactly for its own form,
      for a service that the catalog does not have, or for a roster that nobody or no bay of
      suits, in this order. */
  lemma PrepareAnswers(
    config: FactoryConfig, catalog: map<string, CatalogEntry>, roster: Roster, c: BookCommand, now: Time)
    ensures var e := PrepareError(NewBookingFactory(config), catalog, roster, c, now);
            && ((e.Some? && e.value.InvalidAppointment?) <==> !WellFormed(config, c, now))
            && (e == Some(ServiceTypeNotFound(c.serviceType)) <==>
                WellFormed(config, c, now) && c.serviceType !in catalog)
            && (e == Some(NoAvailability) <==>
                WellFormed(config, c, now) && c.serviceType in catalog && !Staffable(catalog, roster, c))
            && (e == None <==>
                WellFormed(config, c, now) && c.serviceType in catalog && Staffable(catalog, roster, c))
  {
    WellFormedHasNoErrors(config, c, now);
    hide BuilderErrors, WellFormed, ListedTechnicians, ListedBays, Staffable, NewBookingFactory;
    if c.serviceType in catalog { StaffableIsListed(catalog, roster, c); }
  }

  lemma WellFormedHasNoErrors(config: FactoryConfig, c: BookCommand, now: Time)
    ensures BuilderErrors(NewBookingFactory(config), c.Data(0), now) == [] <==> WellFormed(config, c, now)
  {
    SettingsInForce(config, c.start, now, 0, 0, "", now);
    hide StartTimeErrorDetail, NewBookingFactory, CreateReservation;
  }

  lemma StaffableIsListed(catalog: map<string, CatalogEntry>, roster: Roster, c: BookCommand)
    requires c.serviceType in catalog
    ensures Staffable(catalog, roster, c) <==>
            ListedTechnicians(catalog, roster, c) != [] && ListedBays(catalog, roster, c) != []
  {
    var entry := catalog[c.serviceType];
    SomebodySuits(roster.TechnicianEntries(c.dealership), entry.requiredCertifications, c.start,
        c.start + entry.duration);
    SomeBayServes(roster.BayEntries(c.dealership), c.start, c.start + entry.duration);
    hide Suits, InService;
  }

  lemma SomebodySuits(entries: seq<TechnicianEntry>, required: seq<string>, start: Time, end: Time)
    ensures EligibleTechnicians(entries, required, start, end) != [] <==>
            exists e | e in entries :: Suits(e, required, start, end)
  {
    hide Suits;
    var listed := EligibleTechnicians(entries, required, start, end);
    if listed != [] {
      EligibleTechnicianIff(entries, required, start, end, listed[0]);
      assert listed[0] in listed;
      var i :| 0 <= i < |entries| && entries[i].technician == listed[0] && Suits(entries[i], required, start, end);
      assert entries[i] in entries;
    }
    if e :| e in entries && Suits(e, required, start, end) {
      EligibleTechnicianIff(entries, required, start, end, e.technician);
    }
  }

  lemma SomeBayServes(entries: seq<BayEntry>, start: Time, end: Time)
    ensures EligibleBays(entries, start, end) != [] <==> exists e | e in entries :: InService(e.blackouts, start, end)
  {
    hide InService;
    var listed := EligibleBays(entries, start, end);
    if listed != [] {
      EligibleBayIff(entries, start, end, listed[0]);
      assert listed[0] in listed;
      var i :| 0 <= i < |entries| && entries[i].bay == listed[0] && InService(entries[i].blackouts, start, end);
      assert entries[i] in entries;
    }
    if e :| e in entries && InService(e.blackouts, start, end) {
      EligibleBayIff(entries, start, end, e.bay);
    }
  }

  // ---- The picker ----

  function TechnicianIds(technicians: seq<Technician>): seq<string> {
    seq(|technicians|, i requires 0 <= i < |technicians| => technicians[i].id)
  }

  function BayIds(bays: seq<ServiceBay>): seq<string> {
    seq(|bays|, i requires 0 <= i < |bays| => bays[i].id)
  }

  /** The first id in list order that is not busy; "" when there is none. */
  function FirstFree(ids: seq<string>, busy: set<string>): string {
    if ids == [] then ""
    else if ids[0] !in busy then ids[0]
    else FirstFree(ids[1..], busy)
  }

  lemma {:induction false} FirstFreeIsFree(ids: seq<string>, busy: set<string>)
    ensures (exists i :: 0 <= i < |ids| && ids[i] !in busy) ==>
            exists i :: 0 <= i < |ids| && ids[i] == FirstFree(ids, busy) && ids[i] !in busy && forall j | 0 <= j < i ::
                  ids[j] in busy
    ensures (forall i | 0 <= i < |ids| :: ids[i] in busy) ==> FirstFree(ids, busy) == ""
  {
    if ids != [] && ids[0] in busy {
      FirstFreeIsFree(ids[1..], busy);
      if i :| 0 <= i < |ids| && ids[i] !in busy {
        assert ids[1..][i - 1] !in busy;
        var k :| 0 <= k < |ids[1..]| && ids[1..][k] == FirstFree(ids[1..], busy) && ids[1..][k] !in busy
                 && forall j | 0 <= j < k :: ids[1..][j] in busy;
        forall j | 0 <= j < k + 1 ensures ids[j] in busy {
          if j > 0 { assert ids[j] == ids[1..][j - 1]; }
        }
        assert ids[k + 1] == FirstFree(ids, busy);
      } else {
        assert forall i | 0 <= i < |ids[1..]| :: ids[1..][i] == ids[i + 1];
      }
    }
  }

  /** The picker answers "" exactly when every id is busy, or the first one that is not is "". */
  lemma NothingFreeIff(ids: seq<string>, busy: set<string>)
    ensures FirstFree(ids, busy) == "" <==>
            (forall i | 0 <= i < |ids| :: ids[i] in busy)
            || (exists i ::
                  0 <= i < |ids| && ids[i] == "" && ids[i] !in busy && forall j | 0 <= j < i :: ids[j] in busy)
  {
    FirstFreeIsFree(ids, busy);
    if i :| 0 <= i < |ids| && ids[i] == "" && ids[i] !in busy && forall j | 0 <= j < i :: ids[j] in busy {
      FirstFreeAt(ids, busy, i);
    }
  }

  lemma {:induction false} FirstFreeAt(ids: seq<string>, busy: set<string>, i: nat)
    requires i < |ids| && ids[i] !in busy && forall j | 0 <= j < i :: ids[j] in busy
    ensures FirstFree(ids, busy) == ids[i]
  {
    if i > 0 {
      assert ids[0] in busy;
      FirstFreeAt(ids[1..], busy, i - 1);
    }
  }

  /** Over a list sorted by score, the picked technician has the best score of all that are
      eligible and free. */
  lemma PickedTechnicianIsBest(
    technicians: seq<Technician>, from: seq<Technician>, busy: set<string>)
    returns (t: Technician)
    requires SortedByScore(technicians, from) && FirstFree(TechnicianIds(technicians), busy) != ""
    ensures t in from && t.id == FirstFree(TechnicianIds(technicians), busy) && t.id !in busy
    ensures forall u | u in from && u.id !in busy :: u.reviewScore <= t.reviewScore
  {
    var ids := TechnicianIds(technicians);
    FirstFreeIsFree(ids, busy);
    var i :| 0 <= i < |ids| && ids[i] == FirstFree(ids, busy) && ids[i] !in busy
        && forall j | 0 <= j < i :: ids[j] in busy;
    t := technicians[i];
    assert t in multiset(technicians);
    forall u | u in from && u.id !in busy ensures u.reviewScore <= t.reviewScore {
      assert u in multiset(from);
      var k :| 0 <= k < |technicians| && technicians[k] == u;
      assert ids[k] == u.id;
    }
  }

  // ---- Inside the transaction ----

  datatype Decision =
    | Replay(reservation: Uuid)
    | Reject(error: Error)
    | Stage(write: Write)

  /** createFn: the picker, Build and CreateReservation. */
  function CreateFn(
    factory: FactoryConfig, plan: Plan, busyTechnicians: set<string>, busyBays: set<string>,
    now: Time, appointment: Uuid, reservation: Uuid): (r: Decision)
    ensures r.Reject? ==> !r.error.ServiceTypeNotFound?
  {
    var c := plan.command;
    var technician := FirstFree(TechnicianIds(plan.technicians), busyTechnicians);
    var bay := FirstFree(BayIds(plan.bays), busyBays);
    if technician == "" || bay == "" then Reject(NoAvailability)
    else if BuildErrors(technician, bay, plan.entry.duration) != [] then
      Reject(InvalidAppointment(BuildErrors(technician, bay, plan.entry.duration)))
    else
      match CreateReservation(factory, reservation, appointment, c.key, now)
      case Err(e) => Reject(e)
      case Ok(hold) =>
        Stage(Insert(appointment, BuiltDetails(c.Data(plan.vehicle), plan.entry.duration, technician, bay), hold,
                     VehicleRow(c.user, c.vehicle)))
  }

  /** An insert of the command's own window, user, vehicle and key, with a hold for the TTL from
      now, for the first technician and the first bay in list order that are not busy. */
  predicate InsertsFirstFree(
    factory: FactoryConfig, plan: Plan, busyT: set<string>, busyB: set<string>, now: Time, a: Uuid, r: Uuid,
        write: Write)
  {
    var c := plan.command;
    && write.Insert? && write.appointment == a && write.vehicle == VehicleRow(c.user, c.vehicle)
    && write.hold == Reservation(r, a, now, now + factory.reservationTTL, c.key)
    && var d := write.details;
    && d.dealership == c.dealership && d.user == c.user && d.serviceType == c.serviceType && d.vehicle == plan.vehicle
    && d.start == c.start && d.end == c.start + plan.entry.duration
    && (exists i :: 0 <= i < |plan.technicians| && plan.technicians[i].id == d.technician && d.technician !in busyT
                    && forall j | 0 <= j < i :: plan.technicians[j].id in busyT)
    && (exists i :: 0 <= i < |plan.bays| && plan.bays[i].id == d.bay && d.bay !in busyB
                    && forall j | 0 <= j < i :: plan.bays[j].id in busyB)
  }

  /** Some technician and some bay of the plan are not busy. */
  predicate SomeFree(plan: Plan, busyT: set<string>, busyB: set<string>) {
    (exists t | t in plan.technicians :: t.id !in busyT) && (exists b | b in plan.bays :: b.id !in busyB)
  }

  /** id is that of a listed technician who is not busy, and none of the others who are not has a
      higher score. */
  predicate BestFree(listed: seq<Technician>, busy: set<string>, id: string) {
    id !in busy &&
    exists t | t in listed :: t.id == id && forall u | u in listed && u.id !in busy :: u.reviewScore <= t.reviewScore
  }

  /** id is that of the first listed bay that is not busy. */
  predicate FirstFreeBay(listed: seq<ServiceBay>, busy: set<string>, id: string) {
    exists i :: 0 <= i < |listed| && listed[i].id == id && id !in busy && forall j | 0 <= j < i :: listed[j].id in busy
  }

  /** With ids that are not empty: createFn books if and only if some technician and some bay are
      free, the service takes time and the key is not blank; it then takes the first free of
      each. It refuses for no availability if and only if none is free, and otherwise for just
      the duration or just the key. */
  lemma CreateFnAnswers(
    factory: FactoryConfig, plan: Plan, busyT: set<string>, busyB: set<string>, now: Time, a: Uuid, r: Uuid)
    requires (forall t | t in plan.technicians :: t.id != "") && (forall b | b in plan.bays :: b.id != "")
    ensures var decision := CreateFn(factory, plan, busyT, busyB, now, a, r);
            var free := SomeFree(plan, busyT, busyB);
            && (decision == Reject(NoAvailability) <==> !free)
            && (decision == Reject(InvalidAppointment([NotPositive(EstimatedDuration)])) <==>
                free && plan.entry.duration <= 0)
            && (decision == Reject(InvalidReservation) <==>
                free && plan.entry.duration > 0 && TrimSpace(plan.command.key) == "")
            && (decision.Stage? <==> free && plan.entry.duration > 0 && TrimSpace(plan.command.key) != "")
            && (decision.Stage? ==> InsertsFirstFree(factory, plan, busyT, busyB, now, a, r, decision.write))
  {
    CreateFnRefusals(factory, plan, busyT, busyB, now, a, r);
    hide CreateFn, InsertsFirstFree, SomeFree, TrimSpace;
    if CreateFn(factory, plan, busyT, busyB, now, a, r).Stage? {
      CreateFnInserts(factory, plan, busyT, busyB, now, a, r);
    }
  }

  lemma CreateFnRefusals(
    factory: FactoryConfig, plan: Plan, busyT: set<string>, busyB: set<string>, now: Time, a: Uuid, r: Uuid)
    requires (forall t | t in plan.technicians :: t.id != "") && (forall b | b in plan.bays :: b.id != "")
    ensures var decision := CreateFn(factory, plan, busyT, busyB, now, a, r);
            if !SomeFree(plan, busyT, busyB) then decision == Reject(NoAvailability)
            else if plan.entry.duration <= 0 then
                decision == Reject(InvalidAppointment([NotPositive(EstimatedDuration)]))
            else if TrimSpace(plan.command.key) == "" then decision == Reject(InvalidReservation)
            else decision.Stage?
  {
    SomeFreeIsPicked(plan, busyT, busyB);
    BlankIsTrimmedAway(plan.command.key);
    CreateFnByPick(factory, plan, busyT, busyB, now, a, r);
    hide SomeFree, IsBlank, TrimSpace, TechnicianIds, BayIds, FirstFree, CreateFn;
  }

  lemma SomeFreeIsPicked(plan: Plan, busyT: set<string>, busyB: set<string>)
    requires (forall t | t in plan.technicians :: t.id != "") && (forall b | b in plan.bays :: b.id != "")
    ensures SomeFree(plan, busyT, busyB) <==>
            FirstFree(TechnicianIds(plan.technicians), busyT) != "" && FirstFree(BayIds(plan.bays), busyB) != ""
  {
    hide TechnicianIds, BayIds, FirstFree;
    FirstFreeTechnicianIs(plan.technicians, busyT);
    FirstFreeBayIs(plan.bays, busyB);
  }

  lemma CreateFnByPick(
    factory: FactoryConfig, plan: Plan, busyT: set<string>, busyB: set<string>, now: Time, a: Uuid, r: Uuid)
    ensures var decision := CreateFn(factory, plan, busyT, busyB, now, a, r);
            var picked := FirstFree(TechnicianIds(plan.technicians), busyT) != ""
                && FirstFree(BayIds(plan.bays), busyB) != "";
            if !picked then decision == Reject(NoAvailability)
            else if plan.entry.duration <= 0 then
                decision == Reject(InvalidAppointment([NotPositive(EstimatedDuration)]))
            else if IsBlank(plan.command.key) then decision == Reject(InvalidReservation)
            else decision.Stage?
  {
    hide IsBlank, TechnicianIds, BayIds, FirstFree;
  }

  lemma CreateFnInserts(
    factory: FactoryConfig, plan: Plan, busyT: set<string>, busyB: set<string>, now: Time, a: Uuid, r: Uuid)
    requires (forall t | t in plan.technicians :: t.id != "") && (forall b | b in plan.bays :: b.id != "")
    requires CreateFn(factory, plan, busyT, busyB, now, a, r).Stage?
    ensures InsertsFirstFree(factory, plan, busyT, busyB, now, a, r,
            CreateFn(factory, plan, busyT, busyB, now, a, r).write)
  {
    FirstFreeTechnicianIs(plan.technicians, busyT);
    FirstFreeBayIs(plan.bays, busyB);
    hide IsBlank, TechnicianIds, BayIds, FirstFree;
  }

  /** i is the first position whose id is not busy. */
  predicate FirstAt(ids: seq<string>, busy: set<string>, i: int) {
    0 <= i < |ids| && ids[i] !in busy && forall j | 0 <= j < i :: ids[j] in busy
  }

  lemma FirstFreeTechnicianIs(technicians: seq<Technician>, busy: set<string>)
    requires forall t | t in technicians :: t.id != ""
    ensures var id := FirstFree(TechnicianIds(technicians), busy);
            && (id == "" <==> forall t | t in technicians :: t.id in busy)
            && (id != "" ==>
                  exists i :: 0 <= i < |technicians| && technicians[i].id == id && id !in busy
                              && forall j | 0 <= j < i :: technicians[j].id in busy)
  {
    var ids := TechnicianIds(technicians);
    FirstFreeIsFree(ids, busy);
    assert forall i | 0 <= i < |ids| :: ids[i] == technicians[i].id && technicians[i] in technicians;
    if i :| FirstAt(ids, busy, i) {
      FirstFreeAt(ids, busy, i);
      forall j | 0 <= j < i ensures technicians[j].id in busy {
        assert ids[j] in busy;
      }
      assert technicians[i].id == FirstFree(ids, busy);
    }
  }

  lemma FirstFreeBayIs(bays: seq<ServiceBay>, busy: set<string>)
    requires forall b | b in bays :: b.id != ""
    ensures var id := FirstFree(BayIds(bays), busy);
            && (id == "" <==> forall b | b in bays :: b.id in busy)
            && (id != "" ==>
                  exists i :: 0 <= i < |bays| && bays[i].id == id && id !in busy
                              && forall j | 0 <= j < i :: bays[j].id in busy)
  {
    var ids := BayIds(bays);
    FirstFreeIsFree(ids, busy);
    assert forall i | 0 <= i < |ids| :: ids[i] == bays[i].id && bays[i] in bays;
    if i :| FirstAt(ids, busy, i) {
      FirstFreeAt(ids, busy, i);
      forall j | 0 <= j < i ensures bays[j].id in busy {
        assert ids[j] in busy;
      }
      assert bays[i].id == FirstFree(ids, busy);
    }
  }

  /** createFn uses the UUIDs it is given, once each, and leaves replays and mismatches to others. */
  lemma CreateFnShape(
    factory: FactoryConfig, plan: Plan, busyT: set<string>, busyB: set<string>, now: Time, a: Uuid, r: Uuid)
    ensures match CreateFn(factory, plan, busyT, busyB, now, a, r)
            case Replay(_) => false
            case Reject(e) => e != ReservationMismatch
            case Stage(write) =>
              write.Insert? && write.appointment == a && write.hold.uuid == r && write.details.vehicle == plan.vehicle
  {
  }

  /** The body of RequestAppointment's transaction. */
  ghost function DecideBooking(
    factory: FactoryConfig, plan: Plan, snapshot: Store, began: Time, now: Time, appointment: Uuid,
    reservation: Uuid): (decision: Decision)
    ensures decision.Reject? ==> !decision.error.ServiceTypeNotFound?
  {
    match FindByKey(snapshot, plan.command.key)
    case Some(r) => Replay(r)
    case None =>
      var q := plan.Query(began);
      CreateFn(factory, plan, BusyTechnicians(snapshot, q), BusyBays(snapshot, q), now, appointment, reservation)
  }

  /** The body of ConfirmAppointment's transaction. */
  function DecideConfirm(snapshot: Store, user: string, reservation: Uuid, now: Time): (r: Result<Write, Error>)
    ensures r.Err? ==> !r.error.ServiceTypeNotFound?
  {
    if reservation !in snapshot.reservations then Err(ReservationNotFound)
    else
      var hold := snapshot.reservations[reservation];
      if !OwnedBy(snapshot, hold.appointment, user) then Err(AppointmentNotFound)
      else
        match ConfirmError(hold.appointment, snapshot.appointments[hold.appointment].status, Some(hold), now)
        case Some(e) => Err(e)
        case None => Ok(SetStatus(hold.appointment, Confirmed))
  }

  /** The body of CancelAppointment's transaction. */
  function DecideCancel(snapshot: Store, user: string, a: Uuid, now: Time): (r: Result<Write, Error>)
    ensures r.Err? ==> !r.error.ServiceTypeNotFound?
  {
    if !OwnedBy(snapshot, a, user) then Err(AppointmentNotFound)
    else
      var row := snapshot.appointments[a];
      match CancelError(row.status, row.details.start, now)
      case Some(e) => Err(e)
      case None => Ok(SetStatus(a, Cancelled))
  }

  /** With ids that are not empty, createFn answers no-availability exactly when all technicians
      or all bays of the plan are busy. */
  lemma NoAvailabilityIff(
    factory: FactoryConfig, plan: Plan, busyT: set<string>, busyB: set<string>, now: Time, a: Uuid, r: Uuid)
    requires forall t | t in plan.technicians :: t.id != ""
    requires forall b | b in plan.bays :: b.id != ""
    ensures CreateFn(factory, plan, busyT, busyB, now, a, r) == Reject(NoAvailability) <==>
            (forall t | t in plan.technicians :: t.id in busyT) || (forall b | b in plan.bays :: b.id in busyB)
  {
    var ids, bayIds := TechnicianIds(plan.technicians), BayIds(plan.bays);
    NothingFreeIff(ids, busyT);
    NothingFreeIff(bayIds, busyB);
    assert forall i | 0 <= i < |ids| :: ids[i] == plan.technicians[i].id && plan.technicians[i] in plan.technicians;
    assert forall i | 0 <= i < |bayIds| :: bayIds[i] == plan.bays[i].id && plan.bays[i] in plan.bays;
  }
}
