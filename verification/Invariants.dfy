/** What every reachable world satisfies. */
module Invariants {
  import opened Wrappers
  import opened Domain
  import opened Tables
  import opened Workforce
  import opened Booking
  import opened Protocol
  import Database

  // ---- Committed bookings ----

  predicate Stored(w: World, e: Entry) {
    e.appointment in w.store.appointments && e.reservation in w.store.reservations &&
    e.vehicle in w.store.vehicles && e.appointment in w.history
  }

  function DetailsOf(w: World, e: Entry): Details
    requires Stored(w, e)
  {
    w.store.appointments[e.appointment].details
  }

  function HoldOf(w: World, e: Entry): Reservation
    requires Stored(w, e)
  {
    w.store.reservations[e.reservation]
  }

  /** What Build, the roster filters and the start-time rule leave of an appointment. */
  predicate Sound(cfg: Config, d: Details, validatedAt: Time) {
    && d.dealership != "" && d.user != "" && d.technician != "" && d.bay != ""
    && d.serviceType in cfg.catalog
    && d.end == d.start + cfg.catalog[d.serviceType].duration
    && d.start < d.end
    && StartTimeErrorDetail(cfg.Factory(), d.start, validatedAt) == None
    && d.technician in TechnicianIds(EligibleTechnicians(cfg.roster.TechnicianEntries(d.dealership),
                                                         cfg.catalog[d.serviceType].requiredCertifications, d.start,
                                                         d.end))
    && d.bay in BayIds(EligibleBays(cfg.roster.BayEntries(d.dealership), d.start, d.end))
  }

  function StatusAt(m: nat): Status {
    if m == 0 then Pending else if m == 1 then Confirmed else Cancelled
  }

  function Rank(status: Status): nat {
    match status case Pending => 0 case Confirmed => 1 case Cancelled => 2
  }

  /** A prefix of pending, confirmed, cancelled that is not empty. */
  predicate StatusPath(h: seq<Event>) {
    1 <= |h| <= 3 && forall m | 0 <= m < |h| :: h[m].status == StatusAt(m)
  }

  /** A history is such a prefix, at times that do not go back. */
  predicate PathOk(h: seq<Event>, clock: Time) {
    && StatusPath(h)
    && (forall m | 0 <= m < |h| :: h[m].decidedAt <= h[m].at <= clock)
    && (forall m, n | 0 <= m < n < |h| :: h[m].at <= h[n].at)
  }

  predicate EntryOk(cfg: Config, w: World, e: Entry) {
    Stored(w, e) &&
    var d, hold, h := DetailsOf(w, e), HoldOf(w, e), w.history[e.appointment];
    && hold.uuid == e.reservation && hold.appointment == e.appointment && hold.key == e.key
    && d.vehicle == e.vehicle && w.store.vehicles[e.vehicle].user == d.user
    && e.query == BusyQuery(d.dealership, d.start, d.end, e.query.now)
    && e.validatedAt <= e.query.now <= hold.createdAt <= e.committedAt <= w.clock
    && hold.expiredAt == hold.createdAt + cfg.Factory().reservationTTL
    && Sound(cfg, d, e.validatedAt)
    && PathOk(h, w.clock)
    && w.store.appointments[e.appointment].status == h[|h| - 1].status
    && h[0].at == e.committedAt && h[0].session == e.session
    && (|h| > 1 ==> h[1].decidedAt < hold.expiredAt)
    && (|h| > 2 ==> h[2].decidedAt <= d.start)
  }

  predicate Different(e: Entry, f: Entry) {
    e.appointment != f.appointment && e.reservation != f.reservation && e.vehicle != f.vehicle && e.key != f.key
    && e.session != f.session
  }

  // ---- Exclusion ----

  predicate Clash(d: Details, f: Details) {
    && d.dealership == f.dealership
    && Overlaps(d.start, d.end, f.start, f.end)
    && (d.technician == f.technician || d.bay == f.bay)
  }

  /** The confirm of a committed at t or later. */
  predicate ConfirmedSince(w: World, a: Uuid, t: Time) {
    a in w.history && |w.history[a]| > 1 && w.history[a][1].at >= t
  }

  /** From time t on, e is no claim, unless a confirm of it commits after its hold expired. */
  predicate Gone(w: World, e: Entry, t: Time) {
    Stored(w, e) &&
    (w.store.appointments[e.appointment].status == Cancelled ||
     (HoldOf(w, e).expiredAt <= t
         && (|w.history[e.appointment]| > 1 ==> ConfirmedSince(w, e.appointment, HoldOf(w, e).expiredAt))))
  }

  predicate Apart(w: World, e: Entry, f: Entry) {
    Stored(w, e) && Stored(w, f) && Clash(DetailsOf(w, e), DetailsOf(w, f)) ==>
      Gone(w, e, f.query.now) || Gone(w, f, e.query.now)
  }

  // ---- Sessions ----

  predicate Won(w: World, sid: nat) {
    sid in w.sessions && w.sessions[sid].phase.Done? && w.sessions[sid].phase.outcome.Succeeded?
  }

  /** The m-th change of a's status was answered as a success of the command that asks for it. */
  predicate Credited(w: World, a: Uuid, m: nat)
    requires a in w.history && m < |w.history[a]|
  {
    var sid := w.history[a][m].session;
    Won(w, sid) &&
    var s := w.sessions[sid];
    if m == 0 then
      s.command.Book? && s.phase.outcome.id in w.store.reservations
          && w.store.reservations[s.phase.outcome.id].appointment == a
    else if m == 1 then s.command.ConfirmHold? && s.phase.outcome.id == a
    else s.command.CancelBooking? && s.phase.outcome.id == a
  }

  predicate ViewOk(w: World, v: View) {
    && v.began <= v.takenAt <= w.clock
    && v.seen <= |w.log|
    && (forall i | v.seen <= i < |w.log| :: w.log[i].committedAt >= v.takenAt)
    && (forall i | 0 <= i < v.seen :: w.log[i].appointment in v.snapshot.appointments
                                      && w.log[i].reservation in v.snapshot.reservations)
    && (forall r | r in v.snapshot.reservations ::
          r in w.store.reservations && w.store.reservations[r] == v.snapshot.reservations[r])
    && (forall a | a in v.snapshot.appointments :: RowSeen(w, v, a))
  }

  /** A row read in a snapshot: same details now, and every status change since is later. */
  predicate RowSeen(w: World, v: View, a: Uuid)
    requires a in v.snapshot.appointments
  {
    && a in w.store.appointments && a in w.history
    && w.store.appointments[a].details == v.snapshot.appointments[a].details
    && Rank(v.snapshot.appointments[a].status) < |w.history[a]|
    && forall m | Rank(v.snapshot.appointments[a].status) < m < |w.history[a]| :: w.history[a][m].at >= v.takenAt
  }

  predicate PlanOk(cfg: Config, w: World, sid: nat, s: Session) {
    s.plan.Some? ==>
      var p := s.plan.value;
      && s.command == Book(p.command)
      && p.vehicle in w.issued && w.issued[p.vehicle] == sid
      && p.validatedAt <= w.clock
      && BuilderErrors(cfg.Factory(), p.command.Data(0), p.validatedAt) == []
      && p.command.serviceType in cfg.catalog && p.entry == cfg.catalog[p.command.serviceType]
      && multiset(p.technicians) == multiset(ListedTechnicians(cfg.catalog, cfg.roster, p.command))
      && (forall i, j | 0 <= i < j < |p.technicians| :: p.technicians[i].reviewScore >= p.technicians[j].reviewScore)
      && p.bays == ListedBays(cfg.catalog, cfg.roster, p.command)
  }

  predicate WriteOk(cfg: Config, w: World, sid: nat, s: Session, v: View, decidedAt: Time, write: Write) {
    match write
    case NoWrite =>
      s.command.Book? && s.captured.Some? && s.captured.value in v.snapshot.reservations &&
      v.snapshot.reservations[s.captured.value].key == s.command.booking.key
    case Insert(a, d, hold, vehicle) =>
      s.plan.Some? && s.captured == Some(hold.uuid) &&
      InsertOk(cfg, w, sid, s.plan.value, v, decidedAt, a, d, hold, vehicle)
    case SetStatus(a, status) =>
      s.captured == Some(a) && a in v.snapshot.appointments &&
      match s.command
      case Book(_) => false
      case ConfirmHold(user, r) =>
        && status == Confirmed && v.snapshot.appointments[a].status == Pending
        && OwnedBy(v.snapshot, a, user)
        && r in v.snapshot.reservations && v.snapshot.reservations[r].appointment == a
        && decidedAt < v.snapshot.reservations[r].expiredAt
      case CancelBooking(user, target) =>
        && target == a && status == Cancelled && v.snapshot.appointments[a].status == Confirmed
        && OwnedBy(v.snapshot, a, user)
        && decidedAt <= v.snapshot.appointments[a].details.start
  }

  /** The first technician and the first bay of the plan that are not busy. */
  predicate Picked(d: Details, p: Plan, busyT: set<string>, busyB: set<string>) {
    && d.technician == FirstFree(TechnicianIds(p.technicians), busyT) && d.technician !in busyT
    && d.bay == FirstFree(BayIds(p.bays), busyB) && d.bay !in busyB
  }

  predicate InsertOk(
    cfg: Config, w: World, sid: nat, p: Plan, v: View, decidedAt: Time,
    a: Uuid, d: Details, hold: Reservation, vehicle: VehicleRow)
  {
    && a in w.issued && w.issued[a] == sid && hold.uuid in w.issued && w.issued[hold.uuid] == sid
    && d == BuiltDetails(p.command.Data(p.vehicle), p.entry.duration, d.technician, d.bay)
    && hold == Reservation(hold.uuid, a, decidedAt, decidedAt + cfg.Factory().reservationTTL, p.command.key)
    && vehicle == VehicleRow(p.command.user, p.command.vehicle)
    && Sound(cfg, d, p.validatedAt)
    && Picked(d, p, BusyTechnicians(v.snapshot, p.Query(v.began)), BusyBays(v.snapshot, p.Query(v.began)))
  }

  predicate OutcomeOk(w: World, sid: nat, command: Command, id: Uuid) {
    match command
    case Book(c) => id in w.store.reservations && w.store.reservations[id].key == c.key
    case ConfirmHold(user, r) =>
      && r in w.store.reservations && w.store.reservations[r].appointment == id
      && OwnedBy(w.store, id, user)
      && id in w.history && |w.history[id]| > 1 && w.history[id][1].session == sid
    case CancelBooking(user, a) =>
      && id == a && OwnedBy(w.store, a, user)
      && a in w.history && |w.history[a]| > 2 && w.history[a][2].session == sid
  }

  predicate PhaseOk(cfg: Config, w: World, sid: nat, s: Session) {
    match s.phase
    case Called => s.command.Book?
    case Validated => s.command.Book?
    case Missed => s.command.Book?
    case Ready => s.command.Book? ==> s.plan.Some?
    case Begun(began) =>
      (s.command.Book? ==> s.plan.Some?) && began <= w.clock && (s.plan.Some? ==> s.plan.value.validatedAt <= began)
    case Reading(v) =>
      (s.command.Book? ==> s.plan.Some?) && ViewOk(w, v) && (s.plan.Some? ==> s.plan.value.validatedAt <= v.began)
    case Staged(v, decidedAt, write) =>
      && (s.command.Book? ==> s.plan.Some?) && ViewOk(w, v) && (s.plan.Some? ==> s.plan.value.validatedAt <= v.began)
      && v.takenAt <= decidedAt <= w.clock
      && WriteOk(cfg, w, sid, s, v, decidedAt, write)
    case Backstop => s.command.Book? && HasKey(w.store, s.command.booking.key)
    case Done(outcome) =>
      (outcome.Succeeded? ==> OutcomeOk(w, sid, s.command, outcome.id)) && outcome != Refused(ReservationMismatch)
  }

  predicate SessionOk(cfg: Config, w: World, sid: nat, s: Session) {
    s.attempts <= Database.MAX_TRIES && PlanOk(cfg, w, sid, s) && PhaseOk(cfg, w, sid, s)
  }

  // ---- The whole world ----

  predicate LogOk(cfg: Config, w: World) {
    && (forall i | 0 <= i < |w.log| :: EntryOk(cfg, w, w.log[i]))
    && (forall i, j | 0 <= i < j < |w.log| :: Different(w.log[i], w.log[j]))
  }

  predicate Covered(w: World) {
    && w.history.Keys == w.store.appointments.Keys
    && (forall a | a in w.store.appointments :: exists i :: 0 <= i < |w.log| && w.log[i].appointment == a)
    && (forall r | r in w.store.reservations :: exists i :: 0 <= i < |w.log| && w.log[i].reservation == r)
    && (forall x | x in w.store.vehicles :: exists i :: 0 <= i < |w.log| && w.log[i].vehicle == x)
    && |w.store.appointments| == |w.store.reservations| == |w.store.vehicles| == |w.log|
  }

  predicate Owners(w: World) {
    && (forall x | x in w.issued :: w.issued[x] in w.sessions)
    && (forall a | a in w.store.appointments :: a in w.issued && Won(w, w.issued[a]))
    && (forall r | r in w.store.reservations :: r in w.issued && Won(w, w.issued[r]))
    && (forall x | x in w.store.vehicles :: x in w.issued && Won(w, w.issued[x]))
    && (forall i | 0 <= i < |w.log| :: Won(w, w.log[i].session))
    && (forall a, m | a in w.history && 0 <= m < |w.history[a]| :: Credited(w, a, m))
  }

  predicate Exclusive(w: World) {
    forall i, j | 0 <= i < j < |w.log| :: Apart(w, w.log[i], w.log[j])
  }

  predicate SessionsOk(cfg: Config, w: World) {
    forall sid | sid in w.sessions :: SessionOk(cfg, w, sid, w.sessions[sid])
  }

  predicate Inv(cfg: Config, w: World) {
    LogOk(cfg, w) && Covered(w) && Owners(w) && Exclusive(w) && SessionsOk(cfg, w)
  }

  // ---- How a world may evolve ----

  predicate Later(w: World, w': World) {
    && w.clock <= w'.clock
    && w.log <= w'.log
    && (forall i | |w.log| <= i < |w'.log| :: w'.log[i].committedAt >= w.clock)
    && (forall x | x in w.issued :: x in w'.issued && w'.issued[x] == w.issued[x])
    && (forall x | x in w.store.vehicles :: x in w'.store.vehicles && w'.store.vehicles[x] == w.store.vehicles[x])
    && (forall r | r in w.store.reservations ::
          r in w'.store.reservations && w'.store.reservations[r] == w.store.reservations[r])
    && (forall a | a in w.store.appointments ::
          a in w'.store.appointments && w'.store.appointments[a].details == w.store.appointments[a].details)
    && (forall a | a in w.history :: HistoryGrows(w, w', a))
  }

  predicate HistoryGrows(w: World, w': World, a: Uuid)
    requires a in w.history
  {
    && a in w'.history && w.history[a] <= w'.history[a]
    && forall m | |w.history[a]| <= m < |w'.history[a]| :: w'.history[a][m].at >= w.clock
  }

  lemma ViewStable(w: World, w': World, v: View)
    requires ViewOk(w, v) && Later(w, w')
    ensures ViewOk(w', v)
  {
    forall i | v.seen <= i < |w'.log| ensures w'.log[i].committedAt >= v.takenAt {
      if i < |w.log| { assert w'.log[i] == w.log[i]; }
    }
    forall a | a in v.snapshot.appointments ensures RowSeen(w', v, a) {
      assert RowSeen(w, v, a);
      assert HistoryGrows(w, w', a);
      forall m | Rank(v.snapshot.appointments[a].status) < m < |w'.history[a]|
             ensures w'.history[a][m].at >= v.takenAt {
        if m < |w.history[a]| { assert w'.history[a][m] == w.history[a][m]; }
      }
    }
  }

  lemma SessionStable(cfg: Config, w: World, w': World, sid: nat, s: Session)
    requires SessionOk(cfg, w, sid, s) && Later(w, w')
    ensures SessionOk(cfg, w', sid, s)
  {
    match s.phase
    case Reading(v) => ViewStable(w, w', v);
    case Staged(v, _, _) => ViewStable(w, w', v);
    case Done(Succeeded(id)) =>
      if !s.command.Book? { assert HistoryGrows(w, w', id); }
    case _ =>
  }

  lemma SessionsStable(cfg: Config, w: World, w': World, sid: nat)
    requires SessionsOk(cfg, w) && Later(w, w')
    requires w'.sessions.Keys == w.sessions.Keys + {sid}
    requires forall x | x in w.sessions && x != sid :: w'.sessions[x] == w.sessions[x]
    requires sid in w'.sessions && SessionOk(cfg, w', sid, w'.sessions[sid])
    ensures SessionsOk(cfg, w')
  {
    forall x | x in w'.sessions ensures SessionOk(cfg, w', x, w'.sessions[x]) {
      if x != sid { SessionStable(cfg, w, w', x, w.sessions[x]); }
    }
  }

  lemma GoneStable(w: World, w': World, e: Entry, t: Time)
    requires Gone(w, e, t) && Later(w, w') && t <= w.clock
    requires Stored(w', e) && PathOk(w.history[e.appointment], w.clock) && PathOk(w'.history[e.appointment], w'.clock)
    requires w.store.appointments[e.appointment].status ==
             w.history[e.appointment][|w.history[e.appointment]| - 1].status
    requires w'.store.appointments[e.appointment].status ==
             w'.history[e.appointment][|w'.history[e.appointment]| - 1].status
    ensures Gone(w', e, t)
  {
    var h, h' := w.history[e.appointment], w'.history[e.appointment];
    assert HistoryGrows(w, w', e.appointment);
    if |h| == 3 {
      assert h' == h;
    } else if |h| > 1 {
      assert h'[1] == h[1];
    }
  }
}
