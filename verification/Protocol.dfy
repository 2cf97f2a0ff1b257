/** Request, confirm and cancel as interleaved transactions over the committed tables.

    Every command is a session. A step belongs to one session, or moves the clock, so a
    trace of steps is an interleaving. Of the database only three guarantees are used, as
    guards of Commit (PostgreSQL 17 documentation, sections 13.2.2 and 13.2.3): two
    concurrent serializable transactions that each missed the other's write do not both
    commit; a repeatable-read update fails when its row changed since the snapshot; the
    idempotency key is unique. A transaction may fail at any point besides (Abort, Fail).
    One clock serves now() and time.Now(). */
module Protocol {
  import opened Wrappers
  import opened Domain
  import opened Tables
  import opened Workforce
  import opened Booking
  import Database

  datatype Config = Config(settings: FactoryConfig, catalog: map<string, CatalogEntry>, roster: Roster)
  {
    function Factory(): FactoryConfig {
      NewBookingFactory(settings)
    }
  }

  datatype Command =
    | Book(booking: BookCommand)
    | ConfirmHold(user: string, reservation: Uuid)
    | CancelBooking(user: string, appointment: Uuid)

  /** Exhausted: ten attempts were not enough. Broken: something outside the domain failed. */
  datatype Outcome = Succeeded(id: Uuid) | Refused(error: Error) | Exhausted | Broken

  /** One attempt's view of the database: BEGIN fixes now(), the first query fixes the
      snapshot. `seen` is how many bookings had committed by then. */
  datatype View = View(began: Time, snapshot: Store, seen: nat, takenAt: Time)

  datatype Phase =
    | Called
    | Validated
    | Missed
    | Ready
    | Begun(began: Time)
    | Reading(view: View)
    | Staged(view: View, decidedAt: Time, write: Write)
    | Backstop
    | Done(outcome: Outcome)

  /** `captured` is the variable the transaction closure assigns, which outlives an attempt. */
  datatype Session = Session(command: Command, phase: Phase, plan: Option<Plan>, attempts: nat, captured: Option<Uuid>)

  datatype Event = Event(status: Status, session: nat, decidedAt: Time, at: Time)

  /** A committed booking transaction: what it asked the busy query, and what it wrote. */
  datatype Entry = Entry(
    session: nat, query: BusyQuery, appointment: Uuid, reservation: Uuid, vehicle: Uuid, key: string,
    validatedAt: Time, committedAt: Time)

  datatype World = World(
    clock: Time,
    store: Store,
    log: seq<Entry>,                  // committed bookings, in commit order
    history: map<Uuid, seq<Event>>,   // committed status changes of each appointment
    issued: map<Uuid, nat>,           // the session each UUID was generated for
    sessions: map<nat, Session>)

  datatype Step =
    | Tick(elapsed: nat)
    | Call(sid: nat, command: Command)
    | Validate(sid: nat)
    | FastPath(sid: nat)
    | Prepare(sid: nat, vehicle: Uuid, sorted: seq<Technician>)
    | Begin(sid: nat)
    | Snapshot(sid: nat)
    | Decide(sid: nat, appointment: Uuid, reservation: Uuid)
    | Commit(sid: nat)
    | Violate(sid: nat)
    | Recover(sid: nat)
    | Abort(sid: nat)
    | Fail(sid: nat)

  function Init(clock: Time): World {
    World(clock, EMPTY, [], map[], map[], map[])
  }

  // ---- The database's guarantees ----

  /** A reader's busy query did not see a booking that its WHERE clause matches. */
  predicate Misses(q: BusyQuery, written: Details, hold: Reservation) {
    InWindow(q, written) && hold.expiredAt > q.now
  }

  /** No concurrent committed booking has read/write dependencies with this one both ways. */
  predicate Serializable(w: World, view: View, q: BusyQuery, details: Details, hold: Reservation) {
    forall i | view.seen <= i < |w.log| ::
      w.log[i].appointment in w.store.appointments && w.log[i].reservation in w.store.reservations ==>
      !(Misses(q, w.store.appointments[w.log[i].appointment].details, w.store.reservations[w.log[i].reservation])
        && Misses(w.log[i].query, details, hold))
  }

  predicate FirstUpdater(w: World, view: View, a: Uuid) {
    a in view.snapshot.appointments && a in w.store.appointments
        && view.snapshot.appointments[a] == w.store.appointments[a]
  }

  // ---- Steps ----

  predicate InTransaction(phase: Phase) {
    phase.Begun? || phase.Reading? || phase.Staged?
  }

  predicate InPhase(w: World, sid: nat, phase: Phase) {
    sid in w.sessions && w.sessions[sid].phase == phase
  }

  predicate IsStaged(w: World, sid: nat) {
    sid in w.sessions && w.sessions[sid].phase.Staged?
  }

  ghost predicate Enabled(cfg: Config, w: World, step: Step) {
    match step
    case Tick(_) => true
    case Call(sid, _) => sid !in w.sessions
    case Validate(sid) => InPhase(w, sid, Called) && w.sessions[sid].command.Book?
    case FastPath(sid) => InPhase(w, sid, Validated) && w.sessions[sid].command.Book?
    case Prepare(sid, vehicle, sorted) =>
      InPhase(w, sid, Missed) && w.sessions[sid].command.Book? && vehicle !in w.issued &&
      CanPrepare(cfg, w.sessions[sid].command.booking, w.clock, sorted)
    case Begin(sid) => InPhase(w, sid, Ready) && w.sessions[sid].attempts < Database.MAX_TRIES
    case Snapshot(sid) => sid in w.sessions && w.sessions[sid].phase.Begun?
    case Decide(sid, a, r) =>
      sid in w.sessions && w.sessions[sid].phase.Reading? &&
      (w.sessions[sid].command.Book? ==> w.sessions[sid].plan.Some? && a !in w.issued && r !in w.issued && a != r)
    case Commit(sid) => IsStaged(w, sid) && CanCommit(w, w.sessions[sid])
    case Violate(sid) =>
      IsStaged(w, sid) && w.sessions[sid].phase.write.Insert? && HasKey(w.store, w.sessions[sid].phase.write.hold.key)
    case Recover(sid) => InPhase(w, sid, Backstop) && w.sessions[sid].command.Book?
    case Abort(sid) => sid in w.sessions && InTransaction(w.sessions[sid].phase)
    case Fail(sid) => sid in w.sessions && !w.sessions[sid].phase.Done?
  }

  ghost predicate CanPrepare(cfg: Config, c: BookCommand, now: Time, sorted: seq<Technician>) {
    PrepareError(cfg.Factory(), cfg.catalog, cfg.roster, c, now) == None ==>
        SortedByScore(sorted, ListedTechnicians(cfg.catalog, cfg.roster, c))
  }

  predicate CanCommit(w: World, s: Session)
    requires s.phase.Staged?
  {
    match s.phase.write
    case NoWrite => s.captured.Some?
    case Insert(_, details, hold, _) =>
      s.command.Book? && s.plan.Some? && s.captured.Some? &&
      !HasKey(w.store, hold.key) &&
      Serializable(w, s.phase.view, s.plan.value.Query(s.phase.view.began), details, hold)
    case SetStatus(a, _) => s.captured.Some? && FirstUpdater(w, s.phase.view, a)
  }

  /** The session after a step that commits nothing. */
  ghost function Advance(cfg: Config, w: World, step: Step): Session
    requires !step.Tick? && !step.Call? && !step.Commit? && Enabled(cfg, w, step)
  {
    var s := w.sessions[step.sid];
    match step
    case Validate(_) =>
      (match StartTimeErrorDetail(cfg.Factory(), s.command.booking.start, w.clock)
       case Some(d) => s.(phase := Done(Refused(InvalidAppointment([d]))))
       case None => s.(phase := Validated))
    case FastPath(_) =>
      (match FindByKey(w.store, s.command.booking.key)
       case Some(r) => s.(phase := Done(Succeeded(r)))
       case None => s.(phase := Missed))
    case Prepare(_, vehicle, sorted) =>
      var c := s.command.booking;
      (match PrepareError(cfg.Factory(), cfg.catalog, cfg.roster, c, w.clock)
       case Some(e) => s.(phase := Done(Refused(e)))
       case None =>
         s.(phase := Ready,
            plan := Some(PlanOf(cfg.catalog, cfg.roster, c, vehicle, sorted, w.clock))))
    case Begin(_) => s.(phase := Begun(w.clock), attempts := s.attempts + 1)
    case Snapshot(_) => s.(phase := Reading(View(s.phase.began, w.store, |w.log|, w.clock)))
    case Decide(_, a, r) => Decided(cfg, s, w.clock, a, r)
    case Violate(_) => s.(phase := Backstop)
    case Recover(_) =>
      (match FindByKey(w.store, s.command.booking.key)
       case Some(r) => s.(phase := Done(Succeeded(r)))
       case None => s.(phase := Done(Broken)))
    case Abort(_) =>
      s.(phase := if s.attempts < Database.MAX_TRIES then Ready else Done(Exhausted))
    case Fail(_) => s.(phase := Done(Broken))
  }

  ghost function Decided(cfg: Config, s: Session, now: Time, a: Uuid, r: Uuid): Session
    requires s.phase.Reading? && (s.command.Book? ==> s.plan.Some?)
  {
    var view := s.phase.view;
    match s.command
    case Book(_) =>
      (match DecideBooking(cfg.Factory(), s.plan.value, view.snapshot, view.began, now, a, r)
       case Replay(found) => s.(phase := Staged(view, now, NoWrite), captured := Some(found))
       case Reject(e) => s.(phase := Done(Refused(e)))
       case Stage(write) => s.(phase := Staged(view, now, write), captured := Some(r)))
    case ConfirmHold(user, reservation) =>
      (match DecideConfirm(view.snapshot, user, reservation, now)
       case Err(e) => s.(phase := Done(Refused(e)))
       case Ok(write) => s.(phase := Staged(view, now, write), captured := Some(write.target)))
    case CancelBooking(user, target) =>
      (match DecideCancel(view.snapshot, user, target, now)
       case Err(e) => s.(phase := Done(Refused(e)))
       case Ok(write) => s.(phase := Staged(view, now, write), captured := Some(write.target)))
  }

  function Issued(w: World, step: Step): map<Uuid, nat> {
    match step
    case Prepare(sid, vehicle, _) => w.issued[vehicle := sid]
    case Decide(sid, a, r) =>
      if sid in w.sessions && w.sessions[sid].command.Book? then w.issued[a := sid][r := sid] else w.issued
    case _ => w.issued
  }

  /** The world after a session's transaction commits what it staged. */
  function Committed(w: World, sid: nat): World
    requires sid in w.sessions && w.sessions[sid].phase.Staged? && CanCommit(w, w.sessions[sid])
  {
    var s := w.sessions[sid];
    var w' := w.(store := ApplyWrite(w.store, s.phase.write),
                 sessions := w.sessions[sid := s.(phase := Done(Succeeded(s.captured.value)))]);
    match s.phase.write
    case NoWrite => w'
    case Insert(a, details, hold, _) =>
      w'.(log := w.log + [Entry(sid, s.plan.value.Query(s.phase.view.began), a, hold.uuid, details.vehicle, hold.key,
                                s.plan.value.validatedAt, w.clock)],
          history := w.history[a := [Event(Pending, sid, s.phase.decidedAt, w.clock)]])
    case SetStatus(a, status) =>
      w'.(history := w.history[a :=
          (if a in w.history then w.history[a] else []) + [Event(status, sid, s.phase.decidedAt, w.clock)]])
  }

  ghost function Apply(cfg: Config, w: World, step: Step): World
    requires Enabled(cfg, w, step)
  {
    match step
    case Tick(elapsed) => w.(clock := w.clock + elapsed)
    case Call(sid, command) =>
      w.(sessions := w.sessions[sid := Session(command, if command.Book? then Called else Ready, None, 0, None)])
    case Commit(sid) => Committed(w, sid)
    case _ => w.(sessions := w.sessions[step.sid := Advance(cfg, w, step)], issued := Issued(w, step))
  }

  /** The world a trace leads to, if every step of it is enabled in turn. */
  ghost function Exec(cfg: Config, w: World, trace: seq<Step>): Option<World> {
    if trace == [] then Some(w)
    else
      match Exec(cfg, w, trace[..|trace| - 1])
      case None => None
      case Some(w') =>
        if Enabled(cfg, w', trace[|trace| - 1]) then Some(Apply(cfg, w', trace[|trace| - 1])) else None
  }

  /** Some interleaving of any number of commands, started on empty tables, leads to w. */
  ghost predicate Reachable(cfg: Config, w: World) {
    exists clock: Time, trace: seq<Step> :: Exec(cfg, Init(clock), trace) == Some(w)
  }
}
