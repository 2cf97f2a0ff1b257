/** Every enabled step keeps the invariant, and every world evolves only forwards. */
module Preservation {
  import opened Wrappers
  import opened Domain
  import opened Tables
  import opened Workforce
  import opened Booking
  import opened Protocol
  import opened Invariants
  import Database

  // ---- Decisions ----

  lemma FirstFreeMember(ids: seq<string>, busy: set<string>)
    requires FirstFree(ids, busy) != ""
    ensures FirstFree(ids, busy) in ids && FirstFree(ids, busy) !in busy
  {
    FirstFreeIsFree(ids, busy);
  }

  lemma PermutedIds(xs: seq<Technician>, ys: seq<Technician>, id: string)
    requires multiset(xs) == multiset(ys) && id in TechnicianIds(xs)
    ensures id in TechnicianIds(ys)
  {
    var i :| 0 <= i < |xs| && TechnicianIds(xs)[i] == id;
    assert xs[i] in multiset(xs);
    assert xs[i] in ys;
    var j :| 0 <= j < |ys| && ys[j] == xs[i];
    assert TechnicianIds(ys)[j] == id;
  }

  lemma NoBuilderErrors(factory: FactoryConfig, data: AppointmentData, now: Time)
    requires BuilderErrors(factory, data, now) == []
    ensures data.dealership != "" && data.user != "" && data.serviceType != ""
    ensures StartTimeErrorDetail(factory, data.start, now) == None
  {
  }

  /** What createFn builds is sound, unbusy, and asks for the very window that was queried. */
  lemma CreateFnOk(
    cfg: Config, w: World, sid: nat, s: Session, p: Plan, busyT: set<string>, busyB: set<string>, now: Time, a: Uuid,
    r: Uuid)
    requires s.plan == Some(p) && PlanOk(cfg, w, sid, s)
    requires CreateFn(cfg.Factory(), p, busyT, busyB, now, a, r).Stage?
    ensures var write := CreateFn(cfg.Factory(), p, busyT, busyB, now, a, r).write;
            && write.Insert? && write.appointment == a && write.vehicle == VehicleRow(p.command.user, p.command.vehicle)
            && write.hold == Reservation(r, a, now, now + cfg.Factory().reservationTTL, p.command.key)
            && write.details == BuiltDetails(p.command.Data(p.vehicle), p.entry.duration, write.details.technician,
               write.details.bay)
            && Picked(write.details, p, busyT, busyB)
            && Sound(cfg, write.details, p.validatedAt)
  {
    FirstFreeMember(TechnicianIds(p.technicians), busyT);
    FirstFreeMember(BayIds(p.bays), busyB);
    PermutedIds(p.technicians, ListedTechnicians(cfg.catalog, cfg.roster, p.command),
        FirstFree(TechnicianIds(p.technicians), busyT));
    NoBuilderErrors(cfg.Factory(), p.command.Data(0), p.validatedAt);
  }

  /** What a booking decides: a replay of its key's row, a refusal other than a mismatch, or a
      sound insert. */
  lemma BookingDecision(cfg: Config, w: World, sid: nat, s: Session, v: View, a: Uuid, r: Uuid)
    requires s.plan.Some? && PlanOk(cfg, w, sid, s)
    requires a in w.issued && w.issued[a] == sid && r in w.issued && w.issued[r] == sid
    ensures match DecideBooking(cfg.Factory(), s.plan.value, v.snapshot, v.began, w.clock, a, r)
            case Replay(found) =>
              found in v.snapshot.reservations && v.snapshot.reservations[found].key == s.plan.value.command.key
            case Reject(e) => e != ReservationMismatch
            case Stage(write) =>
              write.Insert? && write.hold.uuid == r &&
              InsertOk(cfg, w, sid, s.plan.value, v, w.clock, write.appointment, write.details, write.hold,
                  write.vehicle)
  {
    var p := s.plan.value;
    var busyT, busyB := BusyTechnicians(v.snapshot, p.Query(v.began)), BusyBays(v.snapshot, p.Query(v.began));
    hide PlanOk, Sound, CreateFn, Picked, BusyTechnicians, BusyBays;
    CreateFnShape(cfg.Factory(), p, busyT, busyB, w.clock, a, r);
    if CreateFn(cfg.Factory(), p, busyT, busyB, w.clock, a, r).Stage? {
      CreateFnOk(cfg, w, sid, s, p, busyT, busyB, w.clock, a, r);
    }
  }

  lemma SamePlan(cfg: Config, w: World, sid: nat, s: Session, s': Session)
    requires PlanOk(cfg, w, sid, s) && s'.plan == s.plan && s'.command == s.command
    ensures PlanOk(cfg, w, sid, s')
  {
  }

  /** What a session that reads, or has staged, may rely on. */
  predicate Informed(cfg: Config, w: World, sid: nat, s: Session, v: View) {
    && s.attempts <= Database.MAX_TRIES && PlanOk(cfg, w, sid, s) && ViewOk(w, v)
    && (s.command.Book? ==> s.plan.Some?) && (s.plan.Some? ==> s.plan.value.validatedAt <= v.began)
  }

  lemma ReadingIsInformed(cfg: Config, w: World, sid: nat, s: Session)
    requires SessionOk(cfg, w, sid, s) && s.phase.Reading?
    ensures Informed(cfg, w, sid, s, s.phase.view) && s.phase.view.takenAt <= w.clock
  {
    hide PlanOk;
  }

  lemma InformedMayStage(cfg: Config, w: World, sid: nat, s: Session)
    requires s.phase.Staged? && Informed(cfg, w, sid, s, s.phase.view)
    requires s.phase.view.takenAt <= s.phase.decidedAt <= w.clock
    requires WriteOk(cfg, w, sid, s, s.phase.view, s.phase.decidedAt, s.phase.write)
    ensures SessionOk(cfg, w, sid, s)
  {
    hide PlanOk, ViewOk, WriteOk;
  }

  lemma StagedOk(cfg: Config, w: World, sid: nat, s: Session, write: Write, captured: Uuid)
    requires SessionOk(cfg, w, sid, s) && s.phase.Reading?
    requires WriteOk(cfg, w, sid, s.(phase := Staged(s.phase.view, w.clock, write), captured := Some(captured)),
                     s.phase.view, w.clock, write)
    ensures SessionOk(cfg, w, sid, s.(phase := Staged(s.phase.view, w.clock, write), captured := Some(captured)))
  {
    hide SessionOk, ViewOk, WriteOk, PlanOk;
    var s' := s.(phase := Staged(s.phase.view, w.clock, write), captured := Some(captured));
    ReadingIsInformed(cfg, w, sid, s);
    SamePlan(cfg, w, sid, s, s');
    InformedMayStage(cfg, w, sid, s');
  }

  lemma RefusedOk(cfg: Config, w: World, sid: nat, s: Session, e: Error)
    requires SessionOk(cfg, w, sid, s) && e != ReservationMismatch
    ensures SessionOk(cfg, w, sid, s.(phase := Done(Refused(e))))
  {
    hide ViewOk, WriteOk, PlanOk;
    SamePlan(cfg, w, sid, s, s.(phase := Done(Refused(e))));
  }

  lemma DecidedBooking(cfg: Config, w: World, sid: nat, s: Session, a: Uuid, r: Uuid)
    requires s.command.Book? && s.plan.Some? && s.phase.Reading? && SessionOk(cfg, w, sid, s)
    requires a in w.issued && w.issued[a] == sid && r in w.issued && w.issued[r] == sid
    ensures SessionOk(cfg, w, sid, Decided(cfg, s, w.clock, a, r))
  {
    var v, p := s.phase.view, s.plan.value;
    assert PlanOk(cfg, w, sid, s) && s.command == Book(p.command);
    hide SessionOk, ViewOk, InsertOk, DecideBooking, PlanOk;
    BookingDecision(cfg, w, sid, s, v, a, r);
    match DecideBooking(cfg.Factory(), p, v.snapshot, v.began, w.clock, a, r)
    case Replay(found) => StagedOk(cfg, w, sid, s, NoWrite, found);
    case Reject(e) => RefusedOk(cfg, w, sid, s, e);
    case Stage(write) => StagedOk(cfg, w, sid, s, write, r);
  }

  lemma DecidedStatus(cfg: Config, w: World, sid: nat, s: Session, a: Uuid, r: Uuid)
    requires !s.command.Book? && s.phase.Reading? && SessionOk(cfg, w, sid, s)
    ensures SessionOk(cfg, w, sid, Decided(cfg, s, w.clock, a, r))
  {
    hide SessionOk, ViewOk, PlanOk;
    var s' := Decided(cfg, s, w.clock, a, r);
    match s'.phase
    case Staged(_, _, write) => StagedOk(cfg, w, sid, s, write, write.target);
    case Done(Refused(e)) => RefusedOk(cfg, w, sid, s, e);
  }

  // ---- Steps that commit nothing ----

  lemma SnapshotOk(cfg: Config, w: World, began: Time)
    requires LogOk(cfg, w) && Covered(w) && began <= w.clock
    ensures ViewOk(w, View(began, w.store, |w.log|, w.clock))
  {
    hide LogOk, Covered, EntryOk, RowSeen;
    var v := View(began, w.store, |w.log|, w.clock);
    forall i | 0 <= i < v.seen
      ensures w.log[i].appointment in v.snapshot.appointments && w.log[i].reservation in v.snapshot.reservations
    {
      EntryStored(cfg, w, i);
    }
    forall a | a in v.snapshot.appointments ensures RowSeen(w, v, a) {
      var i := IndexOf(w, a);
      RowSeenNow(cfg, w, i, began);
    }
  }

  lemma EntryStored(cfg: Config, w: World, i: nat)
    requires LogOk(cfg, w) && i < |w.log|
    ensures EntryOk(cfg, w, w.log[i]) && Stored(w, w.log[i])
  {
    hide Sound, PathOk;
  }

  lemma IndexOf(w: World, a: Uuid) returns (i: nat)
    requires Covered(w) && a in w.store.appointments
    ensures i < |w.log| && w.log[i].appointment == a
  {
    i :| 0 <= i < |w.log| && w.log[i].appointment == a;
  }

  lemma IndexOfReservation(w: World, r: Uuid) returns (i: nat)
    requires Covered(w) && r in w.store.reservations
    ensures i < |w.log| && w.log[i].reservation == r
  {
    i :| 0 <= i < |w.log| && w.log[i].reservation == r;
  }

  lemma CoveredKeys(w: World)
    requires Covered(w)
    ensures w.history.Keys == w.store.appointments.Keys
  {
  }

  lemma RowSeenNow(cfg: Config, w: World, i: nat, began: Time)
    requires LogOk(cfg, w) && i < |w.log|
    ensures w.log[i].appointment in w.store.appointments
    ensures RowSeen(w, View(began, w.store, |w.log|, w.clock), w.log[i].appointment)
  {
    hide LogOk, Sound;
    EntryStored(cfg, w, i);
  }

  /** The step's new session is sound; s is the old one, judged in the new world. */
  lemma AdvanceOk(cfg: Config, w: World, w': World, step: Step)
    requires !step.Tick? && !step.Call? && !step.Commit?
    requires Inv(cfg, w) && Enabled(cfg, w, step) && w' == Apply(cfg, w, step) && OneSession(w, w', step.sid)
    ensures SessionOk(cfg, w', step.sid, w'.sessions[step.sid])
  {
    hide LogOk, Covered, Owners, Exclusive, Later, SessionOk, Advance, OneSession, CanPrepare;
    OneSessionLater(w, w', step.sid);
    var s := w.sessions[step.sid];
    assert SessionOk(cfg, w, step.sid, s);
    SessionStable(cfg, w, w', step.sid, s);
    match step
    case Decide(sid, a, r) =>
      AdvanceDecide(cfg, w, w', sid, a, r);
    case Snapshot(sid) => AdvanceSnapshot(cfg, w, w', sid);
    case Prepare(sid, x, sorted) => AdvancePrepare(cfg, w, w', sid, x, sorted);
    case Violate(_) => AdvanceBackstop(cfg, w, w', step);
    case Recover(_) => AdvanceBackstop(cfg, w, w', step);
    case FastPath(sid) => AdvanceFastPath(cfg, w, w', sid);
    case _ => AdvanceOther(cfg, w, w', step);
  }

  lemma AdvanceDecide(cfg: Config, w: World, w': World, sid: nat, a: Uuid, r: Uuid)
    requires Enabled(cfg, w, Decide(sid, a, r)) && w' == Apply(cfg, w, Decide(sid, a, r))
    requires SessionOk(cfg, w', sid, w.sessions[sid])
    ensures SessionOk(cfg, w', sid, w'.sessions[sid])
  {
    hide SessionOk, Decided;
    if w.sessions[sid].command.Book? {
      DecidedBooking(cfg, w', sid, w.sessions[sid], a, r);
    } else {
      DecidedStatus(cfg, w', sid, w.sessions[sid], a, r);
    }
  }

  lemma AdvanceSnapshot(cfg: Config, w: World, w': World, sid: nat)
    requires Enabled(cfg, w, Snapshot(sid)) && w' == Apply(cfg, w, Snapshot(sid))
    requires SessionOk(cfg, w', sid, w.sessions[sid]) && OneSession(w, w', sid) && Inv(cfg, w)
    ensures SessionOk(cfg, w', sid, w'.sessions[sid])
  {
    hide LogOk, Covered, Owners, Exclusive, ViewOk, SessionsOk;
    LogUntouched(cfg, w, w', sid);
    CoveredUntouched(w, w', sid);
    SnapshotOk(cfg, w', w.sessions[sid].phase.began);
  }

  lemma PrepareChecks(cfg: Config, c: BookCommand, now: Time)
    ensures var e := PrepareError(cfg.Factory(), cfg.catalog, cfg.roster, c, now);
            && e != Some(ReservationMismatch)
            && (e == None ==> BuilderErrors(cfg.Factory(), c.Data(0), now) == [] && c.serviceType in cfg.catalog)
  {
    hide BuilderErrors, EligibleTechnicians, EligibleBays;
  }

  lemma AdvancePrepare(cfg: Config, w: World, w': World, sid: nat, x: Uuid, sorted: seq<Technician>)
    requires Enabled(cfg, w, Prepare(sid, x, sorted)) && w' == Apply(cfg, w, Prepare(sid, x, sorted))
    requires SessionOk(cfg, w', sid, w.sessions[sid])
    ensures SessionOk(cfg, w', sid, w'.sessions[sid])
  {
    hide ViewOk, WriteOk, OutcomeOk, PrepareError, BuilderErrors, ListedTechnicians, ListedBays;
    PrepareChecks(cfg, w.sessions[sid].command.booking, w.clock);
  }

  lemma AdvanceFastPath(cfg: Config, w: World, w': World, sid: nat)
    requires Enabled(cfg, w, FastPath(sid)) && w' == Apply(cfg, w, FastPath(sid))
    requires SessionOk(cfg, w', sid, w.sessions[sid])
    ensures SessionOk(cfg, w', sid, w'.sessions[sid])
  {
    hide ViewOk, WriteOk, BuilderErrors, ListedTechnicians, ListedBays;
  }

  lemma AdvanceBackstop(cfg: Config, w: World, w': World, step: Step)
    requires step.Violate? || step.Recover?
    requires Enabled(cfg, w, step) && w' == Apply(cfg, w, step)
    requires SessionOk(cfg, w', step.sid, w.sessions[step.sid])
    ensures SessionOk(cfg, w', step.sid, w'.sessions[step.sid])
  {
    hide ViewOk, Sound, Picked, BuilderErrors, ListedTechnicians, ListedBays;
  }

  lemma AdvanceOther(cfg: Config, w: World, w': World, step: Step)
    requires step.Validate? || step.Begin? || step.Abort? || step.Fail?
    requires Enabled(cfg, w, step) && w' == Apply(cfg, w, step)
    requires SessionOk(cfg, w', step.sid, w.sessions[step.sid])
    ensures SessionOk(cfg, w', step.sid, w'.sessions[step.sid])
  {
    hide ViewOk, Sound, StartTimeErrorDetail, BusyTechnicians, BusyBays, BuilderErrors, ListedTechnicians;
  }

  /** A step that commits nothing changes one session, which was not done, and issues UUIDs to it. */
  predicate OneSession(w: World, w': World, sid: nat) {
    && w'.clock == w.clock && w'.store == w.store && w'.log == w.log && w'.history == w.history
    && sid in w'.sessions && w'.sessions == w.sessions[sid := w'.sessions[sid]] && !Won(w, sid)
    && (forall x | x in w.issued :: x in w'.issued && w'.issued[x] == w.issued[x])
    && (forall x | x in w'.issued && x !in w.issued :: w'.issued[x] == sid)
  }

  lemma AdvanceOneSession(cfg: Config, w: World, w': World, step: Step)
    requires !step.Tick? && !step.Call? && !step.Commit?
    requires Enabled(cfg, w, step) && w' == Apply(cfg, w, step)
    ensures OneSession(w, w', step.sid)
  {
    hide Advance, CanPrepare, StartTimeErrorDetail;
  }

  lemma CallOneSession(cfg: Config, w: World, w': World, sid: nat, command: Command)
    requires Enabled(cfg, w, Call(sid, command)) && w' == Apply(cfg, w, Call(sid, command))
    ensures OneSession(w, w', sid)
    ensures w'.sessions[sid] == Session(command, if command.Book? then Called else Ready, None, 0, None)
  {
  }

  lemma OneSessionLater(w: World, w': World, sid: nat)
    requires OneSession(w, w', sid)
    ensures Later(w, w')
  {
  }

  /** The parts of the invariant about the tables do not look at sessions or at issued. */
  lemma LogUntouched(cfg: Config, w: World, w': World, sid: nat)
    requires OneSession(w, w', sid) && LogOk(cfg, w)
    ensures LogOk(cfg, w')
  {
    hide Sound, PathOk;
    forall i | 0 <= i < |w'.log| ensures EntryOk(cfg, w', w'.log[i]) {
      assert EntryOk(cfg, w, w.log[i]);
    }
  }

  lemma ExclusiveUntouched(w: World, w': World, sid: nat)
    requires OneSession(w, w', sid) && Exclusive(w)
    ensures Exclusive(w')
  {
    hide Clash;
    forall i, j | 0 <= i < j < |w'.log| ensures Apart(w', w'.log[i], w'.log[j]) {
      assert Apart(w, w.log[i], w.log[j]);
    }
  }

  lemma CoveredUntouched(w: World, w': World, sid: nat)
    requires OneSession(w, w', sid) && Covered(w)
    ensures Covered(w')
  {
  }

  lemma OwnersUntouched(w: World, w': World, sid: nat)
    requires OneSession(w, w', sid) && Owners(w)
    ensures Owners(w')
  {
    forall x | Won(w, x) ensures Won(w', x) && w'.sessions[x] == w.sessions[x] {
    }
    hide Won;
    forall a, m | a in w'.history && 0 <= m < |w'.history[a]| ensures Credited(w', a, m) {
      assert Credited(w, a, m);
    }
  }

  lemma SessionsUntouched(cfg: Config, w: World, w': World, sid: nat)
    requires OneSession(w, w', sid) && SessionsOk(cfg, w) && SessionOk(cfg, w', sid, w'.sessions[sid])
    ensures SessionsOk(cfg, w')
  {
    hide SessionOk, Won, Later;
    OneSessionLater(w, w', sid);
    SessionsStable(cfg, w, w', sid);
  }

  lemma OneSessionKeeps(cfg: Config, w: World, w': World, sid: nat)
    requires OneSession(w, w', sid) && Inv(cfg, w) && SessionOk(cfg, w', sid, w'.sessions[sid])
    ensures Inv(cfg, w') && Later(w, w')
  {
    hide OneSession, LogOk, Covered, Owners, Exclusive, SessionsOk, SessionOk, Later;
    OneSessionLater(w, w', sid);
    LogUntouched(cfg, w, w', sid);
    CoveredUntouched(w, w', sid);
    ExclusiveUntouched(w, w', sid);
    OwnersUntouched(w, w', sid);
    SessionsUntouched(cfg, w, w', sid);
  }

  lemma AdvanceKeeps(cfg: Config, w: World, w': World, step: Step)
    requires !step.Tick? && !step.Call? && !step.Commit?
    requires Inv(cfg, w) && Enabled(cfg, w, step) && w' == Apply(cfg, w, step)
    ensures Inv(cfg, w') && Later(w, w')
  {
    hide *;
    AdvanceOneSession(cfg, w, w', step);
    AdvanceOk(cfg, w, w', step);
    OneSessionKeeps(cfg, w, w', step.sid);
  }

  lemma CallKeeps(cfg: Config, w: World, w': World, sid: nat, command: Command)
    requires Inv(cfg, w) && Enabled(cfg, w, Call(sid, command)) && w' == Apply(cfg, w, Call(sid, command))
    ensures Inv(cfg, w') && Later(w, w')
  {
    hide Inv, OneSession, Enabled, Apply, ViewOk, WriteOk, OutcomeOk, Later;
    CallOneSession(cfg, w, w', sid, command);
    OneSessionKeeps(cfg, w, w', sid);
  }

  // ---- The clock ----

  lemma TickLater(cfg: Config, w: World, w': World, elapsed: nat)
    requires w' == Apply(cfg, w, Tick(elapsed)) && Covered(w)
    ensures Later(w, w')
  {
    hide Covered;
    CoveredKeys(w);
  }

  lemma TickKeepsLog(cfg: Config, w: World, w': World, elapsed: nat)
    requires w' == Apply(cfg, w, Tick(elapsed)) && LogOk(cfg, w) && Exclusive(w)
    ensures LogOk(cfg, w') && Exclusive(w')
  {
    hide Sound, Clash;
    forall i | 0 <= i < |w'.log| ensures EntryOk(cfg, w', w'.log[i]) {
      assert EntryOk(cfg, w, w.log[i]);
    }
    forall i, j | 0 <= i < j < |w'.log| ensures Apart(w', w'.log[i], w'.log[j]) {
      assert Apart(w, w.log[i], w.log[j]);
    }
  }

  lemma TickKeepsCovered(cfg: Config, w: World, w': World, elapsed: nat)
    requires w' == Apply(cfg, w, Tick(elapsed)) && Covered(w)
    ensures Covered(w')
  {
  }

  lemma TickKeepsOwners(cfg: Config, w: World, w': World, elapsed: nat)
    requires w' == Apply(cfg, w, Tick(elapsed)) && Owners(w)
    ensures Owners(w')
  {
    forall x ensures Won(w', x) == Won(w, x) {
    }
    hide Won;
    forall a, m | a in w'.history && 0 <= m < |w'.history[a]| ensures Credited(w', a, m) {
      assert Credited(w, a, m);
    }
  }

  lemma TickKeeps(cfg: Config, w: World, w': World, elapsed: nat)
    requires Inv(cfg, w) && w' == Apply(cfg, w, Tick(elapsed))
    ensures Inv(cfg, w') && Later(w, w')
  {
    hide LogOk, Covered, Owners, Exclusive, SessionOk, Later;
    TickLater(cfg, w, w', elapsed);
    TickKeepsLog(cfg, w, w', elapsed);
    TickKeepsCovered(cfg, w, w', elapsed);
    TickKeepsOwners(cfg, w, w', elapsed);
    forall sid | sid in w'.sessions ensures SessionOk(cfg, w', sid, w'.sessions[sid]) {
      SessionStable(cfg, w, w', sid, w.sessions[sid]);
    }
  }
}
