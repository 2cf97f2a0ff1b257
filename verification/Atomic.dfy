/** The interleaved protocol refines an atomic machine: with both deadlines met, every step of
    every run does nothing to the tables, or does at once what one command asks. */
module Atomic {
  import opened Wrappers
  import opened Domain
  import opened Tables
  import opened Booking
  import opened Protocol
  import opened Invariants
  import opened Preservation
  import opened Commits
  import opened Safety
  import opened Claims
  import opened Records

  // ---- The atomic machine ----

  /** An unused key books, for the command's window, a technician and a bay that are free right
      now, with a live hold. */
  predicate BooksAtOnce(
    cfg: Config, store: Store, now: Time, store': Store, c: BookCommand, a: Uuid, r: Uuid, x: Uuid)
  {
    && a !in store.appointments && r !in store.reservations && x !in store.vehicles && !HasKey(store, c.key)
    && a in store'.appointments && r in store'.reservations && x in store'.vehicles
    && store' == Store(store.vehicles[x := store'.vehicles[x]], store.appointments[a := store'.appointments[a]],
                       store.reservations[r := store'.reservations[r]])
    && var row, hold := store'.appointments[a], store'.reservations[r];
    && row.status == Pending && row.details.vehicle == x && row.details.start < row.details.end
    && RowsFor(cfg, c, row.details, hold, store'.vehicles[x])
    && hold.appointment == a && !hold.IsExpired(now)
    && row.details.technician !in BusyTechnicians(store, OwnWindow(row.details, now))
    && row.details.bay !in BusyBays(store, OwnWindow(row.details, now))
  }

  predicate AtomicBook(cfg: Config, store: Store, now: Time, store': Store, c: BookCommand) {
    exists a, r, x | a in store'.appointments && r in store'.reservations && x in store'.vehicles ::
      BooksAtOnce(cfg, store, now, store', c, a, r, x)
  }

  /** The appointment that the reservation holds, the user's own and pending, becomes confirmed
      while the hold is live. */
  predicate AtomicConfirm(store: Store, now: Time, store': Store, user: string, r: Uuid) {
    r in store.reservations &&
    var hold := store.reservations[r];
    && OwnedBy(store, hold.appointment, user) && store.appointments[hold.appointment].status == Pending
    && !hold.IsExpired(now)
    && store' == UpdateAppointmentStatus(store, hold.appointment, Confirmed)
  }

  /** The very appointment, the user's own and confirmed, becomes cancelled before its start. */
  predicate AtomicCancel(store: Store, now: Time, store': Store, user: string, a: Uuid) {
    && OwnedBy(store, a, user) && store.appointments[a].status == Confirmed
       && now <= store.appointments[a].details.start
    && store' == UpdateAppointmentStatus(store, a, Cancelled)
  }

  predicate AtomicStep(cfg: Config, store: Store, now: Time, store': Store, command: Command) {
    match command
    case Book(c) => AtomicBook(cfg, store, now, store', c)
    case ConfirmHold(user, r) => AtomicConfirm(store, now, store', user, r)
    case CancelBooking(user, a) => AtomicCancel(store, now, store', user, a)
  }

  // ---- It excludes double-booking by itself ----

  lemma BookingClaimsNothingElse(
    cfg: Config, store: Store, now: Time, store': Store, c: BookCommand, a: Uuid, r: Uuid, x: Uuid, b: Uuid)
    requires BooksAtOnce(cfg, store, now, store', c, a, r, x) && Claimed(store', b, now) && b != a
    ensures Claimed(store, b, now) && store.appointments[b] == store'.appointments[b]
  {
    hide BusyTechnicians, BusyBays, HasKey;
    if store'.appointments[b].status == Pending {
      var q :| q in store'.reservations && store'.reservations[q].appointment == b
          && store'.reservations[q].expiredAt > now;
      assert q != r;
    }
  }

  lemma NewBookingIsApart(
    cfg: Config, store: Store, now: Time, store': Store, c: BookCommand, a: Uuid, r: Uuid, x: Uuid, b: Uuid)
    requires BooksAtOnce(cfg, store, now, store', c, a, r, x) && Claimed(store', b, now) && b != a
    ensures !Clash(store'.appointments[a].details, store'.appointments[b].details)
    ensures !Clash(store'.appointments[b].details, store'.appointments[a].details)
  {
    BookingClaimsNothingElse(cfg, store, now, store', c, a, r, x, b);
    hide Claimed, HasKey, BusyTechnicians, BusyBays;
    BusyIsListed(store, OwnWindow(store'.appointments[a].details, now), b);
  }

  lemma StatusClaims(store: Store, now: Time, a: Uuid, status: Status, b: Uuid)
    requires a in store.appointments && (status == Confirmed ==> Claimed(store, a, now)) && status != Pending
    requires Claimed(UpdateAppointmentStatus(store, a, status), b, now)
    ensures Claimed(store, b, now)
            && store.appointments[b].details == UpdateAppointmentStatus(store, a, status).appointments[b].details
  {
  }

  /** One atomic command at a time, nothing is ever claimed twice. */
  lemma AtomicKeepsExclusion(cfg: Config, store: Store, now: Time, store': Store, command: Command)
    requires Exclusion(store, now) && AtomicStep(cfg, store, now, store', command)
    ensures Exclusion(store', now)
  {
    hide Claimed, Clash, BooksAtOnce;
    match command
    case Book(c) =>
      var a, r, x :| a in store'.appointments && r in store'.reservations && x in store'.vehicles
          && BooksAtOnce(cfg, store, now, store', c, a, r, x);
      forall b, d | b in store'.appointments && d in store'.appointments && b != d && Claimed(store', b, now)
             && Claimed(store', d, now)
        ensures !Clash(store'.appointments[b].details, store'.appointments[d].details)
      {
        if b == a {
          NewBookingIsApart(cfg, store, now, store', c, a, r, x, d);
        } else if d == a {
          NewBookingIsApart(cfg, store, now, store', c, a, r, x, b);
        } else {
          BookingClaimsNothingElse(cfg, store, now, store', c, a, r, x, b);
          BookingClaimsNothingElse(cfg, store, now, store', c, a, r, x, d);
          ClaimedIsStored(store, b, now);
          ClaimedIsStored(store, d, now);
        }
      }
    case ConfirmHold(_, r) =>
      LiveIsClaimed(store, r, now);
      StatusKeepsExclusion(store, now, store.reservations[r].appointment, Confirmed);
    case CancelBooking(_, a) =>
      StatusKeepsExclusion(store, now, a, Cancelled);
  }

  lemma ClaimedIsStored(store: Store, a: Uuid, now: Time)
    requires Claimed(store, a, now)
    ensures a in store.appointments
  {
  }

  lemma LiveIsClaimed(store: Store, r: Uuid, now: Time)
    requires r in store.reservations && !store.reservations[r].IsExpired(now)
    requires store.reservations[r].appointment in store.appointments
    requires store.appointments[store.reservations[r].appointment].status == Pending
    ensures Claimed(store, store.reservations[r].appointment, now)
  {
    assert store.reservations[r].expiredAt > now;
  }

  lemma StatusKeepsExclusion(store: Store, now: Time, a: Uuid, status: Status)
    requires Exclusion(store, now) && a in store.appointments && (status == Confirmed ==> Claimed(store, a, now))
             && status != Pending
    ensures Exclusion(UpdateAppointmentStatus(store, a, status), now)
  {
    hide Claimed, Clash;
    var store' := UpdateAppointmentStatus(store, a, status);
    forall b, d | b in store'.appointments && d in store'.appointments && b != d && Claimed(store', b, now)
           && Claimed(store', d, now)
      ensures !Clash(store'.appointments[b].details, store'.appointments[d].details)
    {
      StatusClaims(store, now, a, status, b);
      StatusClaims(store, now, a, status, d);
    }
  }

  // ---- The protocol refines it ----

  /** The deadlines, at the commit: a booking's own hold is live, a confirmed hold is live, a
      cancelled appointment has not started. */
  predicate InTime(w: World, step: Step) {
    step.Commit? && IsStaged(w, step.sid) ==>
      var s := w.sessions[step.sid];
      match s.command
      case Book(_) => s.phase.write.Insert? ==> !s.phase.write.hold.IsExpired(w.clock)
      case ConfirmHold(_, r) => r in w.store.reservations && !w.store.reservations[r].IsExpired(w.clock)
      case CancelBooking(_, a) => a in w.store.appointments && w.clock <= w.store.appointments[a].details.start
  }

  lemma BookingIsAtomic(cfg: Config, w: World, w': World, sid: nat)
    requires Committing(cfg, w, w', sid) && w.sessions[sid].phase.write.Insert? && Owners(w) && Covered(w)
    requires w.sessions[sid].plan.Some? && ResourcesFree(w, w.sessions[sid]) && InTime(w, Commit(sid))
    ensures w.sessions[sid].command.Book?
            && AtomicBook(cfg, w.store, w.clock, w'.store, w.sessions[sid].command.booking)
  {
    hide Owners, Covered, RowSeen, ViewOk, Serializable, BusyTechnicians, BusyBays, BuilderErrors, ListedTechnicians,
         ListedBays, HasKey;
    BookingShape(cfg, w, w', sid);
    var e := NewEntry(w, sid);
    assert w'.store.appointments[e.appointment] == AppointmentRow(w.sessions[sid].phase.write.details, Pending);
    assert w'.store.reservations[e.reservation] == w.sessions[sid].phase.write.hold;
    assert w'.store.vehicles[e.vehicle] == w.sessions[sid].phase.write.vehicle;
    assert BooksAtOnce(cfg, w.store, w.clock, w'.store, w.sessions[sid].command.booking, e.appointment, e.reservation,
           e.vehicle);
  }

  /** The one new reservation is the staged hold, so an atomic booking is one in time. */
  lemma AtomicBookingIsInTime(cfg: Config, w: World, w': World, sid: nat)
    requires Committing(cfg, w, w', sid) && w.sessions[sid].phase.write.Insert? && Owners(w) && Covered(w)
    requires w.sessions[sid].command.Book?
             && AtomicBook(cfg, w.store, w.clock, w'.store, w.sessions[sid].command.booking)
    ensures InTime(w, Commit(sid))
  {
    hide Owners, Covered, RowSeen, ViewOk, Serializable, BusyTechnicians, BusyBays, BuilderErrors, ListedTechnicians,
         ListedBays, HasKey, RowsFor;
    BookingShape(cfg, w, w', sid);
    var c, e := w.sessions[sid].command.booking, NewEntry(w, sid);
    assert w'.store.reservations[e.reservation] == w.sessions[sid].phase.write.hold
           && e.reservation !in w.store.reservations;
    var a, r, x :| a in w'.store.appointments && r in w'.store.reservations && x in w'.store.vehicles
                   && BooksAtOnce(cfg, w.store, w.clock, w'.store, c, a, r, x);
    assert r == e.reservation;
  }

  lemma StatusIsAtomic(cfg: Config, w: World, w': World, sid: nat)
    requires Committing(cfg, w, w', sid) && w.sessions[sid].phase.write.SetStatus? && LogOk(cfg, w) && Covered(w)
    ensures !w.sessions[sid].command.Book?
    ensures AtomicStep(cfg, w.store, w.clock, w'.store, w.sessions[sid].command) <==> InTime(w, Commit(sid))
  {
    hide LogOk, Covered, RowSeen, BuilderErrors, ListedTechnicians, ListedBays, HasLiveHold;
    StatusShape(cfg, w, w', sid);
    var a := w.sessions[sid].phase.write.target;
    assert w.store.appointments[a] == w.sessions[sid].phase.view.snapshot.appointments[a];
    assert w'.store == UpdateAppointmentStatus(w.store, a, w.sessions[sid].phase.write.status);
  }

  /** Every step of every interleaving leaves the tables alone, or is the commit of a command
      and does at once just what that command asks, if and only if it is in time. */
  lemma InterleavingsAreAtomic(cfg: Config, w: World, step: Step)
    requires Reachable(cfg, w) && Timely(w) && Enabled(cfg, w, step)
    ensures var store' := Apply(cfg, w, step).store;
            store' == w.store ||
            (step.Commit? && step.sid in w.sessions &&
             (AtomicStep(cfg, w.store, w.clock, store', w.sessions[step.sid].command) <==> InTime(w, step)))
  {
    hide Reachable, Inv, LogOk, Covered, Owners, Exclusive, SessionsOk, Timely, CanPrepare, Advance, Committing,
         CanCommit, Committed, AtomicBook, AtomicConfirm, AtomicCancel, ResourcesFree, HasLiveHold;
    if step.Commit? {
      ReachableOk(cfg, w);
      InvParts(cfg, w);
      CommitStep(cfg, w, step.sid);
      var w' := Apply(cfg, w, step);
      if w.sessions[step.sid].phase.write.NoWrite? {
        ReplayWritesNothing(w, w', step.sid);
      } else if w.sessions[step.sid].phase.write.Insert? {
        BookingIsAtomicIff(cfg, w, step.sid);
      } else {
        StatusIsAtomic(cfg, w, w', step.sid);
      }
    } else if !step.Tick? {
      OnlyCommitsWrite(cfg, w, step);
    }
  }

  lemma BookingIsAtomicIff(cfg: Config, w: World, sid: nat)
    requires Reachable(cfg, w) && Timely(w) && Enabled(cfg, w, Commit(sid)) && w.sessions[sid].phase.write.Insert?
    ensures w.sessions[sid].command.Book?
    ensures AtomicBook(cfg, w.store, w.clock, Apply(cfg, w, Commit(sid)).store, w.sessions[sid].command.booking) <==>
            InTime(w, Commit(sid))
  {
    hide Reachable, Inv, LogOk, Covered, Owners, Exclusive, SessionsOk, Timely, Committing, Committed, AtomicBook,
         ResourcesFree, Serializable, HasKey;
    ReachableOk(cfg, w);
    InvParts(cfg, w);
    CommitStep(cfg, w, sid);
    var w' := Apply(cfg, w, Commit(sid));
    InsertHasPlan(w, sid);
    if InTime(w, Commit(sid)) {
      DecisionStillRight(cfg, w, sid);
      BookingIsAtomic(cfg, w, w', sid);
    } else if AtomicBook(cfg, w.store, w.clock, w'.store, w.sessions[sid].command.booking) {
      AtomicBookingIsInTime(cfg, w, w', sid);
    }
  }

  lemma InsertHasPlan(w: World, sid: nat)
    requires IsStaged(w, sid) && CanCommit(w, w.sessions[sid]) && w.sessions[sid].phase.write.Insert?
    ensures StagedBooking(w, sid)
  {
    hide Serializable, HasKey;
  }

  // ---- Confirms in time are timely ----

  lemma TimelyConfirm(cfg: Config, w: World, w': World, sid: nat)
    requires Committing(cfg, w, w', sid) && w.sessions[sid].phase.write.SetStatus? && LogOk(cfg, w) && Covered(w)
    requires Timely(w) && InTime(w, Commit(sid))
    ensures Timely(w')
  {
    hide LogOk, Covered, RowSeen, BuilderErrors, ListedTechnicians, ListedBays, HasLiveHold, Won;
    StatusShape(cfg, w, w', sid);
    var target := w.sessions[sid].phase.write.target;
    var i := IndexOf(w, target);
    EntryPath(cfg, w, i);
    forall a, r | a in w'.history && r in w'.store.reservations && Held(w', a, r) && |w'.history[a]| > 1
      ensures w'.history[a][1].at < w'.store.reservations[r].expiredAt
    {
      assert Held(w, a, r);
      if a == target {
        HoldIsUnique(cfg, w, i, r);
        if w.sessions[sid].command.ConfirmHold? {
          HoldIsUnique(cfg, w, i, w.sessions[sid].command.reservation);
        }
      }
    }
  }

  lemma TimelyBooking(cfg: Config, w: World, w': World, sid: nat)
    requires Committing(cfg, w, w', sid) && w.sessions[sid].phase.write.Insert? && Owners(w) && Covered(w) && Timely(w)
    ensures Timely(w')
  {
    assert IsStaged(w, sid);
    hide Committing, Owners, Covered, Timely, OneBooking;
    BookingShape(cfg, w, w', sid);
    CoveredKeys(w);
    var s := w.sessions[sid];
    TimelyAfterBooking(w, w', sid, NewEntry(w, sid), s.phase.write.details, s.phase.write.hold, s.phase.write.vehicle,
                       s.phase.decidedAt);
  }

  lemma TimelyUntouched(w: World, w': World)
    requires Timely(w) && w'.history == w.history && w'.store.reservations == w.store.reservations
    requires w'.store.appointments == w.store.appointments
    ensures Timely(w')
  {
  }

  lemma QuietStep(cfg: Config, w: World, step: Step)
    requires Enabled(cfg, w, step)
    requires step.Commit? ==> IsStaged(w, step.sid) && w.sessions[step.sid].phase.write.NoWrite?
    ensures var w' := Apply(cfg, w, step); w'.history == w.history && w'.store == w.store
  {
    hide Advance, CanPrepare;
  }

  lemma InTimeKeepsTimely(cfg: Config, w: World, step: Step)
    requires Reachable(cfg, w) && Timely(w) && Enabled(cfg, w, step) && InTime(w, step)
    ensures Timely(Apply(cfg, w, step))
  {
    hide Reachable, Inv, LogOk, Covered, Owners, Exclusive, SessionsOk, Timely, CanPrepare, Advance, Committing,
         CanCommit, Committed, InTime;
    var w' := Apply(cfg, w, step);
    if step.Commit? && !w.sessions[step.sid].phase.write.NoWrite? {
      ReachableOk(cfg, w);
      InvParts(cfg, w);
      CommitStep(cfg, w, step.sid);
      if w.sessions[step.sid].phase.write.Insert? {
        TimelyBooking(cfg, w, w', step.sid);
      } else {
        TimelyConfirm(cfg, w, w', step.sid);
      }
    } else {
      QuietStep(cfg, w, step);
      TimelyUntouched(w, w');
    }
  }

  // ---- Whole runs ----

  /** What the atomic machine shows of a world. */
  datatype Moment = Moment(clock: Time, store: Store)

  /** Time passes, or one command is done at once. */
  ghost predicate Moves(cfg: Config, m: Moment, m': Moment) {
    || (m'.store == m.store && m.clock <= m'.clock)
    || (m'.clock == m.clock && exists command :: AtomicStep(cfg, m.store, m.clock, m'.store, command))
  }

  ghost predicate AtomicRun(cfg: Config, moments: seq<Moment>) {
    && moments != [] && moments[0].store == EMPTY
    && forall i | 0 <= i < |moments| - 1 :: Moves(cfg, moments[i], moments[i + 1])
  }

  /** The atomic machine never books twice: a tick ends claims and starts none. */
  lemma {:induction false} AtomicRunsExclude(cfg: Config, moments: seq<Moment>)
    requires AtomicRun(cfg, moments)
    ensures forall i | 0 <= i < |moments| :: Exclusion(moments[i].store, moments[i].clock)
  {
    hide Exclusion, Moves;
    var n := |moments| - 1;
    if n == 0 {
      NothingStored(moments[0].clock);
    } else {
      AtomicRunsExclude(cfg, moments[..n]);
      assert moments[..n][n - 1] == moments[n - 1];
      assert Moves(cfg, moments[n - 1], moments[n]);
      MoveKeepsExclusion(cfg, moments[n - 1], moments[n]);
      forall i | 0 <= i < |moments| ensures Exclusion(moments[i].store, moments[i].clock) {
        if i < n { assert moments[..n][i] == moments[i]; }
      }
    }
  }

  lemma NothingStored(clock: Time)
    ensures Exclusion(EMPTY, clock)
  {
  }

  lemma MoveKeepsExclusion(cfg: Config, m: Moment, m': Moment)
    requires Moves(cfg, m, m') && Exclusion(m.store, m.clock)
    ensures Exclusion(m'.store, m'.clock)
  {
    hide Claimed, Clash, AtomicStep;
    if m'.store == m.store && m.clock <= m'.clock {
      forall a, b | a in m.store.appointments && b in m.store.appointments && a != b
                    && Claimed(m.store, a, m'.clock) && Claimed(m.store, b, m'.clock)
        ensures !Clash(m.store.appointments[a].details, m.store.appointments[b].details)
      {
        ClaimEarlier(m.store, a, m.clock, m'.clock);
        ClaimEarlier(m.store, b, m.clock, m'.clock);
      }
    } else {
      var command :| AtomicStep(cfg, m.store, m.clock, m'.store, command);
      AtomicKeepsExclusion(cfg, m.store, m.clock, m'.store, command);
    }
  }

  /** Every commit of the run is in time when it is made. */
  ghost predicate AllInTime(cfg: Config, w: World, trace: seq<Step>) {
    trace == [] ||
    (AllInTime(cfg, w, trace[..|trace| - 1]) &&
     match Exec(cfg, w, trace[..|trace| - 1])
     case None => false
     case Some(mid) => InTime(mid, trace[|trace| - 1]))
  }

  /** The moments of a run are those its steps go through. */
  ghost predicate MomentsOf(cfg: Config, w: World, trace: seq<Step>, moments: seq<Moment>) {
    |moments| == |trace| + 1 &&
    forall i | 0 <= i <= |trace| ::
      Exec(cfg, w, trace[..i]).Some? &&
      var mid := Exec(cfg, w, trace[..i]).value;
      moments[i] == Moment(mid.clock, mid.store)
  }

  /** A run of interleaved transactions whose commits are all in time is, step for step, a run of
      the atomic machine, and double-books nothing. */
  lemma InTimeRunsAreAtomic(cfg: Config, clock: Time, trace: seq<Step>, w: World) returns (moments: seq<Moment>)
    requires Exec(cfg, Init(clock), trace) == Some(w) && AllInTime(cfg, Init(clock), trace)
    ensures AtomicRun(cfg, moments) && MomentsOf(cfg, Init(clock), trace, moments)
    ensures forall i | 0 <= i < |moments| :: Exclusion(moments[i].store, moments[i].clock)
  {
    hide Exec, AllInTime, Exclusion, AtomicRun, MomentsOf;
    moments := AtomicMoments(cfg, clock, trace, w);
    AtomicRunsExclude(cfg, moments);
  }

  lemma {:induction false} AtomicMoments(
    cfg: Config, clock: Time, trace: seq<Step>, w: World)
    returns (moments: seq<Moment>)
    requires Exec(cfg, Init(clock), trace) == Some(w) && AllInTime(cfg, Init(clock), trace)
    ensures AtomicRun(cfg, moments) && MomentsOf(cfg, Init(clock), trace, moments)
    ensures Timely(w) && Reachable(cfg, w) && moments[|moments| - 1] == Moment(w.clock, w.store)
  {
    if trace == [] {
      moments := [Moment(clock, EMPTY)];
    } else {
      var front, last := trace[..|trace| - 1], trace[|trace| - 1];
      var mid := Exec(cfg, Init(clock), front).value;
      var before := AtomicMoments(cfg, clock, front, mid);
      moments := before + [Moment(w.clock, w.store)];
      hide Timely, Reachable, Enabled, Apply, InTime, Init, Moves;
      ReachableStep(cfg, mid, last);
      InTimeKeepsTimely(cfg, mid, last);
      StepMoves(cfg, mid, last);
      MoreMoments(cfg, Init(clock), trace, w, before);
      forall i | 0 <= i < |moments| - 1 ensures Moves(cfg, moments[i], moments[i + 1]) {
        if i + 1 < |before| { assert moments[i] == before[i] && moments[i + 1] == before[i + 1]; }
      }
    }
  }

  lemma MoreMoments(cfg: Config, w0: World, trace: seq<Step>, w: World, before: seq<Moment>)
    requires trace != [] && Exec(cfg, w0, trace) == Some(w) && MomentsOf(cfg, w0, trace[..|trace| - 1], before)
    ensures MomentsOf(cfg, w0, trace, before + [Moment(w.clock, w.store)])
  {
    hide Exec;
    var moments, front := before + [Moment(w.clock, w.store)], trace[..|trace| - 1];
    forall i | 0 <= i <= |trace|
      ensures Exec(cfg, w0, trace[..i]).Some?
      ensures var mid := Exec(cfg, w0, trace[..i]).value; moments[i] == Moment(mid.clock, mid.store)
    {
      if i < |trace| { assert front[..i] == trace[..i]; } else { assert trace[..i] == trace; }
    }
  }

  lemma StepMoves(cfg: Config, w: World, step: Step)
    requires Reachable(cfg, w) && Timely(w) && Enabled(cfg, w, step) && InTime(w, step)
    ensures var w' := Apply(cfg, w, step); Moves(cfg, Moment(w.clock, w.store), Moment(w'.clock, w'.store))
  {
    hide Reachable, Timely, InTime, AtomicStep, CanPrepare, Advance, CanCommit, ApplyWrite;
    InterleavingsAreAtomic(cfg, w, step);
  }
}
