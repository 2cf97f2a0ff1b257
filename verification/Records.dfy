/** What the committed tables record, in every interleaving: one booking per idempotency key,
    one path of statuses per appointment, rows in bijection, and nothing from failed commands. */
module Records {
  import opened Wrappers
  import opened Domain
  import opened Tables
  import opened Booking
  import opened Protocol
  import opened Invariants
  import opened Preservation
  import opened Commits
  import opened Safety
  import opened Claims
  import Database

  // ---- Idempotency ----

  lemma DifferentEntries(cfg: Config, w: World, i: nat, j: nat)
    requires LogOk(cfg, w) && i < |w.log| && j < |w.log| && i != j
    ensures Different(w.log[i], w.log[j])
  {
    hide EntryOk;
    if i < j { assert Different(w.log[i], w.log[j]); } else { assert Different(w.log[j], w.log[i]); }
  }

  lemma EntryKey(cfg: Config, w: World, i: nat)
    requires LogOk(cfg, w) && i < |w.log|
    ensures Stored(w, w.log[i]) && HoldOf(w, w.log[i]).key == w.log[i].key
            && HoldOf(w, w.log[i]).uuid == w.log[i].reservation
    ensures DetailsOf(w, w.log[i]).vehicle == w.log[i].vehicle
    ensures w.store.vehicles[w.log[i].vehicle].user == DetailsOf(w, w.log[i]).user
  {
    hide LogOk, Sound, PathOk;
    EntryStored(cfg, w, i);
  }

  /** A key has at most one reservation. */
  lemma OneReservationPerKey(cfg: Config, w: World, r: Uuid, q: Uuid)
    requires Reachable(cfg, w) && r in w.store.reservations && q in w.store.reservations
    requires w.store.reservations[r].key == w.store.reservations[q].key
    ensures r == q
  {
    hide Reachable, Inv, LogOk, Covered, Owners, Exclusive, SessionsOk;
    ReachableOk(cfg, w);
    InvParts(cfg, w);
    var i := IndexOfReservation(w, r);
    var j := IndexOfReservation(w, q);
    EntryKey(cfg, w, i);
    EntryKey(cfg, w, j);
    if i != j { DifferentEntries(cfg, w, i, j); }
  }

  /** Whichever of the three layers answered, all successes for a key return one reservation. */
  lemma SameKeySameReservation(cfg: Config, w: World, s: nat, t: nat)
    requires Reachable(cfg, w) && Won(w, s) && Won(w, t)
    requires w.sessions[s].command.Book? && w.sessions[t].command.Book?
    requires w.sessions[s].command.booking.key == w.sessions[t].command.booking.key
    ensures w.sessions[s].phase.outcome.id == w.sessions[t].phase.outcome.id
    ensures w.sessions[s].phase.outcome.id in w.store.reservations
    ensures w.store.reservations[w.sessions[s].phase.outcome.id].key == w.sessions[s].command.booking.key
  {
    hide Reachable, Inv, PlanOk;
    ReachableOk(cfg, w);
    SessionAt(cfg, w, s);
    SessionAt(cfg, w, t);
    OneReservationPerKey(cfg, w, w.sessions[s].phase.outcome.id, w.sessions[t].phase.outcome.id);
  }

  /** Once a key is booked, no step of any command for it adds or changes a row. */
  lemma ReplayAddsNothing(cfg: Config, w: World, step: Step)
    requires Reachable(cfg, w) && Enabled(cfg, w, step) && !step.Tick? && !step.Call?
    requires step.sid in w.sessions && w.sessions[step.sid].command.Book?
    requires HasKey(w.store, w.sessions[step.sid].command.booking.key)
    ensures Apply(cfg, w, step).store == w.store
  {
    hide Reachable, Inv, Sound, BuilderErrors, ListedTechnicians, ListedBays, ViewOk, HasKey, Serializable, CanPrepare,
         Advance, BusyTechnicians, BusyBays;
    ReachableOk(cfg, w);
    if step.Commit? {
      SessionAt(cfg, w, step.sid);
    } else {
      OnlyCommitsWrite(cfg, w, step);
    }
  }

  /** The backstop's lookup never misses: the row it collided with is still there. */
  lemma BackstopFinds(cfg: Config, w: World, sid: nat)
    requires Reachable(cfg, w) && InPhase(w, sid, Backstop)
    ensures Enabled(cfg, w, Recover(sid))
    ensures var s := Apply(cfg, w, Recover(sid)).sessions[sid];
            && s.phase.Done? && s.phase.outcome.Succeeded? && s.phase.outcome.id in w.store.reservations
            && w.store.reservations[s.phase.outcome.id].key == w.sessions[sid].command.booking.key
  {
    hide Reachable, Inv, PlanOk;
    ReachableOk(cfg, w);
    SessionAt(cfg, w, sid);
  }

  /** A command is tried at most ten times, and what a booking answers is a row that its own
      committing attempt wrote or read, never what an aborted attempt left in `captured`. */
  lemma AnswersAreCommitted(cfg: Config, w: World, sid: nat)
    requires Reachable(cfg, w) && sid in w.sessions
    ensures w.sessions[sid].attempts <= 10
    ensures IsStaged(w, sid) && w.sessions[sid].phase.write.Insert? ==>
            w.sessions[sid].captured == Some(w.sessions[sid].phase.write.hold.uuid)
    ensures IsStaged(w, sid) && w.sessions[sid].phase.write.NoWrite? ==>
            w.sessions[sid].captured.Some? && w.sessions[sid].captured.value in w.store.reservations
    ensures Won(w, sid) && w.sessions[sid].command.Book? ==> w.sessions[sid].phase.outcome.id in w.store.reservations
  {
    hide Reachable, Inv, PlanOk, Sound, BusyTechnicians, BusyBays;
    ReachableOk(cfg, w);
    SessionAt(cfg, w, sid);
  }

  // ---- Status histories ----

  /** Every appointment's committed history is a prefix of pending, confirmed, cancelled, and
      its row shows the last of it; its confirm was decided while its hold was live, its
      cancel no later than its start. */
  lemma StatusHistory(cfg: Config, w: World, a: Uuid)
    requires Reachable(cfg, w) && a in w.store.appointments
    ensures a in w.history && 1 <= |w.history[a]| <= 3
    ensures var h := w.history[a];
            && h[0].status == Pending && (|h| > 1 ==> h[1].status == Confirmed)
            && (|h| > 2 ==> h[2].status == Cancelled)
    ensures w.store.appointments[a].status == w.history[a][|w.history[a]| - 1].status
    ensures |w.history[a]| > 1 ==>
              forall r | r in w.store.reservations && w.store.reservations[r].appointment == a ::
                       w.history[a][1].decidedAt < w.store.reservations[r].expiredAt
    ensures |w.history[a]| > 2 ==> w.history[a][2].decidedAt <= w.store.appointments[a].details.start
  {
    hide Reachable, Inv, LogOk, Covered, Owners, Exclusive, SessionsOk, Sound;
    ReachableOk(cfg, w);
    InvParts(cfg, w);
    var i := IndexOf(w, a);
    EntryPath(cfg, w, i);
    EntryStored(cfg, w, i);
    forall r | r in w.store.reservations && Held(w, a, r) ensures r == w.log[i].reservation {
      HoldIsUnique(cfg, w, i, r);
    }
  }

  lemma WonOutcome(cfg: Config, w: World, sid: nat)
    requires Reachable(cfg, w) && Won(w, sid)
    ensures OutcomeOk(w, sid, w.sessions[sid].command, w.sessions[sid].phase.outcome.id)
  {
    hide Reachable, Inv, PlanOk;
    ReachableOk(cfg, w);
    SessionAt(cfg, w, sid);
  }

  lemma EventCredited(cfg: Config, w: World, a: Uuid, m: nat)
    requires Reachable(cfg, w) && a in w.history && m < |w.history[a]|
    ensures Credited(w, a, m)
  {
    hide Reachable, Inv, Credited, LogOk, Covered, Exclusive, SessionsOk;
    ReachableOk(cfg, w);
    InvParts(cfg, w);
  }

  /** No update is lost or made twice: a confirm was answered as done exactly when it is the
      second event of its appointment, a cancel exactly when it is the third. */
  lemma OneConfirmOneCancel(cfg: Config, w: World, sid: nat, a: Uuid)
    requires Reachable(cfg, w) && sid in w.sessions
    ensures (Won(w, sid) && w.sessions[sid].command.ConfirmHold? && w.sessions[sid].phase.outcome.id == a) <==>
            (a in w.history && |w.history[a]| > 1 && w.history[a][1].session == sid)
    ensures (Won(w, sid) && w.sessions[sid].command.CancelBooking? && w.sessions[sid].phase.outcome.id == a) <==>
            (a in w.history && |w.history[a]| > 2 && w.history[a][2].session == sid)
  {
    hide Reachable;
    if Won(w, sid) { WonOutcome(cfg, w, sid); }
    if a in w.history && |w.history[a]| > 1 && w.history[a][1].session == sid { EventCredited(cfg, w, a, 1); }
    if a in w.history && |w.history[a]| > 2 && w.history[a][2].session == sid { EventCredited(cfg, w, a, 2); }
  }

  /** A command that has not succeeded has left no row in any table and changed no status. */
  lemma FailuresLeaveNoTrace(cfg: Config, w: World, sid: nat)
    requires Reachable(cfg, w) && sid in w.sessions && !Won(w, sid)
    ensures forall id | id in w.issued && w.issued[id] == sid ::
              id !in w.store.appointments && id !in w.store.reservations && id !in w.store.vehicles
    ensures forall a, m | a in w.history && 0 <= m < |w.history[a]| :: w.history[a][m].session != sid
  {
    hide Reachable, Inv, LogOk, Covered, Exclusive, SessionsOk, Credited, Won;
    ReachableOk(cfg, w);
    InvParts(cfg, w);
    forall a, m | a in w.history && 0 <= m < |w.history[a]| ensures w.history[a][m].session != sid {
      EventCredited(cfg, w, a, m);
      CreditedWon(w, a, m);
    }
  }

  lemma CreditedWon(w: World, a: Uuid, m: nat)
    requires a in w.history && m < |w.history[a]| && Credited(w, a, m)
    ensures Won(w, w.history[a][m].session)
  {
  }

  /** Rows are never deleted, and of an appointment only its status ever changes. */
  lemma RowsOnlyChangeStatus(cfg: Config, w: World, trace: seq<Step>, w': World)
    requires Reachable(cfg, w) && Exec(cfg, w, trace) == Some(w')
    ensures forall a | a in w.store.appointments ::
              a in w'.store.appointments && w'.store.appointments[a].details == w.store.appointments[a].details
              && (w.store.appointments[a].status == w'.store.appointments[a].status
                  || w.store.appointments[a].status == Pending || w'.store.appointments[a].status == Cancelled)
    ensures forall r | r in w.store.reservations ::
              r in w'.store.reservations && w'.store.reservations[r] == w.store.reservations[r]
    ensures forall x | x in w.store.vehicles :: x in w'.store.vehicles && w'.store.vehicles[x] == w.store.vehicles[x]
  {
    hide Reachable, Exec, Inv, LogOk, Covered, Owners, Exclusive, SessionsOk;
    ReachableOk(cfg, w);
    RunLater(cfg, w, trace, w');
    InvParts(cfg, w);
    InvParts(cfg, w');
    forall a | a in w.store.appointments
      ensures a in w'.store.appointments
              && Rank(w.store.appointments[a].status) <= Rank(w'.store.appointments[a].status)
    {
      var i := IndexOf(w, a);
      assert w'.log[i] == w.log[i];
      EntryPath(cfg, w, i);
      EntryPath(cfg, w', i);
      assert HistoryGrows(w, w', a);
    }
  }

  // ---- Repeats ----

  lemma {:induction false} RunReachable(cfg: Config, w: World, trace: seq<Step>, w': World)
    requires Reachable(cfg, w) && Exec(cfg, w, trace) == Some(w')
    ensures Reachable(cfg, w')
  {
    hide Reachable, Enabled, Apply;
    if trace != [] {
      var front := trace[..|trace| - 1];
      var mid := Exec(cfg, w, front).value;
      RunReachable(cfg, w, front, mid);
      ReachableStep(cfg, mid, trace[|trace| - 1]);
    }
  }

  /** Once a command has succeeded, the same request made at any later time has a fixed answer:
      a booking is replayed, a confirm finds nothing pending, a cancel is already made. */
  lemma RepeatsAreAnswered(
    cfg: Config, w: World, trace: seq<Step>, w': World, sid: nat, plan: Plan, began: Time, now: Time, a: Uuid, r: Uuid)
    requires Reachable(cfg, w) && Exec(cfg, w, trace) == Some(w') && Won(w, sid)
    ensures match w.sessions[sid].command
            case Book(c) =>
              plan.command.key == c.key ==>
                DecideBooking(cfg.Factory(), plan, w'.store, began, now, a, r) ==
                    Replay(w.sessions[sid].phase.outcome.id)
            case ConfirmHold(user, hold) => DecideConfirm(w'.store, user, hold, now) == Err(AppointmentNotPending)
            case CancelBooking(user, target) => DecideCancel(w'.store, user, target, now) == Err(AlreadyCancelled)
  {
    hide Reachable, Exec, CreateFn;
    RunReachable(cfg, w, trace, w');
    RowsOnlyChangeStatus(cfg, w, trace, w');
    WonOutcome(cfg, w, sid);
    var id := w.sessions[sid].phase.outcome.id;
    match w.sessions[sid].command
    case Book(c) =>
      if plan.command.key == c.key {
        assert HasKey(w'.store, c.key);
        OneReservationPerKey(cfg, w', FindByKey(w'.store, c.key).value, id);
      }
    case ConfirmHold(_, _) => StatusHistory(cfg, w, id);
    case CancelBooking(_, _) => StatusHistory(cfg, w, id);
  }

  // ---- Frames ----

  /** The three rows hold what the command asks for, and a hold as long as the TTL. */
  predicate RowsFor(cfg: Config, c: BookCommand, d: Details, hold: Reservation, vehicle: VehicleRow) {
    && c.serviceType in cfg.catalog
    && d.user == c.user && d.dealership == c.dealership && d.serviceType == c.serviceType
    && d.start == c.start && d.end == c.start + cfg.catalog[c.serviceType].duration
    && hold.key == c.key && hold.expiredAt == hold.createdAt + cfg.Factory().reservationTTL
    && vehicle == VehicleRow(c.user, c.vehicle)
  }

  /** One new row in each table, for this command; every other row as it was. */
  predicate AddsOneBooking(cfg: Config, store: Store, store': Store, c: BookCommand) {
    exists a, r, x | a in store'.appointments && r in store'.reservations && x in store'.vehicles ::
      && a !in store.appointments && r !in store.reservations && x !in store.vehicles
      && store'.appointments == store.appointments[a := store'.appointments[a]]
      && store'.reservations == store.reservations[r := store'.reservations[r]]
      && store'.vehicles == store.vehicles[x := store'.vehicles[x]]
      && store'.appointments[a].status == Pending && store'.appointments[a].details.vehicle == x
      && store'.reservations[r].appointment == a
      && RowsFor(cfg, c, store'.appointments[a].details, store'.reservations[r], store'.vehicles[x])
  }

  /** Row a, owned by the user, moves to a new status; every other row and field as it was. */
  predicate MovesStatus(store: Store, store': Store, user: string, a: Uuid, from: Status, to: Status) {
    && OwnedBy(store, a, user) && store.appointments[a].status == from
    && store' == store.(appointments := store.appointments[a := store.appointments[a].(status := to)])
  }

  /** What a command's commit does to the tables: to the very rows that the command names. */
  predicate Does(cfg: Config, store: Store, store': Store, command: Command) {
    match command
    case Book(c) => AddsOneBooking(cfg, store, store', c)
    case ConfirmHold(user, r) =>
      r in store.reservations && MovesStatus(store, store', user, store.reservations[r].appointment, Pending, Confirmed)
    case CancelBooking(user, a) => MovesStatus(store, store', user, a, Confirmed, Cancelled)
  }

  /** What any one step of any command may do to the committed tables. */
  lemma StepFrame(cfg: Config, w: World, step: Step)
    requires Reachable(cfg, w) && Enabled(cfg, w, step)
    ensures var store' := Apply(cfg, w, step).store;
            || store' == w.store
            || (step.Commit? && Won(Apply(cfg, w, step), step.sid) && step.sid in w.sessions
                && Does(cfg, w.store, store', w.sessions[step.sid].command))
  {
    hide Reachable, Inv, LogOk, Covered, Owners, Exclusive, SessionsOk, CanPrepare, Advance, Committing, CanCommit,
         Committed, Does;
    if step.Commit? {
      ReachableOk(cfg, w);
      InvParts(cfg, w);
      CommitStep(cfg, w, step.sid);
      var w' := Apply(cfg, w, step);
      match w.sessions[step.sid].phase.write
      case NoWrite => ReplayWritesNothing(w, w', step.sid);
      case Insert(_, _, _, _) => BookingFrame(cfg, w, w', step.sid);
      case SetStatus(_, _) => StatusFrame(cfg, w, w', step.sid);
    } else if !step.Tick? {
      OnlyCommitsWrite(cfg, w, step);
    }
  }

  lemma BookingFrame(cfg: Config, w: World, w': World, sid: nat)
    requires Committing(cfg, w, w', sid) && w.sessions[sid].phase.write.Insert? && Owners(w) && Covered(w)
    ensures Won(w', sid) && w.sessions[sid].command.Book?
    ensures Does(cfg, w.store, w'.store, w.sessions[sid].command)
  {
    hide Owners, Covered, Sound, RowSeen, ViewOk, Serializable, BusyTechnicians, BusyBays, BuilderErrors,
         ListedTechnicians, ListedBays;
    BookingShape(cfg, w, w', sid);
    var e := NewEntry(w, sid);
    assert w'.store.appointments[e.appointment] == AppointmentRow(w.sessions[sid].phase.write.details, Pending);
    assert w'.store.reservations[e.reservation] == w.sessions[sid].phase.write.hold;
    assert w'.store.vehicles[e.vehicle] == w.sessions[sid].phase.write.vehicle;
  }

  lemma StatusFrame(cfg: Config, w: World, w': World, sid: nat)
    requires Committing(cfg, w, w', sid) && w.sessions[sid].phase.write.SetStatus? && LogOk(cfg, w) && Covered(w)
    ensures Won(w', sid) && !w.sessions[sid].command.Book?
    ensures Does(cfg, w.store, w'.store, w.sessions[sid].command)
  {
    hide LogOk, Covered, Sound, RowSeen, BuilderErrors, ListedTechnicians, ListedBays;
    StatusShape(cfg, w, w', sid);
    var a := w.sessions[sid].phase.write.target;
    assert w.store.appointments[a] == w.sessions[sid].phase.view.snapshot.appointments[a];
  }

  // ---- Conservation ----

  function KeysBooked(rows: map<Uuid, Reservation>): set<string> {
    set r | r in rows :: rows[r].key
  }

  /** Exactly one reservation, and a vehicle of the same user that no other appointment has. */
  predicate Attached(store: Store, a: Uuid) {
    a in store.appointments &&
    var d := store.appointments[a].details;
    && d.vehicle in store.vehicles && store.vehicles[d.vehicle].user == d.user
    && (exists r :: r in store.reservations && store.reservations[r].appointment == a)
    && (forall r, q | r in store.reservations && q in store.reservations
                      && store.reservations[r].appointment == a && store.reservations[q].appointment == a :: r == q)
    && (forall b | b in store.appointments && b != a :: store.appointments[b].details.vehicle != d.vehicle)
  }

  lemma EntryAttached(cfg: Config, w: World, i: nat)
    requires LogOk(cfg, w) && Covered(w) && i < |w.log|
    ensures Attached(w.store, w.log[i].appointment)
  {
    hide LogOk, Covered;
    var a := w.log[i].appointment;
    EntryHeld(cfg, w, i);
    EntryKey(cfg, w, i);
    forall r, q | r in w.store.reservations && q in w.store.reservations
                  && w.store.reservations[r].appointment == a && w.store.reservations[q].appointment == a
                     ensures r == q {
      HoldIsUnique(cfg, w, i, r);
      HoldIsUnique(cfg, w, i, q);
    }
    forall b | b in w.store.appointments && b != a
      ensures w.store.appointments[b].details.vehicle != w.store.appointments[a].details.vehicle
    {
      var j := IndexOf(w, b);
      EntryKey(cfg, w, j);
      DifferentEntries(cfg, w, i, j);
    }
  }

  lemma {:induction false} DistinctImages(rows: map<Uuid, Reservation>)
    requires forall r, q | r in rows && q in rows && rows[r].key == rows[q].key :: r == q
    ensures |KeysBooked(rows)| == |rows|
  {
    var keys := KeysBooked(rows);
    if rows == map[] {
      assert keys == {};
    } else {
      var r :| r in rows;
      var rest := rows - {r};
      var restKeys := KeysBooked(rest);
      DistinctImages(rest);
      assert |rest| == |rows| - 1 by {
        assert rest.Keys == rows.Keys - {r};
        assert |rest.Keys| == |rest| && |rows.Keys| == |rows|;
      }
      assert rows[r].key !in restKeys;
      forall k | k in keys ensures k in restKeys + {rows[r].key} {
        var q :| q in rows && rows[q].key == k;
        if q != r { assert q in rest && rest[q].key == k; }
      }
      forall k | k in restKeys ensures k in keys {
        var q :| q in rest && rest[q].key == k;
        assert rows[q].key == k;
      }
      assert keys == restKeys + {rows[r].key};
    }
  }

  /** Vehicles, appointments and reservations are in bijection, one of each for every key booked. */
  lemma RowsInBijection(cfg: Config, w: World)
    requires Reachable(cfg, w)
    ensures |w.store.vehicles| == |w.store.appointments| == |w.store.reservations| == |KeysBooked(w.store.reservations)|
    ensures forall a | a in w.store.appointments :: Attached(w.store, a)
    ensures forall r | r in w.store.reservations :: w.store.reservations[r].appointment in w.store.appointments
    ensures forall x | x in w.store.vehicles ::
              exists a :: a in w.store.appointments && w.store.appointments[a].details.vehicle == x
  {
    hide Reachable, Inv, LogOk, Covered, Owners, Exclusive, SessionsOk, Attached;
    ReachableOk(cfg, w);
    InvParts(cfg, w);
    CoveredCounts(w);
    forall a | a in w.store.appointments ensures Attached(w.store, a) {
      var i := IndexOf(w, a);
      EntryAttached(cfg, w, i);
    }
    forall r | r in w.store.reservations ensures w.store.reservations[r].appointment in w.store.appointments {
      var i := ReservationEntry(cfg, w, r);
      EntryHeld(cfg, w, i);
    }
    forall x | x in w.store.vehicles
           ensures exists a :: a in w.store.appointments && w.store.appointments[a].details.vehicle == x {
      var i := IndexOfVehicle(w, x);
      EntryKey(cfg, w, i);
    }
    forall r, q | r in w.store.reservations && q in w.store.reservations
                  && w.store.reservations[r].key == w.store.reservations[q].key ensures r == q {
      OneReservationPerKey(cfg, w, r, q);
    }
    DistinctImages(w.store.reservations);
  }

  /** The owner's confirm of a stored reservation finds its appointment, which it matches: it is
      refused only for the status or the expiry. */
  lemma OwnersConfirm(cfg: Config, w: World, r: Uuid, now: Time)
    requires Reachable(cfg, w) && r in w.store.reservations
    ensures w.store.reservations[r].appointment in w.store.appointments
    ensures var hold := w.store.reservations[r]; var row := w.store.appointments[hold.appointment];
            DecideConfirm(w.store, row.details.user, r, now) ==
            if row.status != Pending then Err(AppointmentNotPending)
            else if HasLiveHold(w.store, hold.appointment, now) then Ok(SetStatus(hold.appointment, Confirmed))
            else Err(ReservationExpired(hold.expiredAt))
  {
    hide Reachable, Attached, HasLiveHold;
    RowsInBijection(cfg, w);
    AttachedHold(w.store, r, now);
  }

  lemma AttachedHold(store: Store, r: Uuid, now: Time)
    requires r in store.reservations && Attached(store, store.reservations[r].appointment)
    ensures HasLiveHold(store, store.reservations[r].appointment, now) <==> !store.reservations[r].IsExpired(now)
  {
    ExpiryIsOneBoundary(store, r, now);
  }

  /** Confirm's reservation-mismatch answer is unreachable through the repository. */
  lemma MismatchIsUnreachable(cfg: Config, w: World, sid: nat)
    requires Reachable(cfg, w) && sid in w.sessions
    ensures w.sessions[sid].phase != Done(Refused(ReservationMismatch))
  {
    hide Reachable, Inv, PlanOk, OutcomeOk, WriteOk, ViewOk;
    ReachableOk(cfg, w);
    SessionAt(cfg, w, sid);
  }
}
