/** No double-booking, over every interleaving: what it rests on, and what follows from it. */
module Safety {
  import opened Wrappers
  import opened Domain
  import opened Tables
  import opened Protocol
  import opened Invariants
  import opened Preservation
  import opened Commits

  /** a is an appointment, and r its reservation. */
  predicate Held(w: World, a: Uuid, r: Uuid) {
    a in w.store.appointments && r in w.store.reservations && w.store.reservations[r].appointment == a
  }

  /** The confirm of a committed at or after the expiry of its hold. */
  predicate LateConfirm(w: World, a: Uuid) {
    exists r :: r in w.store.reservations && Held(w, a, r) && ConfirmedSince(w, a, w.store.reservations[r].expiredAt)
  }

  /** Every confirm committed before its hold's expiry plus the slack. */
  predicate ConfirmedBy(w: World, slack: Duration) {
    forall a, r | a in w.history && r in w.store.reservations && Held(w, a, r) && |w.history[a]| > 1 ::
      w.history[a][1].at < w.store.reservations[r].expiredAt + slack
  }

  /** Every confirm committed before its hold expired. */
  predicate Timely(w: World) {
    ConfirmedBy(w, 0)
  }

  /** No two claims of a dealership share a technician or a bay at the same time. */
  predicate Exclusion(store: Store, now: Time) {
    forall a, b | a in store.appointments && b in store.appointments && a != b && Claimed(store, a, now)
           && Claimed(store, b, now) ::
      !Clash(store.appointments[a].details, store.appointments[b].details)
  }

  predicate NoDoubleBooking(w: World) {
    Exclusion(w.store, w.clock)
  }

  // ---- Looking rows up in the log ----

  lemma InvParts(cfg: Config, w: World)
    requires Inv(cfg, w)
    ensures LogOk(cfg, w) && Covered(w) && Owners(w) && Exclusive(w) && SessionsOk(cfg, w)
  {
    hide LogOk, Covered, Owners, Exclusive, SessionsOk;
  }

  lemma HoldIsUnique(cfg: Config, w: World, i: nat, r: Uuid)
    requires LogOk(cfg, w) && Covered(w) && i < |w.log| && Held(w, w.log[i].appointment, r)
    ensures r == w.log[i].reservation
  {
    hide LogOk, Covered;
    var j := ReservationEntry(cfg, w, r);
    SameAppointment(cfg, w, i, j);
  }

  lemma EntryHeld(cfg: Config, w: World, i: nat)
    requires LogOk(cfg, w) && i < |w.log|
    ensures Stored(w, w.log[i]) && Held(w, w.log[i].appointment, w.log[i].reservation)
  {
    hide LogOk, Sound, PathOk;
    EntryStored(cfg, w, i);
  }

  /** Being claimed, in terms of the one hold an appointment has. */
  lemma ClaimOfEntry(cfg: Config, w: World, i: nat, t: Time)
    requires LogOk(cfg, w) && Covered(w) && i < |w.log|
    ensures Stored(w, w.log[i])
    ensures var status := w.store.appointments[w.log[i].appointment].status;
            Claimed(w.store, w.log[i].appointment, t) <==>
            status == Confirmed || (status == Pending && t < HoldOf(w, w.log[i]).expiredAt)
  {
    hide LogOk, Covered;
    EntryHeld(cfg, w, i);
    var a := w.log[i].appointment;
    if HasLiveHold(w.store, a, t) {
      var r :| r in w.store.reservations && w.store.reservations[r].appointment == a
          && w.store.reservations[r].expiredAt > t;
      HoldIsUnique(cfg, w, i, r);
    }
  }

  lemma GoneIsUnclaimed(cfg: Config, w: World, i: nat, t: Time)
    requires LogOk(cfg, w) && Covered(w) && i < |w.log| && Gone(w, w.log[i], t) && t <= w.clock
    requires Claimed(w.store, w.log[i].appointment, w.clock)
    ensures LateConfirm(w, w.log[i].appointment)
  {
    hide LogOk, Covered, Claimed;
    EntryHeld(cfg, w, i);
    ClaimOfEntry(cfg, w, i, w.clock);
    EntryPath(cfg, w, i);
  }

  lemma EntryPath(cfg: Config, w: World, i: nat)
    requires LogOk(cfg, w) && i < |w.log|
    ensures var a := w.log[i].appointment;
            a in w.history && PathOk(w.history[a], w.clock) && a in w.store.appointments &&
            w.store.appointments[a].status == StatusAt(|w.history[a]| - 1)
  {
    hide LogOk, Sound;
    EntryStored(cfg, w, i);
  }

  lemma EntryTimes(cfg: Config, w: World, i: nat)
    requires LogOk(cfg, w) && i < |w.log|
    ensures Stored(w, w.log[i])
    ensures w.log[i].query.now <= HoldOf(w, w.log[i]).createdAt <= w.log[i].committedAt <= w.clock
  {
    hide LogOk, Sound, PathOk;
    EntryStored(cfg, w, i);
  }

  lemma PairApart(cfg: Config, w: World, i: nat, j: nat)
    requires Exclusive(w) && i < |w.log| && j < |w.log| && i != j
    ensures Apart(w, w.log[i], w.log[j])
  {
    if j < i { assert Apart(w, w.log[j], w.log[i]); }
  }

  // ---- Double-booking ----

  /** Two conflicting appointments claimed at the same time: one of the two was confirmed at or
      after the expiry of its own hold. */
  lemma DoubleBookingNeedsLateConfirm(cfg: Config, w: World, a: Uuid, b: Uuid)
    requires Reachable(cfg, w)
    requires a in w.store.appointments && b in w.store.appointments && a != b
    requires Clash(w.store.appointments[a].details, w.store.appointments[b].details)
    requires Claimed(w.store, a, w.clock) && Claimed(w.store, b, w.clock)
    ensures LateConfirm(w, a) || LateConfirm(w, b)
  {
    hide Reachable, Inv, LogOk, Covered, Owners, Exclusive, SessionsOk, Claimed, LateConfirm, Clash, Gone;
    ReachableOk(cfg, w);
    InvParts(cfg, w);
    var i := IndexOf(w, a);
    var j := IndexOf(w, b);
    PairApart(cfg, w, i, j);
    EntryTimes(cfg, w, i);
    EntryTimes(cfg, w, j);
    if Gone(w, w.log[i], w.log[j].query.now) {
      GoneIsUnclaimed(cfg, w, i, w.log[j].query.now);
    } else {
      GoneIsUnclaimed(cfg, w, j, w.log[i].query.now);
    }
  }

  /** If every confirm commits before its hold expires, nothing is ever double-booked: of the
      claims of a dealership that cover an instant, no two have the same technician, and no two
      the same bay. */
  lemma NeverDoubleBooked(cfg: Config, w: World)
    requires Reachable(cfg, w) && Timely(w)
    ensures NoDoubleBooking(w)
    ensures forall a, b, t | a in w.store.appointments && b in w.store.appointments && a != b
                             && Claimed(w.store, a, w.clock) && Claimed(w.store, b, w.clock) ::
              var d, f := w.store.appointments[a].details, w.store.appointments[b].details;
              d.dealership == f.dealership && Covers(d.start, d.end, t) && Covers(f.start, f.end, t) ==>
                  d.technician != f.technician && d.bay != f.bay
  {
    hide Reachable, Claimed, Clash;
    forall a, b | a in w.store.appointments && b in w.store.appointments && a != b
                  && Claimed(w.store, a, w.clock) && Claimed(w.store, b, w.clock)
      ensures !Clash(w.store.appointments[a].details, w.store.appointments[b].details)
    {
      if Clash(w.store.appointments[a].details, w.store.appointments[b].details) {
        DoubleBookingNeedsLateConfirm(cfg, w, a, b);
        assert false;
      }
    }
    forall a, b, t | a in w.store.appointments && b in w.store.appointments && a != b
                     && Claimed(w.store, a, w.clock) && Claimed(w.store, b, w.clock)
      ensures var d, f := w.store.appointments[a].details, w.store.appointments[b].details;
              d.dealership == f.dealership && Covers(d.start, d.end, t) && Covers(f.start, f.end, t) ==>
                  d.technician != f.technician && d.bay != f.bay
    {
      var d, f := w.store.appointments[a].details, w.store.appointments[b].details;
      if d.dealership == f.dealership && Covers(d.start, d.end, t) && Covers(f.start, f.end, t) {
        NoClashAtInstant(d, f, t);
      }
    }
  }

  lemma NoClashAtInstant(d: Details, f: Details, t: Time)
    requires !Clash(d, f) && d.dealership == f.dealership && Covers(d.start, d.end, t) && Covers(f.start, f.end, t)
    ensures d.technician != f.technician && d.bay != f.bay
  {
  }

  // ---- The decision at commit ----

  /** The busy query a transaction made, asked again of the committed tables now. */
  function Requery(w: World, q: BusyQuery): BusyQuery {
    q.(now := w.clock)
  }

  lemma BusyTechnicianRow(store: Store, q: BusyQuery, technician: string) returns (a: Uuid)
    requires technician in BusyTechnicians(store, q)
    ensures Busy(store, q, a) && a in store.appointments && store.appointments[a].details.technician == technician
  {
    hide Busy;
    var row :| row in BusyRows(store, q) && row.technician == technician;
    a :| a in store.appointments && Busy(store, q, a)
         && row == BusyRow(store.appointments[a].details.bay, store.appointments[a].details.technician);
  }

  lemma BusyBayRow(store: Store, q: BusyQuery, bay: string) returns (a: Uuid)
    requires bay in BusyBays(store, q)
    ensures Busy(store, q, a) && a in store.appointments && store.appointments[a].details.bay == bay
  {
    hide Busy;
    var row :| row in BusyRows(store, q) && row.bay == bay;
    a :| a in store.appointments && Busy(store, q, a)
         && row == BusyRow(store.appointments[a].details.bay, store.appointments[a].details.technician);
  }

  lemma {:induction false} ReachableStep(cfg: Config, w: World, step: Step)
    requires Reachable(cfg, w) && Enabled(cfg, w, step)
    ensures Reachable(cfg, Apply(cfg, w, step))
  {
    hide Enabled, Apply, Init;
    var clock, trace :| Exec(cfg, Init(clock), trace) == Some(w);
    var longer := trace + [step];
    assert longer[..|longer| - 1] == trace;
    assert Exec(cfg, Init(clock), longer) == Some(Apply(cfg, w, step));
  }

  predicate StagedBooking(w: World, sid: nat) {
    IsStaged(w, sid) && w.sessions[sid].phase.write.Insert? && w.sessions[sid].plan.Some?
  }

  lemma {:induction false} CommittedBooking(cfg: Config, w: World, sid: nat)
    requires Inv(cfg, w) && Enabled(cfg, w, Commit(sid)) && StagedBooking(w, sid)
    ensures var s := w.sessions[sid]; var w' := Apply(cfg, w, Commit(sid));
            && OneBooking(w, w', sid, NewEntry(w, sid), s.phase.write.details, s.phase.write.hold,
               s.phase.write.vehicle, s.phase.decidedAt)
            && NewEntryOk(cfg, w, NewEntry(w, sid), s.phase.write.details, s.phase.write.hold, s.phase.write.vehicle,
               s.phase.decidedAt)
  {
    hide Inv, LogOk, Covered, Owners, Exclusive, SessionsOk, SessionOk, CanCommit, Committed, OneBooking, NewEntryOk;
    InvParts(cfg, w);
    SessionAt(cfg, w, sid);
    BookingShape(cfg, w, Apply(cfg, w, Commit(sid)), sid);
  }

  lemma TimelyAfterBooking(
    w: World, w': World, sid: nat, e: Entry, d: Details, hold: Reservation, vehicle: VehicleRow, decidedAt: Time)
    requires OneBooking(w, w', sid, e, d, hold, vehicle, decidedAt) && Timely(w)
             && w.history.Keys == w.store.appointments.Keys
    requires hold.appointment == e.appointment
    ensures Timely(w')
  {
    hide Won;
  }

  lemma ClaimKept(store: Store, store': Store, a: Uuid, now: Time)
    requires Claimed(store, a, now) && a in store'.appointments && store'.appointments[a] == store.appointments[a]
    requires forall r | r in store.reservations ::
               r in store'.reservations && store'.reservations[r] == store.reservations[r]
    ensures Claimed(store', a, now)
  {
    if store.appointments[a].status == Pending {
      var r :| r in store.reservations && store.reservations[r].appointment == a
          && store.reservations[r].expiredAt > now;
      assert store'.reservations[r].appointment == a;
    }
  }

  lemma NewClaim(
    w: World, w': World, sid: nat, e: Entry, d: Details, hold: Reservation, vehicle: VehicleRow, decidedAt: Time)
    requires OneBooking(w, w', sid, e, d, hold, vehicle, decidedAt) && hold.appointment == e.appointment
             && hold.expiredAt > w.clock
    ensures Claimed(w'.store, e.appointment, w'.clock)
  {
    assert w'.store.reservations[e.reservation] == hold;
  }

  /** The technician and the bay of a staged booking are free for its window right now. */
  predicate ResourcesFree(w: World, s: Session)
    requires s.phase.Staged? && s.phase.write.Insert? && s.plan.Some?
  {
    var q := Requery(w, s.plan.value.Query(s.phase.view.began));
    s.phase.write.details.technician !in BusyTechnicians(w.store, q)
        && s.phase.write.details.bay !in BusyBays(w.store, q)
  }

  /** What a booking decided on its snapshot still holds when it commits: if its own hold is
      live then, its technician and bay are free for its window in the committed tables. */
  lemma DecisionStillRight(cfg: Config, w: World, sid: nat)
    requires Reachable(cfg, w) && Timely(w) && Enabled(cfg, w, Commit(sid)) && StagedBooking(w, sid)
    requires w.clock < w.sessions[sid].phase.write.hold.expiredAt
    ensures ResourcesFree(w, w.sessions[sid])
  {
    hide Reachable, Inv, LogOk, Covered, Owners, Exclusive, SessionsOk, Enabled, Apply, OneBooking, Timely,
         NoDoubleBooking, Claimed, BusyTechnicians, BusyBays, Sound;
    ReachableOk(cfg, w);
    InvParts(cfg, w);
    CoveredKeys(w);
    var s, w' := w.sessions[sid], Apply(cfg, w, Commit(sid));
    var e, d, hold := NewEntry(w, sid), s.phase.write.details, s.phase.write.hold;
    CommittedBooking(cfg, w, sid);
    ReachableStep(cfg, w, Commit(sid));
    TimelyAfterBooking(w, w', sid, e, d, hold, s.phase.write.vehicle, s.phase.decidedAt);
    NeverDoubleBooked(cfg, w');
    NewClaim(w, w', sid, e, d, hold, s.phase.write.vehicle, s.phase.decidedAt);
    var q := Requery(w, s.plan.value.Query(s.phase.view.began));
    if d.technician in BusyTechnicians(w.store, q) {
      var a := BusyTechnicianRow(w.store, q, d.technician);
      RivalClaim(w, w', sid, e, d, hold, s.phase.write.vehicle, s.phase.decidedAt, q, a);
      assert false;
    }
    if d.bay in BusyBays(w.store, q) {
      var a := BusyBayRow(w.store, q, d.bay);
      RivalClaim(w, w', sid, e, d, hold, s.phase.write.vehicle, s.phase.decidedAt, q, a);
      assert false;
    }
  }

  lemma RivalClaim(
    w: World, w': World, sid: nat, e: Entry, d: Details, hold: Reservation, vehicle: VehicleRow, decidedAt: Time,
    q: BusyQuery, a: Uuid)
    requires OneBooking(w, w', sid, e, d, hold, vehicle, decidedAt)
    requires q == BusyQuery(d.dealership, d.start, d.end, w.clock)
    requires a in w.store.appointments && Busy(w.store, q, a)
    requires w.store.appointments[a].details.technician == d.technician || w.store.appointments[a].details.bay == d.bay
    requires Claimed(w'.store, e.appointment, w'.clock)
    ensures !NoDoubleBooking(w')
  {
    hide Claimed, Won;
    ClaimKept(w.store, w'.store, a, w.clock);
    assert Clash(w'.store.appointments[a].details, w'.store.appointments[e.appointment].details);
  }
}
