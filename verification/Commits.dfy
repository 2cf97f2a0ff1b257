/** The three kinds of commit keep the invariant. */
module Commits {
  import opened Wrappers
  import opened Domain
  import opened Tables
  import opened Booking
  import opened Protocol
  import opened Invariants
  import opened Preservation

  predicate Committing(cfg: Config, w: World, w': World, sid: nat) {
    IsStaged(w, sid) && CanCommit(w, w.sessions[sid]) && w' == Committed(w, sid)
    && SessionOk(cfg, w, sid, w.sessions[sid])
  }

  // ---- A replay commits nothing ----

  lemma ReplayKeeps(cfg: Config, w: World, w': World, sid: nat)
    requires Inv(cfg, w) && Committing(cfg, w, w', sid) && w.sessions[sid].phase.write.NoWrite?
    ensures Inv(cfg, w') && Later(w, w')
  {
    hide Inv, Sound, BusyTechnicians, BusyBays, BuilderErrors, ListedTechnicians, ListedBays;
    OneSessionKeeps(cfg, w, w', sid);
  }

  // ---- A status update ----

  /** Only the row and history of a, and the committing session, differ. */
  predicate OneStatus(w: World, w': World, sid: nat, a: Uuid, event: Event) {
    && a in w.store.appointments && a in w.history
    && w'.clock == w.clock && w'.log == w.log && w'.issued == w.issued
    && w'.store.vehicles == w.store.vehicles && w'.store.reservations == w.store.reservations
    && w'.store.appointments == w.store.appointments[a := w.store.appointments[a].(status := event.status)]
    && w'.history == w.history[a := w.history[a] + [event]]
    && event.at == w.clock && event.session == sid && event.status != Pending
    && sid in w.sessions && sid in w'.sessions && w'.sessions == w.sessions[sid := w'.sessions[sid]] && !Won(w, sid)
       && Won(w', sid)
    && w'.sessions[sid].phase.outcome.id == a
    && (if event.status == Confirmed then w'.sessions[sid].command.ConfirmHold?
       else w'.sessions[sid].command.CancelBooking?)
  }

  lemma ReservationEntry(cfg: Config, w: World, r: Uuid) returns (i: nat)
    requires LogOk(cfg, w) && Covered(w) && r in w.store.reservations
    ensures i < |w.log| && w.log[i].reservation == r && w.log[i].appointment == w.store.reservations[r].appointment
  {
    hide LogOk, Covered, Sound, PathOk;
    i := IndexOfReservation(w, r);
    EntryStored(cfg, w, i);
  }

  lemma SameAppointment(cfg: Config, w: World, i: nat, j: nat)
    requires LogOk(cfg, w) && i < |w.log| && j < |w.log| && w.log[i].appointment == w.log[j].appointment
    ensures i == j
  {
    hide EntryOk;
  }

  /** The event a staged status update appends is the next one of the path, in time. */
  predicate NextEvent(w: World, e: Entry, event: Event) {
    Stored(w, e) &&
    event.status == StatusAt(|w.history[e.appointment]|) && |w.history[e.appointment]| in {1, 2} &&
    event.decidedAt <= event.at &&
    (|w.history[e.appointment]| == 1 ==> event.decidedAt < HoldOf(w, e).expiredAt) &&
    (|w.history[e.appointment]| == 2 ==> event.decidedAt <= DetailsOf(w, e).start)
  }

  lemma StatusIsNext(cfg: Config, w: World, w': World, sid: nat, i: nat)
    requires LogOk(cfg, w) && Covered(w) && Committing(cfg, w, w', sid) && w.sessions[sid].phase.write.SetStatus?
    requires i < |w.log| && w.log[i].appointment == w.sessions[sid].phase.write.target
    ensures NextEvent(w, w.log[i],
            Event(w.sessions[sid].phase.write.status, sid, w.sessions[sid].phase.decidedAt, w.clock))
  {
    hide LogOk, Covered, Sound, RowSeen, BuilderErrors, ListedTechnicians, ListedBays;
    var s := w.sessions[sid];
    var v := s.phase.view;
    if s.command.ConfirmHold? {
      var r := s.command.reservation;
      assert r in w.store.reservations && w.store.reservations[r] == v.snapshot.reservations[r];
      var j := ReservationEntry(cfg, w, r);
      SameAppointment(cfg, w, i, j);
    }
    EntryStored(cfg, w, i);
  }

  lemma StagedTarget(w: World, sid: nat)
    requires IsStaged(w, sid) && CanCommit(w, w.sessions[sid]) && w.sessions[sid].phase.write.SetStatus?
    ensures w.sessions[sid].phase.write.target in w.store.appointments && w.sessions[sid].captured.Some?
  {
  }

  lemma StatusShape(cfg: Config, w: World, w': World, sid: nat)
    requires LogOk(cfg, w) && Covered(w) && Committing(cfg, w, w', sid) && w.sessions[sid].phase.write.SetStatus?
    ensures var s := w.sessions[sid];
            OneStatus(w, w', sid, s.phase.write.target, Event(s.phase.write.status, sid, s.phase.decidedAt, w.clock))
  {
    hide LogOk, Covered, Sound, RowSeen, BuilderErrors, ListedTechnicians, ListedBays, FirstUpdater;
    CoveredKeys(w);
    StagedTarget(w, sid);
  }

  lemma StatusLater(w: World, w': World, sid: nat, a: Uuid, event: Event)
    requires OneStatus(w, w', sid, a, event)
    ensures Later(w, w')
  {
  }

  lemma StatusEntry(cfg: Config, w: World, w': World, sid: nat, a: Uuid, event: Event, e: Entry)
    requires OneStatus(w, w', sid, a, event) && EntryOk(cfg, w, e)
    requires e.appointment == a ==> NextEvent(w, e, event)
    ensures EntryOk(cfg, w', e)
  {
    hide Sound, Won;
  }

  lemma StatusKeepsLog(cfg: Config, w: World, w': World, sid: nat, a: Uuid, event: Event)
    requires OneStatus(w, w', sid, a, event) && LogOk(cfg, w)
    requires forall i | 0 <= i < |w.log| && w.log[i].appointment == a :: NextEvent(w, w.log[i], event)
    ensures LogOk(cfg, w')
  {
    hide EntryOk, NextEvent;
    forall i | 0 <= i < |w'.log| ensures EntryOk(cfg, w', w'.log[i]) {
      StatusEntry(cfg, w, w', sid, a, event, w.log[i]);
    }
  }

  lemma StatusKeepsCovered(w: World, w': World, sid: nat, a: Uuid, event: Event)
    requires OneStatus(w, w', sid, a, event) && Covered(w)
    ensures Covered(w')
  {
    hide Covered, Won;
    CoveredKeys(w);
    assert w'.store.appointments.Keys == w.store.appointments.Keys;
    assert w'.history.Keys == w.history.Keys;
    SameSize(w.store.appointments, w'.store.appointments);
    CoveredSame(w, w');
  }

  lemma SameSize<K, V>(m: map<K, V>, m': map<K, V>)
    requires m.Keys == m'.Keys
    ensures |m| == |m'|
  {
    assert |m| == |m.Keys| && |m'| == |m'.Keys|;
  }

  lemma CoveredSame(w: World, w': World)
    requires Covered(w) && w'.log == w.log && w'.history.Keys == w.history.Keys
    requires w'.store.reservations == w.store.reservations && w'.store.vehicles == w.store.vehicles
    requires w'.store.appointments.Keys == w.store.appointments.Keys
             && |w'.store.appointments| == |w.store.appointments|
    ensures Covered(w')
  {
  }

  lemma StatusKeepsOwners(w: World, w': World, sid: nat, a: Uuid, event: Event)
    requires OneStatus(w, w', sid, a, event) && Owners(w)
    requires event.status == StatusAt(|w.history[a]|)
    ensures Owners(w')
  {
    forall x | Won(w, x) ensures Won(w', x) && w'.sessions[x] == w.sessions[x] {
    }
    hide Won;
    forall b, m | b in w'.history && 0 <= m < |w'.history[b]| ensures Credited(w', b, m) {
      if b != a || m < |w.history[a]| {
        assert w'.history[b][m] == w.history[b][m];
        assert Credited(w, b, m);
      }
    }
  }

  lemma GoneKept(cfg: Config, w: World, w': World, e: Entry, t: Time)
    requires EntryOk(cfg, w, e) && EntryOk(cfg, w', e) && Later(w, w') && Gone(w, e, t) && t <= w.clock
    ensures Gone(w', e, t)
  {
    hide Later, Sound;
    GoneStable(w, w', e, t);
  }

  lemma ApartKept(cfg: Config, w: World, w': World, e: Entry, f: Entry)
    requires EntryOk(cfg, w, e) && EntryOk(cfg, w', e) && EntryOk(cfg, w, f) && EntryOk(cfg, w', f)
    requires Later(w, w') && Apart(w, e, f)
    ensures Apart(w', e, f)
  {
    assert e.query.now <= w.clock && f.query.now <= w.clock && Stored(w, e) && Stored(w, f);
    assert DetailsOf(w', e) == DetailsOf(w, e) && DetailsOf(w', f) == DetailsOf(w, f);
    hide EntryOk, Later, Gone, Clash;
    if Gone(w, e, f.query.now) { GoneKept(cfg, w, w', e, f.query.now); }
    if Gone(w, f, e.query.now) { GoneKept(cfg, w, w', f, e.query.now); }
  }

  /** Two bookings that were apart stay apart. */
  lemma OldPairsKept(cfg: Config, w: World, w': World)
    requires LogOk(cfg, w) && LogOk(cfg, w') && Exclusive(w) && Later(w, w')
    ensures forall i, j | 0 <= i < j < |w.log| :: Apart(w', w'.log[i], w'.log[j])
  {
    assert forall i | 0 <= i < |w.log| :: w'.log[i] == w.log[i];
    hide LogOk, Apart, EntryOk, Later;
    forall i, j | 0 <= i < j < |w.log| ensures Apart(w', w'.log[i], w'.log[j]) {
      EntryStored(cfg, w, i); EntryStored(cfg, w, j);
      EntryStoredBefore(cfg, w, w', i); EntryStoredBefore(cfg, w, w', j);
      ApartKept(cfg, w, w', w.log[i], w.log[j]);
    }
  }

  lemma EntryStoredBefore(cfg: Config, w: World, w': World, i: nat)
    requires LogOk(cfg, w') && Later(w, w') && i < |w.log|
    ensures i < |w'.log| && w'.log[i] == w.log[i] && EntryOk(cfg, w', w.log[i])
  {
    hide EntryOk;
  }

  lemma StatusSession(cfg: Config, w: World, w': World, sid: nat)
    requires Committing(cfg, w, w', sid) && w.sessions[sid].phase.write.SetStatus? && Later(w, w')
    requires forall i | 0 <= i < |w.log| && w.log[i].appointment == w.sessions[sid].phase.write.target ::
      NextEvent(w, w.log[i], Event(w.sessions[sid].phase.write.status, sid, w.sessions[sid].phase.decidedAt, w.clock))
    requires Covered(w)
    ensures SessionOk(cfg, w', sid, w'.sessions[sid])
  {
    hide Covered, LogOk, Later, Sound, BuilderErrors, ListedTechnicians, ListedBays, RowSeen, SessionOk;
    var s := w.sessions[sid];
    var a := s.phase.write.target;
    var i := IndexOf(w, a);
    assert NextEvent(w, w.log[i], Event(s.phase.write.status, sid, s.phase.decidedAt, w.clock));
    StatusOfCommand(cfg, w, sid, s);
    SessionStable(cfg, w, w', sid, s);
    StatusDone(cfg, w, w', sid, s);
  }

  lemma StatusOfCommand(cfg: Config, w: World, sid: nat, s: Session)
    requires SessionOk(cfg, w, sid, s) && s.phase.Staged? && s.phase.write.SetStatus?
    ensures s.phase.write.status == if s.command.ConfirmHold? then Confirmed else Cancelled
  {
  }

  /** s is the session before its commit, judged in the world after it. */
  lemma StatusDone(cfg: Config, w: World, w': World, sid: nat, s: Session)
    requires SessionOk(cfg, w', sid, s) && s.phase.Staged? && s.phase.write.SetStatus?
    requires s.phase.write.target in w.history
             && |w.history[s.phase.write.target]| == (if s.command.ConfirmHold? then 1 else 2)
    requires s.phase.write.target in w'.history
    requires w'.history[s.phase.write.target] ==
             w.history[s.phase.write.target] + [Event(s.phase.write.status, sid, s.phase.decidedAt, w.clock)]
    ensures SessionOk(cfg, w', sid, s.(phase := Done(Succeeded(s.captured.value))))
  {
    hide BuilderErrors, ListedTechnicians, ListedBays;
  }

  lemma StatusKeeps(cfg: Config, w: World, w': World, sid: nat)
    requires Inv(cfg, w) && Committing(cfg, w, w', sid) && w.sessions[sid].phase.write.SetStatus?
    ensures Inv(cfg, w') && Later(w, w')
  {
    hide LogOk, Covered, Owners, Exclusive, SessionsOk, Later, OneStatus, NextEvent, SessionOk, Committed;
    var s := w.sessions[sid];
    var a, event := s.phase.write.target, Event(s.phase.write.status, sid, s.phase.decidedAt, w.clock);
    StatusShape(cfg, w, w', sid);
    StatusLater(w, w', sid, a, event);
    forall i | 0 <= i < |w.log| && w.log[i].appointment == a ensures NextEvent(w, w.log[i], event) {
      StatusIsNext(cfg, w, w', sid, i);
    }
    StatusKeepsLog(cfg, w, w', sid, a, event);
    StatusKeepsCovered(w, w', sid, a, event);
    NextStatus(w, w', sid, a, event);
    StatusKeepsOwners(w, w', sid, a, event);
    StatusKeepsExclusive(cfg, w, w', sid, a, event);
    StatusSession(cfg, w, w', sid);
    StatusKeepsSessions(cfg, w, w', sid, a, event);
  }

  lemma NextStatus(w: World, w': World, sid: nat, a: Uuid, event: Event)
    requires OneStatus(w, w', sid, a, event) && Covered(w)
    requires forall i | 0 <= i < |w.log| && w.log[i].appointment == a :: NextEvent(w, w.log[i], event)
    ensures event.status == StatusAt(|w.history[a]|)
  {
    hide Covered, Won;
    var i := IndexOf(w, a);
    assert NextEvent(w, w.log[i], event);
  }

  lemma StatusKeepsExclusive(cfg: Config, w: World, w': World, sid: nat, a: Uuid, event: Event)
    requires OneStatus(w, w', sid, a, event) && LogOk(cfg, w) && LogOk(cfg, w') && Exclusive(w) && Later(w, w')
    ensures Exclusive(w')
  {
    assert |w'.log| == |w.log|;
    hide OneStatus, LogOk, Apart, Later;
    OldPairsKept(cfg, w, w');
  }

  lemma StatusKeepsSessions(cfg: Config, w: World, w': World, sid: nat, a: Uuid, event: Event)
    requires OneStatus(w, w', sid, a, event) && SessionsOk(cfg, w) && Later(w, w')
    requires SessionOk(cfg, w', sid, w'.sessions[sid])
    ensures SessionsOk(cfg, w')
  {
    hide SessionOk, Later, Won;
    SessionsStable(cfg, w, w', sid);
  }

  // ---- A new booking ----

  function NewEntry(w: World, sid: nat): Entry
    requires IsStaged(w, sid) && w.sessions[sid].phase.write.Insert? && w.sessions[sid].plan.Some?
  {
    var s := w.sessions[sid];
    var write := s.phase.write;
    Entry(sid, s.plan.value.Query(s.phase.view.began), write.appointment, write.hold.uuid, write.details.vehicle,
          write.hold.key, s.plan.value.validatedAt, w.clock)
  }

  /** One row more in each table, one entry more in the log. */
  predicate OneBooking(
    w: World, w': World, sid: nat, e: Entry, d: Details, hold: Reservation, vehicle: VehicleRow, decidedAt: Time)
  {
    && e.appointment !in w.store.appointments && e.appointment !in w.history
    && e.reservation !in w.store.reservations && e.vehicle !in w.store.vehicles
    && w'.clock == w.clock && w'.log == w.log + [e] && w'.issued == w.issued
    && w'.store.vehicles == w.store.vehicles[e.vehicle := vehicle]
    && w'.store.appointments == w.store.appointments[e.appointment := AppointmentRow(d, Pending)]
    && w'.store.reservations == w.store.reservations[e.reservation := hold]
    && w'.history == w.history[e.appointment := [Event(Pending, sid, decidedAt, w.clock)]]
    && e.session == sid && e.committedAt == w.clock
    && sid in w.sessions && sid in w'.sessions && w'.sessions == w.sessions[sid := w'.sessions[sid]] && !Won(w, sid)
       && Won(w', sid)
    && w'.sessions[sid].command.Book? && w'.sessions[sid].phase.outcome.id == e.reservation
       && hold.appointment == e.appointment
    && e.appointment in w.issued && e.reservation in w.issued && e.vehicle in w.issued
    && w.issued[e.appointment] == w.issued[e.reservation] == w.issued[e.vehicle] == sid
  }

  predicate NewEntryOk(
    cfg: Config, w: World, e: Entry, d: Details, hold: Reservation, vehicle: VehicleRow, decidedAt: Time)
  {
    && hold.uuid == e.reservation && hold.appointment == e.appointment && hold.key == e.key
    && d.vehicle == e.vehicle && vehicle.user == d.user
    && e.query == BusyQuery(d.dealership, d.start, d.end, e.query.now)
    && e.validatedAt <= e.query.now <= hold.createdAt == decidedAt <= w.clock
    && hold.expiredAt == hold.createdAt + cfg.Factory().reservationTTL
    && Sound(cfg, d, e.validatedAt)
  }

  /** UUIDs issued to a session that has not won are in no table. */
  lemma FreshRows(w: World, sid: nat, a: Uuid, r: Uuid, x: Uuid)
    requires Owners(w) && !Won(w, sid)
    requires a in w.issued && r in w.issued && x in w.issued && w.issued[a] == w.issued[r] == w.issued[x] == sid
    ensures a !in w.store.appointments && r !in w.store.reservations && x !in w.store.vehicles
  {
  }

  lemma BookingShape(cfg: Config, w: World, w': World, sid: nat)
    requires Committing(cfg, w, w', sid) && w.sessions[sid].phase.write.Insert? && Owners(w) && Covered(w)
    ensures w.sessions[sid].plan.Some?
    ensures var s := w.sessions[sid]; var write := s.phase.write;
            && OneBooking(w, w', sid, NewEntry(w, sid), write.details, write.hold, write.vehicle, s.phase.decidedAt)
            && NewEntryOk(cfg, w, NewEntry(w, sid), write.details, write.hold, write.vehicle, s.phase.decidedAt)
  {
    hide Covered, Owners, Sound, RowSeen, Serializable, BusyTechnicians, BusyBays, BuilderErrors, ListedTechnicians,
         ListedBays;
    CoveredKeys(w);
    var s := w.sessions[sid];
    FreshRows(w, sid, s.phase.write.appointment, s.phase.write.hold.uuid, s.plan.value.vehicle);
  }

  lemma BookingLater(
    w: World, w': World, sid: nat, e: Entry, d: Details, hold: Reservation, vehicle: VehicleRow, decidedAt: Time)
    requires OneBooking(w, w', sid, e, d, hold, vehicle, decidedAt)
    ensures Later(w, w')
  {
  }

  lemma OldEntryKept(
    cfg: Config, w: World, w': World, sid: nat, e: Entry, d: Details, hold: Reservation, vehicle: VehicleRow,
    decidedAt: Time, f: Entry)
    requires OneBooking(w, w', sid, e, d, hold, vehicle, decidedAt) && EntryOk(cfg, w, f)
    ensures EntryOk(cfg, w', f)
  {
    hide Sound, Won;
  }

  lemma NewEntryKept(
    cfg: Config, w: World, w': World, sid: nat, e: Entry, d: Details, hold: Reservation, vehicle: VehicleRow,
    decidedAt: Time)
    requires OneBooking(w, w', sid, e, d, hold, vehicle, decidedAt)
             && NewEntryOk(cfg, w, e, d, hold, vehicle, decidedAt)
    ensures EntryOk(cfg, w', e)
  {
    hide Sound, Won;
  }

  lemma NewEntryDiffers(
    cfg: Config, w: World, w': World, sid: nat, e: Entry, d: Details, hold: Reservation, vehicle: VehicleRow,
    decidedAt: Time, i: nat)
    requires OneBooking(w, w', sid, e, d, hold, vehicle, decidedAt) && LogOk(cfg, w) && Owners(w) && i < |w.log|
    requires !HasKey(w.store, e.key)
    ensures Different(w.log[i], e)
  {
    assert Won(w, w.log[i].session);
    hide LogOk, Owners, Sound, PathOk;
    EntryStored(cfg, w, i);
  }

  lemma BookingKeepsLog(
    cfg: Config, w: World, w': World, sid: nat, e: Entry, d: Details, hold: Reservation, vehicle: VehicleRow,
    decidedAt: Time)
    requires OneBooking(w, w', sid, e, d, hold, vehicle, decidedAt)
             && NewEntryOk(cfg, w, e, d, hold, vehicle, decidedAt)
    requires LogOk(cfg, w) && Owners(w) && !HasKey(w.store, e.key)
    ensures LogOk(cfg, w')
  {
    assert w'.log == w.log + [e];
    assert forall i, j | 0 <= i < j < |w.log| :: Different(w.log[i], w.log[j]);
    hide LogOk, Owners, EntryOk, NewEntryOk, OneBooking, Different, HasKey;
    forall i | 0 <= i < |w'.log| ensures EntryOk(cfg, w', w'.log[i]) {
      if i < |w.log| {
        EntryStored(cfg, w, i);
        OldEntryKept(cfg, w, w', sid, e, d, hold, vehicle, decidedAt, w.log[i]);
      } else {
        NewEntryKept(cfg, w, w', sid, e, d, hold, vehicle, decidedAt);
      }
    }
    forall i, j | 0 <= i < j < |w'.log| ensures Different(w'.log[i], w'.log[j]) {
      if j == |w.log| { NewEntryDiffers(cfg, w, w', sid, e, d, hold, vehicle, decidedAt, i); }
    }
    LogIntro(cfg, w');
  }

  lemma LogIntro(cfg: Config, w: World)
    requires forall i | 0 <= i < |w.log| :: EntryOk(cfg, w, w.log[i])
    requires forall i, j | 0 <= i < j < |w.log| :: Different(w.log[i], w.log[j])
    ensures LogOk(cfg, w)
  {
    hide EntryOk, Different;
  }

  lemma AppointmentsInLog(w: World, w': World, e: Entry)
    requires Covered(w) && w'.log == w.log + [e]
             && w'.store.appointments.Keys == w.store.appointments.Keys + {e.appointment}
    ensures forall a | a in w'.store.appointments :: exists i :: 0 <= i < |w'.log| && w'.log[i].appointment == a
  {
    hide Covered;
    assert w'.log[|w.log|] == e;
    forall a | a in w'.store.appointments ensures exists i :: 0 <= i < |w'.log| && w'.log[i].appointment == a {
      if a != e.appointment {
        var i := IndexOf(w, a);
        assert w'.log[i].appointment == a;
      }
    }
  }

  lemma ReservationsInLog(w: World, w': World, e: Entry)
    requires Covered(w) && w'.log == w.log + [e]
             && w'.store.reservations.Keys == w.store.reservations.Keys + {e.reservation}
    ensures forall r | r in w'.store.reservations :: exists i :: 0 <= i < |w'.log| && w'.log[i].reservation == r
  {
    hide Covered;
    assert w'.log[|w.log|] == e;
    forall r | r in w'.store.reservations ensures exists i :: 0 <= i < |w'.log| && w'.log[i].reservation == r {
      if r != e.reservation {
        var i := IndexOfReservation(w, r);
        assert w'.log[i].reservation == r;
      }
    }
  }

  lemma VehiclesInLog(w: World, w': World, e: Entry)
    requires Covered(w) && w'.log == w.log + [e] && w'.store.vehicles.Keys == w.store.vehicles.Keys + {e.vehicle}
    ensures forall x | x in w'.store.vehicles :: exists i :: 0 <= i < |w'.log| && w'.log[i].vehicle == x
  {
    hide Covered;
    assert w'.log[|w.log|] == e;
    forall x | x in w'.store.vehicles ensures exists i :: 0 <= i < |w'.log| && w'.log[i].vehicle == x {
      if x != e.vehicle {
        var i := IndexOfVehicle(w, x);
        assert w'.log[i].vehicle == x;
      }
    }
  }

  lemma OneMore<K, V>(m: map<K, V>, k: K, v: V)
    requires k !in m
    ensures m[k := v].Keys == m.Keys + {k} && |m[k := v]| == |m| + 1
  {
    assert m[k := v].Keys == m.Keys + {k};
    assert |m[k := v].Keys| == |m.Keys| + 1;
  }

  /** Every table has one key more, and the log one entry. */
  lemma BookingCounts(
    w: World, w': World, sid: nat, e: Entry, d: Details, hold: Reservation, vehicle: VehicleRow, decidedAt: Time)
    requires OneBooking(w, w', sid, e, d, hold, vehicle, decidedAt) && Covered(w)
    ensures w'.log == w.log + [e] && w'.history.Keys == w'.store.appointments.Keys
    ensures w'.store.appointments.Keys == w.store.appointments.Keys + {e.appointment}
    ensures w'.store.reservations.Keys == w.store.reservations.Keys + {e.reservation}
    ensures w'.store.vehicles.Keys == w.store.vehicles.Keys + {e.vehicle}
    ensures |w'.store.appointments| == |w'.store.reservations| == |w'.store.vehicles| == |w'.log|
  {
    hide Covered, Won;
    CoveredKeys(w);
    CoveredCounts(w);
    OneMore(w.store.appointments, e.appointment, AppointmentRow(d, Pending));
    OneMore(w.store.reservations, e.reservation, hold);
    OneMore(w.store.vehicles, e.vehicle, vehicle);
    OneMore(w.history, e.appointment, [Event(Pending, sid, decidedAt, w.clock)]);
  }

  lemma BookingKeepsCovered(
    w: World, w': World, sid: nat, e: Entry, d: Details, hold: Reservation, vehicle: VehicleRow, decidedAt: Time)
    requires OneBooking(w, w', sid, e, d, hold, vehicle, decidedAt) && Covered(w)
    ensures Covered(w')
  {
    hide Covered, OneBooking;
    BookingCounts(w, w', sid, e, d, hold, vehicle, decidedAt);
    AppointmentsInLog(w, w', e);
    ReservationsInLog(w, w', e);
    VehiclesInLog(w, w', e);
    CoveredIntro(w');
  }

  lemma CoveredCounts(w: World)
    requires Covered(w)
    ensures |w.store.appointments| == |w.store.reservations| == |w.store.vehicles| == |w.log|
  {
  }

  lemma IndexOfVehicle(w: World, x: Uuid) returns (i: nat)
    requires Covered(w) && x in w.store.vehicles
    ensures i < |w.log| && w.log[i].vehicle == x
  {
    i :| 0 <= i < |w.log| && w.log[i].vehicle == x;
  }

  lemma CoveredIntro(w: World)
    requires w.history.Keys == w.store.appointments.Keys
    requires forall a | a in w.store.appointments :: exists i :: 0 <= i < |w.log| && w.log[i].appointment == a
    requires forall r | r in w.store.reservations :: exists i :: 0 <= i < |w.log| && w.log[i].reservation == r
    requires forall x | x in w.store.vehicles :: exists i :: 0 <= i < |w.log| && w.log[i].vehicle == x
    requires |w.store.appointments| == |w.store.reservations| == |w.store.vehicles| == |w.log|
    ensures Covered(w)
  {
  }

  lemma BookingKeepsOwners(
    w: World, w': World, sid: nat, e: Entry, d: Details, hold: Reservation, vehicle: VehicleRow, decidedAt: Time)
    requires OneBooking(w, w', sid, e, d, hold, vehicle, decidedAt) && Owners(w)
    ensures Owners(w')
  {
    forall x | Won(w, x) ensures Won(w', x) && w'.sessions[x] == w.sessions[x] {
    }
    hide Won;
    forall b, m | b in w'.history && 0 <= m < |w'.history[b]| ensures Credited(w', b, m) {
      if b != e.appointment { assert Credited(w, b, m); }
    }
  }

  // ---- Why the new booking clashes with no live claim ----

  /** A booking that committed after the snapshot: SSI lets both commit only if one of them
      could not match the other's query, and then that one's hold was over. */
  lemma ConcurrentApart(cfg: Config, w: World, w': World, view: View, e: Entry, f: Entry)
    requires EntryOk(cfg, w', e) && EntryOk(cfg, w', f)
    requires e.committedAt >= view.takenAt >= view.began == f.query.now && |w'.history[f.appointment]| == 1
    requires !(Misses(f.query, DetailsOf(w', e), HoldOf(w', e)) && Misses(e.query, DetailsOf(w', f), HoldOf(w', f)))
    ensures Apart(w', e, f)
  {
    hide Sound;
  }

  lemma BusyIsListed(store: Store, q: BusyQuery, a: Uuid)
    requires a in store.appointments
    ensures Busy(store, q, a) ==>
            store.appointments[a].details.technician in BusyTechnicians(store, q) &&
            store.appointments[a].details.bay in BusyBays(store, q)
  {
    if Busy(store, q, a) {
      var row := BusyRow(store.appointments[a].details.bay, store.appointments[a].details.technician);
      assert row in BusyRows(store, q);
    }
  }

  /** A booking the snapshot shows: the picker avoided it if it was claimed then. */
  lemma SeenApart(cfg: Config, w: World, w': World, view: View, e: Entry, f: Entry)
    requires EntryOk(cfg, w', e) && EntryOk(cfg, w', f) && RowSeenIn(w', view, e)
    requires view.began == f.query.now <= view.takenAt
    requires DetailsOf(w', f).technician !in BusyTechnicians(view.snapshot, f.query)
    requires DetailsOf(w', f).bay !in BusyBays(view.snapshot, f.query)
    ensures Apart(w', e, f)
  {
    hide Sound;
    var a, d := e.appointment, view.snapshot.appointments[e.appointment].details;
    if Clash(DetailsOf(w', e), DetailsOf(w', f)) {
      BusyIsListed(view.snapshot, f.query, a);
      assert !Claimed(view.snapshot, a, view.began);
      var status := view.snapshot.appointments[a].status;
      if status == Pending {
        assert view.snapshot.reservations[e.reservation].appointment == a;
        assert HoldOf(w', e).expiredAt <= view.began;
      } else {
        assert status == Cancelled;
      }
    }
  }

  predicate RowSeenIn(w: World, v: View, e: Entry) {
    e.appointment in v.snapshot.appointments && RowSeen(w, v, e.appointment)
    && e.reservation in v.snapshot.reservations && e.reservation in w.store.reservations
    && v.snapshot.reservations[e.reservation] == w.store.reservations[e.reservation]
  }

  /** What the committing session brings to the exclusion argument. */
  predicate Careful(w: World, view: View, f: Entry, d: Details, hold: Reservation) {
    && view.began == f.query.now
    && d.technician !in BusyTechnicians(view.snapshot, f.query) && d.bay !in BusyBays(view.snapshot, f.query)
    && Serializable(w, view, f.query, d, hold)
  }

  lemma BookingCareful(cfg: Config, w: World, w': World, sid: nat)
    requires Committing(cfg, w, w', sid) && w.sessions[sid].phase.write.Insert? && w.sessions[sid].plan.Some?
    ensures var s := w.sessions[sid];
            && Careful(w, s.phase.view, NewEntry(w, sid), s.phase.write.details, s.phase.write.hold)
            && ViewOk(w, s.phase.view) && !HasKey(w.store, NewEntry(w, sid).key)
  {
    hide Sound, RowSeen, Serializable, BuilderErrors, ListedTechnicians, ListedBays, BusyTechnicians, BusyBays;
  }

  lemma NewPairApart(
    cfg: Config, w: World, w': World, sid: nat, view: View, f: Entry, d: Details, hold: Reservation,
    vehicle: VehicleRow, decidedAt: Time, i: nat)
    requires OneBooking(w, w', sid, f, d, hold, vehicle, decidedAt) && LogOk(cfg, w') && Careful(w, view, f, d, hold)
    requires ViewOk(w, view) && ViewOk(w', view) && i < |w.log|
    ensures Apart(w', w.log[i], f)
  {
    assert w'.log[i] == w.log[i] && w'.log[|w.log|] == f;
    var e := w.log[i];
    assert w'.history[f.appointment] == [Event(Pending, sid, decidedAt, w.clock)];
    assert DetailsOf(w', f) == d && HoldOf(w', f) == hold by { EntryStored(cfg, w', |w.log|); }
    EntryStored(cfg, w', i);
    EntryStored(cfg, w', |w.log|);
    hide LogOk, EntryOk, Apart, BusyTechnicians, BusyBays, Misses, RowSeen;
    if i < view.seen {
      assert RowSeenIn(w', view, e);
      SeenApart(cfg, w, w', view, e, f);
    } else {
      OldRowIsStored(cfg, w, w', sid, f, d, hold, vehicle, decidedAt, e);
      ConcurrentApart(cfg, w, w', view, e, f);
    }
  }

  lemma OldRowIsStored(
    cfg: Config, w: World, w': World, sid: nat, f: Entry, d: Details, hold: Reservation, vehicle: VehicleRow,
    decidedAt: Time, e: Entry)
    requires OneBooking(w, w', sid, f, d, hold, vehicle, decidedAt) && Stored(w', e)
    requires e.appointment != f.appointment && e.reservation != f.reservation
    ensures e.appointment in w.store.appointments && e.reservation in w.store.reservations
    ensures w.store.appointments[e.appointment].details == DetailsOf(w', e)
            && w.store.reservations[e.reservation] == HoldOf(w', e)
  {
  }

  lemma BookingKeepsExclusive(
    cfg: Config, w: World, w': World, sid: nat, view: View, f: Entry, d: Details, hold: Reservation,
    vehicle: VehicleRow, decidedAt: Time)
    requires OneBooking(w, w', sid, f, d, hold, vehicle, decidedAt) && Careful(w, view, f, d, hold) && ViewOk(w, view)
    requires LogOk(cfg, w) && LogOk(cfg, w') && Exclusive(w) && Later(w, w')
    ensures Exclusive(w')
  {
    assert w'.log == w.log + [f];
    hide LogOk, OneBooking, Careful, ViewOk, Exclusive, Later, Apart;
    OldPairsKept(cfg, w, w');
    ViewStable(w, w', view);
    forall i, j | 0 <= i < j < |w'.log| ensures Apart(w', w'.log[i], w'.log[j]) {
      if j == |w.log| { NewPairApart(cfg, w, w', sid, view, f, d, hold, vehicle, decidedAt, i); }
    }
    ExclusiveIntro(w');
  }

  lemma ExclusiveIntro(w: World)
    requires forall i, j | 0 <= i < j < |w.log| :: Apart(w, w.log[i], w.log[j])
    ensures Exclusive(w)
  {
    hide Apart;
  }

  lemma BookingSession(cfg: Config, w: World, w': World, sid: nat)
    requires Committing(cfg, w, w', sid) && w.sessions[sid].phase.write.Insert? && Later(w, w')
    ensures SessionOk(cfg, w', sid, w'.sessions[sid])
  {
    hide Later, SessionOk, Serializable, HasKey;
    var s := w.sessions[sid];
    SessionStable(cfg, w, w', sid, s);
    assert w'.store.reservations[s.phase.write.hold.uuid] == s.phase.write.hold;
    BookingDone(cfg, w', sid, s);
  }

  lemma BookingDone(cfg: Config, w: World, sid: nat, s: Session)
    requires SessionOk(cfg, w, sid, s) && s.phase.Staged? && s.phase.write.Insert? && s.captured.Some?
    requires s.phase.write.hold.uuid in w.store.reservations
    requires w.store.reservations[s.phase.write.hold.uuid] == s.phase.write.hold
    ensures SessionOk(cfg, w, sid, s.(phase := Done(Succeeded(s.captured.value))))
  {
    hide ViewOk, Sound, BuilderErrors, ListedTechnicians, ListedBays, BusyTechnicians, BusyBays;
  }

  lemma BookingKeepsSessions(
    cfg: Config, w: World, w': World, sid: nat, f: Entry, d: Details, hold: Reservation, vehicle: VehicleRow,
    decidedAt: Time)
    requires OneBooking(w, w', sid, f, d, hold, vehicle, decidedAt) && SessionsOk(cfg, w) && Later(w, w')
    requires SessionOk(cfg, w', sid, w'.sessions[sid])
    ensures SessionsOk(cfg, w')
  {
    hide SessionOk, Later, Won;
    SessionsStable(cfg, w, w', sid);
  }

  lemma BookingKeeps(cfg: Config, w: World, w': World, sid: nat)
    requires Inv(cfg, w) && Committing(cfg, w, w', sid) && w.sessions[sid].phase.write.Insert?
    ensures Inv(cfg, w') && Later(w, w')
  {
    hide LogOk, Covered, Owners, Exclusive, SessionsOk, Later, OneBooking, NewEntryOk, SessionOk, Committed, CanCommit,
         Careful, ViewOk, HasKey;
    BookingShape(cfg, w, w', sid);
    BookingCareful(cfg, w, w', sid);
    var s, e := w.sessions[sid], NewEntry(w, sid);
    var d, hold, vehicle, decidedAt := s.phase.write.details, s.phase.write.hold, s.phase.write.vehicle,
        s.phase.decidedAt;
    BookingLater(w, w', sid, e, d, hold, vehicle, decidedAt);
    BookingKeepsLog(cfg, w, w', sid, e, d, hold, vehicle, decidedAt);
    BookingKeepsCovered(w, w', sid, e, d, hold, vehicle, decidedAt);
    BookingKeepsOwners(w, w', sid, e, d, hold, vehicle, decidedAt);
    BookingKeepsExclusive(cfg, w, w', sid, s.phase.view, e, d, hold, vehicle, decidedAt);
    BookingSession(cfg, w, w', sid);
    BookingKeepsSessions(cfg, w, w', sid, e, d, hold, vehicle, decidedAt);
  }

  // ---- All steps ----

  lemma SessionAt(cfg: Config, w: World, sid: nat)
    requires Inv(cfg, w) && sid in w.sessions
    ensures SessionOk(cfg, w, sid, w.sessions[sid])
  {
    hide LogOk, Covered, Owners, Exclusive, SessionOk;
  }

  lemma CommitKeeps(cfg: Config, w: World, w': World, sid: nat)
    requires Inv(cfg, w) && Enabled(cfg, w, Commit(sid)) && w' == Apply(cfg, w, Commit(sid))
    ensures Inv(cfg, w') && Later(w, w')
  {
    hide Inv, SessionOk, CanCommit, Committed, Later;
    SessionAt(cfg, w, sid);
    match w.sessions[sid].phase.write
    case NoWrite => ReplayKeeps(cfg, w, w', sid);
    case Insert(_, _, _, _) => BookingKeeps(cfg, w, w', sid);
    case SetStatus(_, _) => StatusKeeps(cfg, w, w', sid);
  }

  /** Every step of every command, and every tick, keeps the invariant and only moves forwards. */
  lemma StepKeeps(cfg: Config, w: World, step: Step)
    requires Inv(cfg, w) && Enabled(cfg, w, step)
    ensures Inv(cfg, Apply(cfg, w, step)) && Later(w, Apply(cfg, w, step))
  {
    hide *;
    var w' := Apply(cfg, w, step);
    match step
    case Tick(elapsed) => TickKeeps(cfg, w, w', elapsed);
    case Call(sid, command) => CallKeeps(cfg, w, w', sid, command);
    case Commit(sid) => CommitKeeps(cfg, w, w', sid);
    case _ => AdvanceKeeps(cfg, w, w', step);
  }

  lemma InitOk(cfg: Config, clock: Time)
    ensures Inv(cfg, Init(clock))
  {
  }

  lemma {:induction false} RunKeeps(cfg: Config, w: World, trace: seq<Step>, w': World)
    requires Inv(cfg, w) && Exec(cfg, w, trace) == Some(w')
    ensures Inv(cfg, w')
  {
    hide Inv, Enabled, Apply;
    if trace != [] {
      var front := trace[..|trace| - 1];
      var mid := Exec(cfg, w, front).value;
      RunKeeps(cfg, w, front, mid);
      StepKeeps(cfg, mid, trace[|trace| - 1]);
    }
  }

  /** The invariant holds of every interleaving of any number of commands. */
  lemma ReachableOk(cfg: Config, w: World)
    requires Reachable(cfg, w)
    ensures Inv(cfg, w)
  {
    hide Inv, Exec, Init;
    var clock, trace :| Exec(cfg, Init(clock), trace) == Some(w);
    InitOk(cfg, clock);
    RunKeeps(cfg, Init(clock), trace, w);
  }
}
