/** What each command answers to every caller, on all tables that a run can reach, in terms of
    the stored rows alone; and runs in which the three commands of one appointment commit. */
module Answers {
  import opened Wrappers
  import opened Domain
  import opened Tables
  import opened Workforce
  import opened Booking
  import opened Protocol
  import opened Invariants
  import opened Safety
  import opened Records
  import opened Claims
  import opened Assignments
  import Deadlines
  import C = CallWitnesses
  import F = Refinement

  // ---- Confirm and cancel ----

  /** A confirm finds no reservation exactly when none is stored under the UUID, and no
      appointment exactly when the reservation's is another user's. Its owner is refused for
      the status, then for the expiry, and otherwise confirms that appointment. */
  lemma ConfirmAnswers(cfg: Config, w: World, user: string, r: Uuid, now: Time)
    requires Reachable(cfg, w)
    ensures DecideConfirm(w.store, user, r, now) == Err(ReservationNotFound) <==> r !in w.store.reservations
    ensures r in w.store.reservations ==> w.store.reservations[r].appointment in w.store.appointments
    ensures r in w.store.reservations ==>
              var answer, hold := DecideConfirm(w.store, user, r, now), w.store.reservations[r];
              var row := w.store.appointments[hold.appointment];
              var owns, open := row.details.user == user, row.status == Pending;
              && (answer == Err(AppointmentNotFound) <==> !owns)
              && (answer == Err(AppointmentNotPending) <==> owns && !open)
              && (answer == Err(ReservationExpired(hold.expiredAt)) <==> owns && open && hold.expiredAt <= now)
              && (answer == Ok(SetStatus(hold.appointment, Confirmed)) <==> owns && open && now < hold.expiredAt)
  {
    hide Reachable, Attached;
    RowsInBijection(cfg, w);
  }

  /** A cancel finds no appointment exactly when none is stored under the UUID or it is another
      user's. Its owner cancels a confirmed one up to and including its start. */
  lemma CancelAnswers(cfg: Config, w: World, user: string, a: Uuid, now: Time)
    requires Reachable(cfg, w)
    ensures DecideCancel(w.store, user, a, now) == Err(AppointmentNotFound) <==>
            a !in w.store.appointments || w.store.appointments[a].details.user != user
    ensures a in w.store.appointments && w.store.appointments[a].details.user == user ==>
              var answer, row := DecideCancel(w.store, user, a, now), w.store.appointments[a];
              && (answer == Err(AlreadyCancelled) <==> row.status == Cancelled)
              && (answer == Err(NotConfirmed) <==> row.status == Pending)
              && (answer == Err(InThePast) <==> row.status == Confirmed && row.details.start < now)
              && (answer == Ok(SetStatus(a, Cancelled)) <==> row.status == Confirmed && now <= row.details.start)
  {
    hide Reachable;
  }

  // ---- Book ----

  /** The technician of a claim that shares an instant with the query's window. */
  ghost predicate Engaged(store: Store, q: BusyQuery, technician: string) {
    exists a | a in store.appointments ::
      store.appointments[a].details.technician == technician
      && ClaimsInWindow(store, a, q.dealership, q.start, q.end, q.now)
  }

  /** The bay of such a claim. */
  ghost predicate Occupied(store: Store, q: BusyQuery, bay: string) {
    exists a | a in store.appointments ::
      store.appointments[a].details.bay == bay && ClaimsInWindow(store, a, q.dealership, q.start, q.end, q.now)
  }

  /** On tables of a run, busy for a window that is not empty is to be engaged or occupied. */
  lemma BusyOnTables(cfg: Config, w: World, q: BusyQuery)
    requires Reachable(cfg, w) && q.start < q.end
    ensures forall id :: id in BusyTechnicians(w.store, q) <==> Engaged(w.store, q, id)
    ensures forall id :: id in BusyBays(w.store, q) <==> Occupied(w.store, q, id)
  {
    hide Reachable, BusyTechnicians, BusyBays, ClaimsInWindow, FitTechnician, FitBay;
    forall a | a in w.store.appointments
           ensures w.store.appointments[a].details.start < w.store.appointments[a].details.end {
      var i := EveryBookingIsFit(cfg, w, a);
    }
    forall id {:trigger id in BusyTechnicians(w.store, q)} {:trigger id in BusyBays(w.store, q)}
      ensures id in BusyTechnicians(w.store, q) <==> Engaged(w.store, q, id)
      ensures id in BusyBays(w.store, q) <==> Occupied(w.store, q, id)
    {
      BusyAreTheClaims(w.store, q.dealership, q.start, q.end, q.now, id, id);
    }
  }

  /** A listed technician who is not engaged, with the best score of all listed who are not; and
      the first listed bay that is not occupied. */
  ghost predicate BestOnTables(
    store: Store, q: BusyQuery, technicians: seq<Technician>, bays: seq<ServiceBay>, d: Details)
  {
    && (exists t | t in technicians ::
          t.id == d.technician && !Engaged(store, q, t.id)
          && forall u | u in technicians && !Engaged(store, q, u.id) :: u.reviewScore <= t.reviewScore)
    && (exists i :: 0 <= i < |bays| && bays[i].id == d.bay && !Occupied(store, q, bays[i].id)
                    && forall j | 0 <= j < i :: Occupied(store, q, bays[j].id))
  }

  /** What a request with an unused key is answered. It books exactly when some listed technician
      is not engaged, some listed bay is not occupied and the key is not blank, and takes the best
      of those technicians and the first of those bays; it is refused for no availability exactly
      when all of the one or all of the other are taken. */
  ghost predicate BooksFreshKey(
    store: Store, q: BusyQuery, technicians: seq<Technician>, bays: seq<ServiceBay>, key: string, decision: Decision)
  {
    var free := (exists t | t in technicians :: !Engaged(store, q, t.id))
        && (exists b | b in bays :: !Occupied(store, q, b.id));
    && (decision == Reject(NoAvailability) <==> !free)
    && (decision == Reject(InvalidReservation) <==> free && TrimSpace(key) == "")
    && (decision.Stage? <==> free && TrimSpace(key) != "")
    && (decision.Stage? ==> decision.write.Insert? && BestOnTables(store, q, technicians, bays, decision.write.details))
  }

  /** The request's own transaction, on all tables of a run: it replays a reservation exactly
      when that has the key, and books, or not, as above when none has. */
  lemma BookingAnswers(
    cfg: Config, w: World, c: BookCommand, sorted: seq<Technician>, x: Uuid, began: Time, now: Time, a: Uuid, r: Uuid)
    requires Reachable(cfg, w) && c.serviceType in cfg.catalog && cfg.catalog[c.serviceType].duration > 0
    requires SortedByScore(sorted, ListedTechnicians(cfg.catalog, cfg.roster, c))
    requires forall t | t in ListedTechnicians(cfg.catalog, cfg.roster, c) :: t.id != ""
    requires forall b | b in ListedBays(cfg.catalog, cfg.roster, c) :: b.id != ""
    ensures var plan := PlanOf(cfg.catalog, cfg.roster, c, x, sorted, now);
            var decision := DecideBooking(cfg.Factory(), plan, w.store, began, now, a, r);
            var q := BusyQuery(c.dealership, c.start, c.start + cfg.catalog[c.serviceType].duration, began);
            && (forall r' ::
                  decision == Replay(r') <==>
                  r' in w.store.reservations && w.store.reservations[r'].key == c.key)
            && (HasKey(w.store, c.key)
                || BooksFreshKey(w.store, q, ListedTechnicians(cfg.catalog, cfg.roster, c),
                                 ListedBays(cfg.catalog, cfg.roster, c), c.key, decision))
  {
    hide Reachable, HasKey, BusyTechnicians, BusyBays, BooksFreshKey, CreateFn, ListedTechnicians, ListedBays,
         NewBookingFactory, DecideBooking, SortedByScore;
    var plan := PlanOf(cfg.catalog, cfg.roster, c, x, sorted, now);
    var q := plan.Query(began);
    BookingReplays(cfg, w, plan, began, now, a, r);
    CreateFnOnTables(cfg, w, plan, ListedTechnicians(cfg.catalog, cfg.roster, c), q, now, a, r);
    if !HasKey(w.store, c.key) {
      FreshKeyDecides(cfg.Factory(), plan, w.store, began, now, a, r);
    }
  }

  lemma FreshKeyDecides(
    factory: FactoryConfig, plan: Plan, store: Store, began: Time, now: Time, a: Uuid, r: Uuid)
    requires !HasKey(store, plan.command.key)
    ensures var q := plan.Query(began);
            DecideBooking(factory, plan, store, began, now, a, r) ==
                CreateFn(factory, plan, BusyTechnicians(store, q), BusyBays(store, q), now, a, r)
  {
  }

  lemma BookingReplays(cfg: Config, w: World, plan: Plan, began: Time, now: Time, a: Uuid, r: Uuid)
    requires Reachable(cfg, w)
    ensures forall q ::
              DecideBooking(cfg.Factory(), plan, w.store, began, now, a, r) == Replay(q) <==>
              q in w.store.reservations && w.store.reservations[q].key == plan.command.key
  {
    hide Reachable, CreateFn, BusyTechnicians, BusyBays;
    var query := plan.Query(began);
    CreateFnShape(cfg.Factory(), plan, BusyTechnicians(w.store, query), BusyBays(w.store, query), now, a, r);
    forall q | q in w.store.reservations && w.store.reservations[q].key == plan.command.key
      ensures DecideBooking(cfg.Factory(), plan, w.store, began, now, a, r) == Replay(q)
    {
      OneReservationPerKey(cfg, w, q, FindByKey(w.store, plan.command.key).value);
    }
  }

  lemma CreateFnOnTables(
    cfg: Config, w: World, plan: Plan, listed: seq<Technician>, q: BusyQuery, now: Time, a: Uuid, r: Uuid)
    requires Reachable(cfg, w) && q.start < q.end && SortedByScore(plan.technicians, listed) && plan.entry.duration > 0
    requires (forall t | t in listed :: t.id != "") && (forall b | b in plan.bays :: b.id != "")
    ensures var busyT, busyB := BusyTechnicians(w.store, q), BusyBays(w.store, q);
            BooksFreshKey(w.store, q, listed, plan.bays, plan.command.key,
                          CreateFn(cfg.Factory(), plan, busyT, busyB, now, a, r))
  {
    BusyOnTables(cfg, w, q);
    CreateFnOnList(cfg.Factory(), plan, listed, BusyTechnicians(w.store, q), BusyBays(w.store, q), now, a, r);
    FreeOnTables(w.store, q, listed, plan.bays);
    hide Reachable, BusyTechnicians, BusyBays, Engaged, Occupied, CreateFn, TrimSpace, BestFree, FirstFreeBay,
         BestOnTables;
  }

  lemma FreeOnTables(store: Store, q: BusyQuery, technicians: seq<Technician>, bays: seq<ServiceBay>)
    requires forall id :: id in BusyTechnicians(store, q) <==> Engaged(store, q, id)
    requires forall id :: id in BusyBays(store, q) <==> Occupied(store, q, id)
    ensures (exists t | t in technicians :: t.id !in BusyTechnicians(store, q)) <==>
            (exists t | t in technicians :: !Engaged(store, q, t.id))
    ensures (exists b | b in bays :: b.id !in BusyBays(store, q)) <==> (exists b | b in bays ::
                                                                          !Occupied(store, q, b.id))
    ensures forall d: Details ::
              BestOnTables(store, q, technicians, bays, d) <==>
              BestFree(technicians, BusyTechnicians(store, q), d.technician)
              && FirstFreeBay(bays, BusyBays(store, q), d.bay)
  {
    hide BusyTechnicians, BusyBays, Engaged, Occupied;
  }

  /** createFn over a list sorted by score. */
  lemma CreateFnOnList(
    factory: FactoryConfig, plan: Plan, listed: seq<Technician>, busyT: set<string>, busyB: set<string>, now: Time,
    a: Uuid, r: Uuid)
    requires SortedByScore(plan.technicians, listed) && plan.entry.duration > 0
    requires (forall t | t in listed :: t.id != "") && (forall b | b in plan.bays :: b.id != "")
    ensures var decision := CreateFn(factory, plan, busyT, busyB, now, a, r);
            var free := (exists t | t in listed :: t.id !in busyT) && (exists b | b in plan.bays :: b.id !in busyB);
            && (decision == Reject(NoAvailability) <==> !free)
            && (decision == Reject(InvalidReservation) <==> free && TrimSpace(plan.command.key) == "")
            && (decision.Stage? <==> free && TrimSpace(plan.command.key) != "")
            && (decision.Stage? ==>
                  && decision.write.Insert?
                  && BestFree(listed, busyT, decision.write.details.technician)
                  && FirstFreeBay(plan.bays, busyB, decision.write.details.bay))
  {
    SameTechnicians(plan.technicians, listed);
    CreateFnAnswers(factory, plan, busyT, busyB, now, a, r);
    hide CreateFn, TrimSpace, BestFree;
    var decision := CreateFn(factory, plan, busyT, busyB, now, a, r);
    if decision.Stage? {
      FirstIsBest(plan.technicians, listed, busyT, decision.write.details.technician);
    }
  }

  lemma SameTechnicians(technicians: seq<Technician>, from: seq<Technician>)
    requires SortedByScore(technicians, from)
    ensures forall t :: t in technicians <==> t in from
  {
    forall t ensures t in technicians <==> t in from {
      assert t in multiset(technicians) <==> t in multiset(from);
    }
  }

  /** The first free one of a list sorted by score. */
  lemma FirstIsBest(technicians: seq<Technician>, from: seq<Technician>, busy: set<string>, id: string)
    requires SortedByScore(technicians, from)
    requires exists i :: 0 <= i < |technicians| && technicians[i].id == id && id !in busy
                         && forall j | 0 <= j < i :: technicians[j].id in busy
    ensures BestFree(from, busy, id)
  {
    SameTechnicians(technicians, from);
    var i :| 0 <= i < |technicians| && technicians[i].id == id && id !in busy
        && forall j | 0 <= j < i :: technicians[j].id in busy;
    assert technicians[i] in from;
    forall u | u in from && u.id !in busy ensures u.reviewScore <= technicians[i].reviewScore {
      var k :| 0 <= k < |technicians| && technicians[k] == u;
    }
  }

  // ---- Runs in which they commit ----

  /** A session that has been called, has begun and is about to decide on the present tables. */
  function Deciding(w: World, command: Command): Session {
    Session(command, Reading(View(w.clock, w.store, |w.log|, w.clock)), None, 1, None)
  }

  /** w after session sid has run alone, at one instant, and set the status of a. */
  function AfterStatus(w: World, sid: nat, command: Command, a: Uuid, status: Status): World {
    w.(store := UpdateAppointmentStatus(w.store, a, status),
       history := w.history[a :=
           (if a in w.history then w.history[a] else []) + [Event(status, sid, w.clock, w.clock)]],
       sessions := w.sessions[sid := Session(command, Done(Succeeded(a)), None, 1, Some(a))])
  }

  lemma Decides(cfg: Config, w: World, sid: nat, command: Command)
    requires Reachable(cfg, w) && sid !in w.sessions && !command.Book?
    ensures var w' := w.(sessions := w.sessions[sid := Deciding(w, command)]);
            Reachable(cfg, w') && F.Leads(cfg, w, w')
  {
    hide Reachable, F.Leads;
    F.TakeIsReachable(cfg, w, Call(sid, command));
    var w1 := F.Take(cfg, w, Call(sid, command));
    assert w1 == w.(sessions := w.sessions[sid := Session(command, Ready, None, 0, None)]);
    F.TakeIsReachable(cfg, w1, Begin(sid));
    var w2 := F.Take(cfg, w1, Begin(sid));
    assert w2 == w.(sessions := w.sessions[sid := Session(command, Begun(w.clock), None, 1, None)]);
    F.TakeIsReachable(cfg, w2, Snapshot(sid));
    var w3 := F.Take(cfg, w2, Snapshot(sid));
    assert w3 == w.(sessions := w.sessions[sid := Deciding(w, command)]);
    F.LeadsOn(cfg, w, w1, w2);
    F.LeadsOn(cfg, w, w2, w3);
  }

  /** What it stages. */
  ghost function StagedStatus(w: World, command: Command, a: Uuid, status: Status): Session {
    Deciding(w, command).(phase := Staged(View(w.clock, w.store, |w.log|, w.clock), w.clock, SetStatus(a, status)),
                          captured := Some(a))
  }

  ghost predicate Agrees(w: World, command: Command, a: Uuid, status: Status) {
    match command
    case Book(_) => false
    case ConfirmHold(user, r) => DecideConfirm(w.store, user, r, w.clock) == Ok(SetStatus(a, status))
    case CancelBooking(user, target) => DecideCancel(w.store, user, target, w.clock) == Ok(SetStatus(a, status))
  }

  lemma Stages(cfg: Config, w: World, sid: nat, command: Command, a: Uuid, status: Status)
    requires Reachable(cfg, w) && sid !in w.sessions && Agrees(w, command, a, status)
    ensures var w' := w.(sessions := w.sessions[sid := StagedStatus(w, command, a, status)]);
            Reachable(cfg, w') && F.Leads(cfg, w, w')
  {
    hide Reachable, F.Leads;
    Decides(cfg, w, sid, command);
    var w3 := w.(sessions := w.sessions[sid := Deciding(w, command)]);
    F.TakeIsReachable(cfg, w3, Decide(sid, 0, 1));
    var w4 := F.Take(cfg, w3, Decide(sid, 0, 1));
    assert w4 == w.(sessions := w.sessions[sid := StagedStatus(w, command, a, status)]);
    F.LeadsOn(cfg, w, w3, w4);
  }

  lemma Commits(cfg: Config, w: World, sid: nat, command: Command, a: Uuid, status: Status)
    requires Reachable(cfg, w) && sid !in w.sessions && Agrees(w, command, a, status) && a in w.store.appointments
    ensures var w' := AfterStatus(w, sid, command, a, status); Reachable(cfg, w') && F.Leads(cfg, w, w')
  {
    hide Reachable, F.Leads;
    Stages(cfg, w, sid, command, a, status);
    hide Agrees;
    var w4 := w.(sessions := w.sessions[sid := StagedStatus(w, command, a, status)]);
    F.TakeIsReachable(cfg, w4, Commit(sid));
    var w5 := F.Take(cfg, w4, Commit(sid));
    assert w5 == AfterStatus(w, sid, command, a, status);
    F.LeadsOn(cfg, w, w4, w5);
  }

  /** Progress: the owner's confirm of a pending appointment whose hold is live, run alone from
      any reachable tables, is answered as done and confirms it. */
  lemma ConfirmCommits(cfg: Config, w: World, sid: nat, r: Uuid) returns (w': World)
    requires Reachable(cfg, w) && sid !in w.sessions && r in w.store.reservations
    requires var a := w.store.reservations[r].appointment;
             a in w.store.appointments && w.store.appointments[a].status == Pending
    requires w.clock < w.store.reservations[r].expiredAt
    ensures var a := w.store.reservations[r].appointment; var row := w.store.appointments[a];
            && w' == AfterStatus(w, sid, ConfirmHold(row.details.user, r), a, Confirmed)
            && Reachable(cfg, w') && F.Leads(cfg, w, w') && Won(w', sid)
            && w'.store == w.store.(appointments := w.store.appointments[a := AppointmentRow(row.details, Confirmed)])
  {
    hide Reachable, F.Leads;
    var a := w.store.reservations[r].appointment;
    var user := w.store.appointments[a].details.user;
    ConfirmAnswers(cfg, w, user, r, w.clock);
    w' := AfterStatus(w, sid, ConfirmHold(user, r), a, Confirmed);
    Commits(cfg, w, sid, ConfirmHold(user, r), a, Confirmed);
  }

  /** Progress: the owner's cancel of a confirmed appointment that has not started, run alone
      from any reachable tables, is answered as done and cancels it. */
  lemma CancelCommits(cfg: Config, w: World, sid: nat, a: Uuid) returns (w': World)
    requires Reachable(cfg, w) && sid !in w.sessions && a in w.store.appointments
    requires w.store.appointments[a].status == Confirmed && w.clock <= w.store.appointments[a].details.start
    ensures var row := w.store.appointments[a];
            && w' == AfterStatus(w, sid, CancelBooking(row.details.user, a), a, Cancelled)
            && Reachable(cfg, w') && F.Leads(cfg, w, w') && Won(w', sid)
            && w'.store == w.store.(appointments := w.store.appointments[a := AppointmentRow(row.details, Cancelled)])
  {
    hide Reachable, F.Leads;
    var user := w.store.appointments[a].details.user;
    CancelAnswers(cfg, w, user, a, w.clock);
    w' := AfterStatus(w, sid, CancelBooking(user, a), a, Cancelled);
    Commits(cfg, w, sid, CancelBooking(user, a), a, Cancelled);
  }

  /** A whole life: wherever a request can be booked, some run from there books it, confirms it
      and cancels it, each command answered as done. */
  lemma LifeRuns(
    cfg: Config, w: World, c: BookCommand, sorted: seq<Technician>, x: Uuid, a: Uuid, r: Uuid,
    book: nat, confirm: nat, cancel: nat)
    returns (w1: World, w2: World, w3: World)
    requires Reachable(cfg, w) && C.Clear(cfg, w, book, c, sorted, x, a, r)
    requires confirm !in w.sessions && cancel !in w.sessions && book != confirm && confirm != cancel && book != cancel
    ensures Reachable(cfg, w3) && F.Leads(cfg, w, w1) && F.Leads(cfg, w1, w2) && F.Leads(cfg, w2, w3)
    ensures Won(w1, book) && w1.sessions[book].command == Book(c) && w1.sessions[book].phase.outcome.id == r
    ensures Won(w2, confirm) && w2.sessions[confirm].command == ConfirmHold(c.user, r)
    ensures Won(w3, cancel) && w3.sessions[cancel].command == CancelBooking(c.user, a)
    ensures a in w1.store.appointments && a in w2.store.appointments && a in w3.store.appointments
    ensures w1.store.appointments[a].status == Pending && w2.store.appointments[a].status == Confirmed
            && w3.store.appointments[a].status == Cancelled
  {
    hide Reachable, C.Clear, F.Leads, AfterStatus;
    w1 := Books(cfg, w, book, c, sorted, x, a, r);
    w2 := ConfirmCommits(cfg, w1, confirm, r);
    StatusIsSet(w1, confirm, ConfirmHold(c.user, r), a, Confirmed);
    w3 := CancelCommits(cfg, w2, cancel, a);
    StatusIsSet(w2, cancel, CancelBooking(c.user, a), a, Cancelled);
  }

  lemma StatusIsSet(w: World, sid: nat, command: Command, a: Uuid, status: Status)
    ensures var w' := AfterStatus(w, sid, command, a, status);
            w'.clock == w.clock && w'.sessions == w.sessions[sid := w'.sessions[sid]]
            && w'.sessions[sid].command == command
  {
  }

  /** The request, run alone. */
  lemma Books(cfg: Config, w: World, sid: nat, c: BookCommand, sorted: seq<Technician>, x: Uuid, a: Uuid, r: Uuid)
    returns (w': World)
    requires Reachable(cfg, w) && C.Clear(cfg, w, sid, c, sorted, x, a, r)
    ensures Reachable(cfg, w') && F.Leads(cfg, w, w') && Won(w', sid) && w'.sessions[sid].command == Book(c)
    ensures w'.sessions[sid].phase.outcome.id == r && w'.sessions == w.sessions[sid := w'.sessions[sid]]
    ensures a in w'.store.appointments && r in w'.store.reservations && w'.store.reservations[r].appointment == a
    ensures w'.store.appointments[a].status == Pending && w'.store.appointments[a].details.user == c.user
    ensures w'.clock < w'.store.reservations[r].expiredAt && w'.clock < w'.store.appointments[a].details.start
  {
    hide Reachable, Exec, C.Clear, C.RivalTrace, C.RivalledWorld, Deadlines.PickedWrite;
    C.RivalRuns(cfg, w, sid, c, sorted, x, a, r);
    C.RivalCommits(cfg, w, sid, c, sorted, x, a, r);
    w' := C.RivalledWorld(cfg, w, sid, c, sorted, x, a, r);
    RunReachable(cfg, w, C.RivalTrace(sid, c, sorted, x, a, r), w');
    assert F.Leads(cfg, w, w');
    BookedRows(cfg, w, sid, c, sorted, x, a, r);
  }

  lemma BookedRows(cfg: Config, w: World, sid: nat, c: BookCommand, sorted: seq<Technician>, x: Uuid, a: Uuid, r: Uuid)
    requires C.Clear(cfg, w, sid, c, sorted, x, a, r)
    ensures Deadlines.Staffed(cfg, c, sorted)
    ensures var w' := C.RivalledWorld(cfg, w, sid, c, sorted, x, a, r);
            && w'.clock == w.clock && Won(w', sid) && w'.sessions[sid].command == Book(c)
            && w'.sessions[sid].phase.outcome.id == r
            && a in w'.store.appointments && r in w'.store.reservations && w'.store.reservations[r].appointment == a
            && w'.store.appointments[a].status == Pending && w'.store.appointments[a].details.user == c.user
            && w'.clock < w'.store.reservations[r].expiredAt && w'.clock < w'.store.appointments[a].details.start
  {
    C.StagedMayCommit(cfg, w, sid, c, sorted, x, a, r, 0);
    C.RivalCommits(cfg, w, sid, c, sorted, x, a, r);
    StartsLater(cfg, c, w.clock);
    hide C.Clear, Deadlines.PlanFor, NewBookingFactory, CanCommit;
  }

  lemma StartsLater(cfg: Config, c: BookCommand, now: Time)
    ensures cfg.Factory().reservationTTL > 0
    ensures StartTimeErrorDetail(cfg.Factory(), c.start, now) == None ==> now < c.start
  {
  }
}
