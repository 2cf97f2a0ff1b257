/** The two deadlines exclusion rests on are exact: one tick later and a run breaks it. */
module Deadlines {
  import opened Wrappers
  import opened Domain
  import opened Tables
  import opened Workforce
  import opened Booking
  import opened Protocol
  import opened Invariants
  import opened Safety
  import Commits
  import Database

  /** The service exists and somebody, and some bay, is on the list for it. */
  predicate Staffed(cfg: Config, c: BookCommand, sorted: seq<Technician>) {
    c.serviceType in cfg.catalog && sorted != [] && ListedBays(cfg.catalog, cfg.roster, c) != []
  }

  /** At this instant the command passes every check made before the transaction, for a service
      that takes time, under a key that is not blank. */
  ghost predicate Passes(cfg: Config, c: BookCommand, sorted: seq<Technician>, now: Time) {
    && Staffed(cfg, c, sorted)
    && StartTimeErrorDetail(cfg.Factory(), c.start, now) == None
    && PrepareError(cfg.Factory(), cfg.catalog, cfg.roster, c, now) == None
    && cfg.catalog[c.serviceType].duration > 0
    && SortedByScore(sorted, ListedTechnicians(cfg.catalog, cfg.roster, c))
    && !IsBlank(c.key)
  }

  /** And the first candidates have ids. */
  ghost predicate Bookable(cfg: Config, c: BookCommand, sorted: seq<Technician>, now: Time) {
    Passes(cfg, c, sorted, now) && sorted[0].id != "" && ListedBays(cfg.catalog, cfg.roster, c)[0].id != ""
  }

  ghost function PlanFor(cfg: Config, c: BookCommand, sorted: seq<Technician>, x: Uuid, now: Time): Plan
    requires Staffed(cfg, c, sorted)
  {
    PlanOf(cfg.catalog, cfg.roster, c, x, sorted, now)
  }

  ghost function InsertFor(
    cfg: Config, c: BookCommand, technician: string, bay: string, x: Uuid, a: Uuid, r: Uuid, now: Time): Write
    requires c.serviceType in cfg.catalog
  {
    Insert(a, BuiltDetails(c.Data(x), cfg.catalog[c.serviceType].duration, technician, bay),
           Reservation(r, a, now, now + cfg.Factory().reservationTTL, c.key), VehicleRow(c.user, c.vehicle))
  }

  /** What is inserted when nothing is busy. */
  ghost function WriteFor(
    cfg: Config, c: BookCommand, sorted: seq<Technician>, x: Uuid, a: Uuid, r: Uuid, now: Time): Write
    requires Staffed(cfg, c, sorted)
  {
    InsertFor(cfg, c, sorted[0].id, ListedBays(cfg.catalog, cfg.roster, c)[0].id, x, a, r, now)
  }

  /** The session that has run, undisturbed, up to its decision to write this. */
  ghost function StagedSession(
    cfg: Config, w: World, c: BookCommand, sorted: seq<Technician>, x: Uuid, r: Uuid, write: Write): Session
    requires Staffed(cfg, c, sorted)
  {
    Session(Book(c), Staged(View(w.clock, w.store, |w.log|, w.clock), w.clock, write),
            Some(PlanFor(cfg, c, sorted, x, w.clock)), 1, Some(r))
  }

  ghost function ProposedSession(
    cfg: Config, w: World, c: BookCommand, sorted: seq<Technician>, x: Uuid, a: Uuid, r: Uuid): Session
    requires Staffed(cfg, c, sorted)
  {
    StagedSession(cfg, w, c, sorted, x, r, WriteFor(cfg, c, sorted, x, a, r, w.clock))
  }

  /** The session that has just taken its snapshot. */
  ghost function ReadingSession(cfg: Config, w: World, c: BookCommand, sorted: seq<Technician>, x: Uuid): Session
    requires Staffed(cfg, c, sorted)
  {
    Session(Book(c), Reading(View(w.clock, w.store, |w.log|, w.clock)), Some(PlanFor(cfg, c, sorted, x, w.clock)), 1,
        None)
  }

  /** w with session sid in this state. */
  ghost function With(w: World, sid: nat, s: Session): World {
    w.(sessions := w.sessions[sid := s])
  }

  lemma Validates(cfg: Config, w: World, sid: nat, c: BookCommand)
    requires Reachable(cfg, w) && sid !in w.sessions && StartTimeErrorDetail(cfg.Factory(), c.start, w.clock) == None
    ensures Reachable(cfg, With(w, sid, Session(Book(c), Validated, None, 0, None)))
  {
    hide Reachable, StartTimeErrorDetail, NewBookingFactory;
    ReachableStep(cfg, w, Call(sid, Book(c)));
    var w' := With(w, sid, Session(Book(c), Called, None, 0, None));
    ReachableStep(cfg, w', Validate(sid));
    assert Apply(cfg, w', Validate(sid)) == With(w, sid, Session(Book(c), Validated, None, 0, None));
  }

  lemma MissesKey(cfg: Config, w: World, sid: nat, c: BookCommand)
    requires Reachable(cfg, With(w, sid, Session(Book(c), Validated, None, 0, None))) && !HasKey(w.store, c.key)
    ensures Reachable(cfg, With(w, sid, Session(Book(c), Missed, None, 0, None)))
  {
    hide Reachable, HasKey;
    var w' := With(w, sid, Session(Book(c), Validated, None, 0, None));
    ReachableStep(cfg, w', FastPath(sid));
    assert Apply(cfg, w', FastPath(sid)) == With(w, sid, Session(Book(c), Missed, None, 0, None));
  }

  lemma Prepares(cfg: Config, w: World, sid: nat, c: BookCommand, sorted: seq<Technician>, x: Uuid)
    requires Staffed(cfg, c, sorted) && Passes(cfg, c, sorted, w.clock) && x !in w.issued
    requires Reachable(cfg, With(w, sid, Session(Book(c), Missed, None, 0, None)))
    ensures Reachable(cfg, With(w, sid, Session(Book(c), Ready, Some(PlanFor(cfg, c, sorted, x, w.clock)), 0, None))
                           .(issued := w.issued[x := sid]))
  {
    hide Reachable, PrepareError, StartTimeErrorDetail, SortedByScore, ListedTechnicians, ListedBays, IsBlank,
         NewBookingFactory;
    var w' := With(w, sid, Session(Book(c), Missed, None, 0, None));
    ReachableStep(cfg, w', Prepare(sid, x, sorted));
    assert Apply(cfg, w', Prepare(sid, x, sorted)) ==
           With(w, sid, Session(Book(c), Ready, Some(PlanFor(cfg, c, sorted, x, w.clock)), 0, None)).(issued :=
               w.issued[x := sid]);
  }

  lemma Prepared(cfg: Config, w: World, sid: nat, c: BookCommand, sorted: seq<Technician>, x: Uuid)
    requires Reachable(cfg, w) && sid !in w.sessions && x !in w.issued
    requires Staffed(cfg, c, sorted) && Passes(cfg, c, sorted, w.clock) && !HasKey(w.store, c.key)
    ensures Reachable(cfg, With(w, sid, Session(Book(c), Ready, Some(PlanFor(cfg, c, sorted, x, w.clock)), 0, None))
                           .(issued := w.issued[x := sid]))
  {
    hide Reachable, With, PlanFor, PrepareError, StartTimeErrorDetail, HasKey, SortedByScore, IsBlank,
         NewBookingFactory;
    Validates(cfg, w, sid, c);
    MissesKey(cfg, w, sid, c);
    Prepares(cfg, w, sid, c, sorted, x);
  }

  /** A ready session begins, takes its snapshot and is about to decide, at one instant. */
  lemma Opened(cfg: Config, w: World, sid: nat)
    requires Reachable(cfg, w) && sid in w.sessions && w.sessions[sid].phase == Ready
             && w.sessions[sid].attempts < Database.MAX_TRIES
    ensures var s := w.sessions[sid];
            Reachable(cfg, w.(sessions :=
                w.sessions[sid := s.(phase := Reading(View(w.clock, w.store, |w.log|, w.clock)),
                    attempts := s.attempts + 1)]))
  {
    hide Reachable;
    var s := w.sessions[sid];
    var w1 := Apply(cfg, w, Begin(sid));
    ReachableStep(cfg, w, Begin(sid));
    assert w1 == w.(sessions := w.sessions[sid := s.(phase := Begun(w.clock), attempts := s.attempts + 1)]);
    var w2 := Apply(cfg, w1, Snapshot(sid));
    ReachableStep(cfg, w1, Snapshot(sid));
    assert w2 == w.(sessions :=
           w.sessions[sid := s.(phase := Reading(View(w.clock, w.store, |w.log|, w.clock)),
               attempts := s.attempts + 1)]);
  }

  lemma Chosen(cfg: Config, store: Store, c: BookCommand, sorted: seq<Technician>, x: Uuid, a: Uuid, r: Uuid, now: Time)
    requires Staffed(cfg, c, sorted) && Bookable(cfg, c, sorted, now) && !HasKey(store, c.key)
    requires BusyRows(store, PlanFor(cfg, c, sorted, x, now).Query(now)) == {}
    ensures DecideBooking(cfg.Factory(), PlanFor(cfg, c, sorted, x, now), store, now, now, a, r) ==
            Stage(WriteFor(cfg, c, sorted, x, a, r, now))
  {
    hide PrepareError, StartTimeErrorDetail, HasKey, SortedByScore, ListedTechnicians, ListedBays, IsBlank, BusyRows;
    var p := PlanFor(cfg, c, sorted, x, now);
    var q := p.Query(now);
    assert BusyTechnicians(store, q) == {} && BusyBays(store, q) == {};
    assert TechnicianIds(sorted)[0] == sorted[0].id && BayIds(p.bays)[0] == p.bays[0].id;
    assert FirstFree(TechnicianIds(sorted), {}) == sorted[0].id && FirstFree(BayIds(p.bays), {}) == p.bays[0].id;
  }

  /** Some listed technician and some listed bay are not busy for the command's window; all that
      are listed have ids. */
  ghost predicate SomeAreFree(cfg: Config, store: Store, c: BookCommand, sorted: seq<Technician>, x: Uuid, now: Time)
    requires Staffed(cfg, c, sorted)
  {
    var p := PlanFor(cfg, c, sorted, x, now);
    var q := p.Query(now);
    && SomeFree(p, BusyTechnicians(store, q), BusyBays(store, q))
    && (forall t | t in p.technicians :: t.id != "") && (forall b | b in p.bays :: b.id != "")
  }

  /** What createFn then inserts. */
  ghost function PickedWrite(
    cfg: Config, store: Store, c: BookCommand, sorted: seq<Technician>, x: Uuid, a: Uuid, r: Uuid, now: Time): Write
    requires Staffed(cfg, c, sorted)
  {
    var p := PlanFor(cfg, c, sorted, x, now);
    var q := p.Query(now);
    InsertFor(cfg, c, FirstFree(TechnicianIds(sorted), BusyTechnicians(store, q)),
              FirstFree(BayIds(p.bays), BusyBays(store, q)), x, a, r, now)
  }

  lemma Picks(
    cfg: Config, store: Store, c: BookCommand, sorted: seq<Technician>, x: Uuid, a: Uuid, r: Uuid, now: Time)
    requires Staffed(cfg, c, sorted) && Passes(cfg, c, sorted, now) && !HasKey(store, c.key)
    requires SomeAreFree(cfg, store, c, sorted, x, now)
    ensures DecideBooking(cfg.Factory(), PlanFor(cfg, c, sorted, x, now), store, now, now, a, r) ==
            Stage(PickedWrite(cfg, store, c, sorted, x, a, r, now))
  {
    hide PrepareError, StartTimeErrorDetail, HasKey, SortedByScore, ListedTechnicians, ListedBays, IsBlank, SomeFree,
         FirstFree, TechnicianIds, BayIds, BusyTechnicians, BusyBays;
    var p := PlanFor(cfg, c, sorted, x, now);
    var q := p.Query(now);
    SomeFreeIsPicked(p, BusyTechnicians(store, q), BusyBays(store, q));
  }

  /** Of all that are listed and free it is the best technician and the first bay. */
  lemma PickedIsBest(
    cfg: Config, store: Store, c: BookCommand, sorted: seq<Technician>, x: Uuid, a: Uuid, r: Uuid, now: Time)
    requires Staffed(cfg, c, sorted) && Passes(cfg, c, sorted, now) && SomeAreFree(cfg, store, c, sorted, x, now)
    ensures var q := PlanFor(cfg, c, sorted, x, now).Query(now);
            var d := PickedWrite(cfg, store, c, sorted, x, a, r, now).details;
            && BestFree(ListedTechnicians(cfg.catalog, cfg.roster, c), BusyTechnicians(store, q), d.technician)
            && FirstFreeBay(ListedBays(cfg.catalog, cfg.roster, c), BusyBays(store, q), d.bay)
  {
    hide PrepareError, StartTimeErrorDetail, ListedTechnicians, ListedBays, IsBlank, SomeFree, FirstFree,
         TechnicianIds, BayIds, BusyTechnicians, BusyBays;
    var p := PlanFor(cfg, c, sorted, x, now);
    var q := p.Query(now);
    SomeFreeIsPicked(p, BusyTechnicians(store, q), BusyBays(store, q));
    FirstFreeBayIs(p.bays, BusyBays(store, q));
    var t := PickedTechnicianIsBest(sorted, ListedTechnicians(cfg.catalog, cfg.roster, c), BusyTechnicians(store, q));
  }

  /** A booking nobody disturbs, up to its decision. */
  lemma Reads(cfg: Config, w: World, sid: nat, c: BookCommand, sorted: seq<Technician>, x: Uuid)
    requires Reachable(cfg, w) && sid !in w.sessions && x !in w.issued
    requires Staffed(cfg, c, sorted) && Passes(cfg, c, sorted, w.clock) && !HasKey(w.store, c.key)
    ensures Reachable(cfg, With(w, sid, ReadingSession(cfg, w, c, sorted, x)).(issued := w.issued[x := sid]))
  {
    hide Reachable, Passes, HasKey, PlanFor;
    Prepared(cfg, w, sid, c, sorted, x);
    var ready := Session(Book(c), Ready, Some(PlanFor(cfg, c, sorted, x, w.clock)), 0, None);
    var w' := With(w, sid, ready).(issued := w.issued[x := sid]);
    Opened(cfg, w', sid);
    assert w'.(sessions := w'.sessions[sid := ReadingSession(cfg, w, c, sorted, x)]) ==
           With(w, sid, ReadingSession(cfg, w, c, sorted, x)).(issued := w.issued[x := sid]);
  }

  /** A booking nobody disturbs, up to the point where it may commit what it decides. */
  lemma ProposeWrite(
    cfg: Config, w: World, sid: nat, c: BookCommand, sorted: seq<Technician>, x: Uuid, a: Uuid, r: Uuid, write: Write)
    requires Reachable(cfg, w) && sid !in w.sessions
    requires x !in w.issued && a !in w.issued && r !in w.issued && x != a && x != r && a != r
    requires Staffed(cfg, c, sorted) && Passes(cfg, c, sorted, w.clock) && !HasKey(w.store, c.key)
    requires DecideBooking(cfg.Factory(), PlanFor(cfg, c, sorted, x, w.clock), w.store, w.clock, w.clock, a, r) ==
             Stage(write)
    ensures Reachable(cfg, w.(sessions := w.sessions[sid := StagedSession(cfg, w, c, sorted, x, r, write)],
                              issued := w.issued[x := sid][a := sid][r := sid]))
  {
    hide Reachable, Passes, HasKey, PlanFor, With, DecideBooking;
    Reads(cfg, w, sid, c, sorted, x);
    var w' := With(w, sid, ReadingSession(cfg, w, c, sorted, x)).(issued := w.issued[x := sid]);
    WithIs(w, sid, ReadingSession(cfg, w, c, sorted, x), StagedSession(cfg, w, c, sorted, x, r, write));
    ProposeDecides(cfg, w', sid, PlanFor(cfg, c, sorted, x, w.clock), write, a, r);
    assert w.(sessions := w.sessions[sid := StagedSession(cfg, w, c, sorted, x, r, write)],
              issued := w.issued[x := sid][a := sid][r := sid])
           == w'.(sessions := w'.sessions[sid := StagedSession(cfg, w, c, sorted, x, r, write)],
                  issued := w'.issued[a := sid][r := sid]);
  }

  /** Progress: a command that passes its checks, whose key is unused, and for whose window some
      listed technician and some listed bay are not busy, gets, undisturbed, to where it may
      commit the best of the free technicians and the first of the free bays. */
  lemma Propose(cfg: Config, w: World, sid: nat, c: BookCommand, sorted: seq<Technician>, x: Uuid, a: Uuid, r: Uuid)
    requires Reachable(cfg, w) && sid !in w.sessions
    requires x !in w.issued && a !in w.issued && r !in w.issued && x != a && x != r && a != r
    requires Staffed(cfg, c, sorted) && Passes(cfg, c, sorted, w.clock) && !HasKey(w.store, c.key)
    requires SomeAreFree(cfg, w.store, c, sorted, x, w.clock)
    ensures var write := PickedWrite(cfg, w.store, c, sorted, x, a, r, w.clock);
            var q := PlanFor(cfg, c, sorted, x, w.clock).Query(w.clock);
            && Reachable(cfg, w.(sessions := w.sessions[sid := StagedSession(cfg, w, c, sorted, x, r, write)],
                                 issued := w.issued[x := sid][a := sid][r := sid]))
            && BestFree(ListedTechnicians(cfg.catalog, cfg.roster, c), BusyTechnicians(w.store, q),
               write.details.technician)
            && FirstFreeBay(ListedBays(cfg.catalog, cfg.roster, c), BusyBays(w.store, q), write.details.bay)
  {
    Picks(cfg, w.store, c, sorted, x, a, r, w.clock);
    PickedIsBest(cfg, w.store, c, sorted, x, a, r, w.clock);
    hide Reachable, Passes, HasKey, PlanFor, DecideBooking, SomeAreFree, StagedSession, BestFree, FirstFreeBay;
    ProposeWrite(cfg, w, sid, c, sorted, x, a, r, PickedWrite(cfg, w.store, c, sorted, x, a, r, w.clock));
  }

  /** The same when nothing is busy, and only the first candidates need ids. */
  lemma ProposeIdle(cfg: Config, w: World, sid: nat, c: BookCommand, sorted: seq<Technician>, x: Uuid, a: Uuid, r: Uuid)
    requires Reachable(cfg, w) && sid !in w.sessions
    requires x !in w.issued && a !in w.issued && r !in w.issued && x != a && x != r && a != r
    requires Staffed(cfg, c, sorted) && Bookable(cfg, c, sorted, w.clock) && !HasKey(w.store, c.key)
    requires BusyRows(w.store, PlanFor(cfg, c, sorted, x, w.clock).Query(w.clock)) == {}
    ensures Reachable(cfg, w.(sessions := w.sessions[sid := ProposedSession(cfg, w, c, sorted, x, a, r)],
                              issued := w.issued[x := sid][a := sid][r := sid]))
  {
    Chosen(cfg, w.store, c, sorted, x, a, r, w.clock);
    hide Reachable, Passes, HasKey, BusyRows, PlanFor, WriteFor, DecideBooking, StagedSession;
    ProposeWrite(cfg, w, sid, c, sorted, x, a, r, WriteFor(cfg, c, sorted, x, a, r, w.clock));
  }

  lemma WithIs(w: World, sid: nat, s: Session, s': Session)
    ensures var w' := With(w, sid, s);
            && w' == w.(sessions := w.sessions[sid := s]) && w'.sessions[sid] == s
            && w'.sessions[sid := s'] == w.sessions[sid := s']
  {
  }

  lemma ProposeDecides(cfg: Config, w: World, sid: nat, p: Plan, write: Write, a: Uuid, r: Uuid)
    requires Reachable(cfg, w) && sid in w.sessions && w.sessions[sid].phase.Reading?
    requires w.sessions[sid].command.Book? && w.sessions[sid].plan == Some(p)
    requires a !in w.issued && r !in w.issued && a != r
    requires DecideBooking(cfg.Factory(), p, w.sessions[sid].phase.view.snapshot, w.sessions[sid].phase.view.began,
             w.clock, a, r) == Stage(write)
    ensures var s := w.sessions[sid];
            Reachable(cfg, w.(sessions :=
                w.sessions[sid := s.(phase := Staged(s.phase.view, w.clock, write), captured := Some(r))],
                              issued := w.issued[a := sid][r := sid]))
  {
    hide Reachable, DecideBooking;
    var s := w.sessions[sid];
    ReachableStep(cfg, w, Decide(sid, a, r));
    assert Apply(cfg, w, Decide(sid, a, r)) ==
           w.(sessions := w.sessions[sid := s.(phase := Staged(s.phase.view, w.clock, write), captured := Some(r))],
              issued := w.issued[a := sid][r := sid]);
  }

  lemma StartIsReachable(cfg: Config, clock: Time)
    ensures Reachable(cfg, Init(clock))
  {
    assert Exec(cfg, Init(clock), []) == Some(Init(clock));
  }

  // ---- A confirm that commits at the very instant its hold expires ----

  function AnotherKey(c: BookCommand): BookCommand {
    c.(key := c.key + "'")
  }

  lemma AnotherKeyBookable(cfg: Config, c: BookCommand, sorted: seq<Technician>, now: Time)
    requires Staffed(cfg, c, sorted) && Bookable(cfg, c, sorted, now)
    ensures Bookable(cfg, AnotherKey(c), sorted, now)
    ensures ListedTechnicians(cfg.catalog, cfg.roster, AnotherKey(c)) == ListedTechnicians(cfg.catalog, cfg.roster, c)
            && ListedBays(cfg.catalog, cfg.roster, AnotherKey(c)) == ListedBays(cfg.catalog, cfg.roster, c)
    ensures AnotherKey(c).key != c.key
  {
    hide EligibleTechnicians, EligibleBays, StartTimeErrorDetail, IsSpace, NewBookingFactory;
    var i :| 0 <= i < |c.key| && !IsSpace(c.key[i]);
    assert AnotherKey(c).key[i] == c.key[i];
  }

  /** The tables after one booking, made at t with UUIDs x, a and r. */
  ghost function OneRowEach(
    cfg: Config, c: BookCommand, sorted: seq<Technician>, x: Uuid, a: Uuid, r: Uuid, t: Time): Store
    requires Staffed(cfg, c, sorted)
  {
    ApplyWrite(EMPTY, WriteFor(cfg, c, sorted, x, a, r, t))
  }

  ghost function OneEntry(
    cfg: Config, c: BookCommand, sorted: seq<Technician>, sid: nat, x: Uuid, a: Uuid, r: Uuid, t: Time): Entry
    requires Staffed(cfg, c, sorted)
  {
    Entry(sid, PlanFor(cfg, c, sorted, x, t).Query(t), a, r, x, c.key, t, t)
  }

  /** Booked by session 1 at t. */
  ghost function Booked(cfg: Config, c: BookCommand, sorted: seq<Technician>, t: Time): World
    requires Staffed(cfg, c, sorted)
  {
    World(t, OneRowEach(cfg, c, sorted, 0, 1, 2, t), [OneEntry(cfg, c, sorted, 1, 0, 1, 2, t)],
          map[1 := [Event(Pending, 1, t, t)]], map[0 := 1, 1 := 1, 2 := 1],
          map[1 := ProposedSession(cfg, Init(t), c, sorted, 0, 1, 2).(phase := Done(Succeeded(2)))])
  }

  lemma BookedIsReachable(cfg: Config, c: BookCommand, sorted: seq<Technician>, t: Time)
    requires Staffed(cfg, c, sorted) && Bookable(cfg, c, sorted, t)
    ensures Reachable(cfg, Booked(cfg, c, sorted, t))
  {
    hide Reachable, Bookable;
    StartIsReachable(cfg, t);
    ProposeIdle(cfg, Init(t), 1, c, sorted, 0, 1, 2);
    var w := Init(t).(sessions := map[1 := ProposedSession(cfg, Init(t), c, sorted, 0, 1, 2)],
        issued := map[0 := 1, 1 := 1, 2 := 1]);
    assert w == Init(t).(sessions := Init(t).sessions[1 := ProposedSession(cfg, Init(t), c, sorted, 0, 1, 2)],
                         issued := Init(t).issued[0 := 1][1 := 1][2 := 1]);
    ReachableStep(cfg, w, Commit(1));
    assert Apply(cfg, w, Commit(1)) == Booked(cfg, c, sorted, t);
  }

  /** Its owner's confirm, session 2, has decided in time and not yet committed. */
  ghost function Confirming(cfg: Config, c: BookCommand, sorted: seq<Technician>, t: Time): World
    requires Staffed(cfg, c, sorted)
  {
    var w := Booked(cfg, c, sorted, t);
    var staged := Staged(View(t, w.store, 1, t), t, SetStatus(1, Confirmed));
    w.(sessions := w.sessions[2 := Session(ConfirmHold(c.user, 2), staged, None, 1, Some(1))])
  }

  /** The confirm, its snapshot taken. */
  ghost function ConfirmReads(cfg: Config, c: BookCommand, sorted: seq<Technician>, t: Time): World
    requires Staffed(cfg, c, sorted)
  {
    var w := Booked(cfg, c, sorted, t);
    With(w, 2, Session(ConfirmHold(c.user, 2), Reading(View(t, w.store, 1, t)), None, 1, None))
  }

  lemma ConfirmReadsIsReachable(cfg: Config, c: BookCommand, sorted: seq<Technician>, t: Time)
    requires Staffed(cfg, c, sorted) && Bookable(cfg, c, sorted, t)
    ensures Reachable(cfg, ConfirmReads(cfg, c, sorted, t))
  {
    hide Reachable, Bookable, OneRowEach, OneEntry, ProposedSession;
    BookedIsReachable(cfg, c, sorted, t);
    var w := Booked(cfg, c, sorted, t);
    ReachableStep(cfg, w, Call(2, ConfirmHold(c.user, 2)));
    var w' := With(w, 2, Session(ConfirmHold(c.user, 2), Ready, None, 0, None));
    assert Apply(cfg, w, Call(2, ConfirmHold(c.user, 2))) == w';
    Opened(cfg, w', 2);
    var reading := w'.sessions[2].(phase := Reading(View(w'.clock, w'.store, |w'.log|, w'.clock)), attempts := 1);
    assert w'.(sessions := w'.sessions[2 := reading]) == ConfirmReads(cfg, c, sorted, t);
  }

  lemma ConfirmingIsReachable(cfg: Config, c: BookCommand, sorted: seq<Technician>, t: Time)
    requires Staffed(cfg, c, sorted) && Bookable(cfg, c, sorted, t)
    ensures Reachable(cfg, Confirming(cfg, c, sorted, t))
  {
    hide Reachable, Bookable, OneEntry, ProposedSession, PlanFor, ListedBays;
    ConfirmReadsIsReachable(cfg, c, sorted, t);
    var w := ConfirmReads(cfg, c, sorted, t);
    assert DecideConfirm(w.store, c.user, 2, t) == Ok(SetStatus(1, Confirmed));
    ReachableStep(cfg, w, Decide(2, 3, 4));
    assert Apply(cfg, w, Decide(2, 3, 4)) == Confirming(cfg, c, sorted, t);
  }

  lemma NothingBusyOnceExpired(
    cfg: Config, c: BookCommand, sorted: seq<Technician>, x: Uuid, a: Uuid, r: Uuid, t: Time, q: BusyQuery)
    requires Staffed(cfg, c, sorted) && Bookable(cfg, c, sorted, t) && q.now >= t + cfg.Factory().reservationTTL
    ensures BusyRows(OneRowEach(cfg, c, sorted, x, a, r, t), q) == {}
    ensures !HasKey(OneRowEach(cfg, c, sorted, x, a, r, t), AnotherKey(c).key)
  {
    hide Bookable;
    assert AnotherKey(c).key != c.key;
  }

  /** A rival, session 3, has booked the slot once the hold expired. */
  ghost function Rivalled(cfg: Config, c: BookCommand, sorted: seq<Technician>, t: Time): World
    requires Staffed(cfg, c, sorted)
  {
    var w, now, rival := Confirming(cfg, c, sorted, t), t + cfg.Factory().reservationTTL, AnotherKey(c);
    World(now, ApplyWrite(w.store, WriteFor(cfg, rival, sorted, 5, 6, 7, now)),
          w.log + [OneEntry(cfg, rival, sorted, 3, 5, 6, 7, now)],
          w.history[6 := [Event(Pending, 3, now, now)]], w.issued[5 := 3][6 := 3][7 := 3],
          w.sessions[3 := ProposedSession(cfg, w.(clock := now), rival, sorted, 5, 6, 7).(phase := Done(Succeeded(7)))])
  }

  lemma RivalProposes(cfg: Config, c: BookCommand, sorted: seq<Technician>, t: Time)
    requires Staffed(cfg, c, sorted) && Bookable(cfg, c, sorted, t)
             && Bookable(cfg, AnotherKey(c), sorted, t + cfg.Factory().reservationTTL)
    ensures var now := t + cfg.Factory().reservationTTL; var w := Confirming(cfg, c, sorted, t).(clock := now);
            Reachable(cfg, w.(sessions := w.sessions[3 := ProposedSession(cfg, w, AnotherKey(c), sorted, 5, 6, 7)],
                              issued := w.issued[5 := 3][6 := 3][7 := 3]))
  {
    hide Reachable, Bookable, PlanFor, HasKey, BusyRows, OneRowEach, WriteFor;
    var now, rival := t + cfg.Factory().reservationTTL, AnotherKey(c);
    ConfirmingIsReachable(cfg, c, sorted, t);
    var w0 := Confirming(cfg, c, sorted, t);
    ReachableStep(cfg, w0, Tick(cfg.Factory().reservationTTL));
    QueryNow(cfg, rival, sorted, 5, now);
    NothingBusyOnceExpired(cfg, c, sorted, 0, 1, 2, t, PlanFor(cfg, rival, sorted, 5, now).Query(now));
    ProposeIdle(cfg, w0.(clock := now), 3, rival, sorted, 5, 6, 7);
  }

  /** The rival, about to commit. */
  ghost function Rivalling(cfg: Config, c: BookCommand, sorted: seq<Technician>, t: Time): World
    requires Staffed(cfg, c, sorted)
  {
    var w := Confirming(cfg, c, sorted, t).(clock := t + cfg.Factory().reservationTTL);
    w.(sessions := w.sessions[3 := ProposedSession(cfg, w, AnotherKey(c), sorted, 5, 6, 7)],
        issued := w.issued[5 := 3][6 := 3][7 := 3])
  }

  lemma RivalMayCommit(cfg: Config, c: BookCommand, sorted: seq<Technician>, t: Time)
    requires Staffed(cfg, c, sorted) && !HasKey(Confirming(cfg, c, sorted, t).store, AnotherKey(c).key)
    ensures Enabled(cfg, Rivalling(cfg, c, sorted, t), Commit(3))
  {
    hide NewBookingFactory, ListedBays, Bookable, HasKey, OneRowEach, BuiltDetails;
  }

  lemma RivalCommits(cfg: Config, c: BookCommand, sorted: seq<Technician>, t: Time)
    requires Staffed(cfg, c, sorted) && Enabled(cfg, Rivalling(cfg, c, sorted, t), Commit(3))
    ensures Apply(cfg, Rivalling(cfg, c, sorted, t), Commit(3)) == Rivalled(cfg, c, sorted, t)
  {
    hide NewBookingFactory, ListedBays, Bookable, OneRowEach, CanCommit, ApplyWrite;
  }

  lemma RivalledIsReachable(cfg: Config, c: BookCommand, sorted: seq<Technician>, t: Time)
    requires Staffed(cfg, c, sorted) && Bookable(cfg, c, sorted, t)
             && Bookable(cfg, AnotherKey(c), sorted, t + cfg.Factory().reservationTTL)
    ensures Reachable(cfg, Rivalled(cfg, c, sorted, t))
  {
    hide Reachable, Bookable, BusyRows, Confirming, Rivalled, HasKey, Enabled, Apply, NewBookingFactory;
    RivalProposes(cfg, c, sorted, t);
    NoKeyClash(cfg, c, sorted, t);
    RivalMayCommit(cfg, c, sorted, t);
    RivalCommits(cfg, c, sorted, t);
    ReachableStep(cfg, Rivalling(cfg, c, sorted, t), Commit(3));
  }

  lemma NoKeyClash(cfg: Config, c: BookCommand, sorted: seq<Technician>, t: Time)
    requires Staffed(cfg, c, sorted) && Bookable(cfg, c, sorted, t)
    ensures !HasKey(Confirming(cfg, c, sorted, t).store, AnotherKey(c).key)
  {
    hide Bookable;
    assert AnotherKey(c).key != c.key;
  }

  /** The world when the first booking's confirm then commits. */
  ghost function DoubleBooked(cfg: Config, c: BookCommand, sorted: seq<Technician>, t: Time): World
    requires Staffed(cfg, c, sorted)
  {
    var w := Rivalled(cfg, c, sorted, t);
    w.(store := UpdateAppointmentStatus(w.store, 1, Confirmed),
       history := w.history[1 := [Event(Pending, 1, t, t), Event(Confirmed, 2, t, w.clock)]],
       sessions := w.sessions[2 := w.sessions[2].(phase := Done(Succeeded(1)))])
  }

  lemma DoubleBookedIsReachable(cfg: Config, c: BookCommand, sorted: seq<Technician>, t: Time)
    requires Staffed(cfg, c, sorted) && Bookable(cfg, c, sorted, t)
             && Bookable(cfg, AnotherKey(c), sorted, t + cfg.Factory().reservationTTL)
    ensures Reachable(cfg, DoubleBooked(cfg, c, sorted, t))
  {
    hide Reachable, Bookable, PlanFor;
    RivalledIsReachable(cfg, c, sorted, t);
    var w := Rivalled(cfg, c, sorted, t);
    assert w.sessions[2].phase.view.snapshot.appointments[1] == w.store.appointments[1];
    assert w.history[1] + [Event(Confirmed, 2, t, w.clock)] ==
           [Event(Pending, 1, t, t), Event(Confirmed, 2, t, w.clock)];
    ReachableStep(cfg, w, Commit(2));
    assert Apply(cfg, w, Commit(2)) == DoubleBooked(cfg, c, sorted, t);
  }

  lemma DoubleBookedAppointments(cfg: Config, c: BookCommand, sorted: seq<Technician>, t: Time)
    requires Staffed(cfg, c, sorted)
    ensures var w, now := DoubleBooked(cfg, c, sorted, t), t + cfg.Factory().reservationTTL;
            && w.clock == now
            && w.store.appointments ==
               map[1 := AppointmentRow(WriteFor(cfg, c, sorted, 0, 1, 2, t).details, Confirmed),
                   6 := AppointmentRow(WriteFor(cfg, AnotherKey(c), sorted, 5, 6, 7, now).details, Pending)]
  {
    hide PlanFor, ProposedSession, NewBookingFactory, OneEntry, BuiltDetails, ListedBays;
  }

  lemma DoubleBookedReservations(cfg: Config, c: BookCommand, sorted: seq<Technician>, t: Time)
    requires Staffed(cfg, c, sorted)
    ensures var ttl := cfg.Factory().reservationTTL;
            var w, now := DoubleBooked(cfg, c, sorted, t), t + ttl;
            w.store.reservations ==
            map[2 := Reservation(2, 1, t, now, c.key), 7 := Reservation(7, 6, now, now + ttl, AnotherKey(c).key)]
  {
    hide PlanFor, ProposedSession, NewBookingFactory, OneEntry, BuiltDetails, ListedBays;
  }

  lemma DoubleBookedHistory(cfg: Config, c: BookCommand, sorted: seq<Technician>, t: Time)
    requires Staffed(cfg, c, sorted)
    ensures var w, now := DoubleBooked(cfg, c, sorted, t), t + cfg.Factory().reservationTTL;
            w.history == map[1 := [Event(Pending, 1, t, t), Event(Confirmed, 2, t, now)],
                6 := [Event(Pending, 3, now, now)]]
  {
    hide PlanFor, ProposedSession, NewBookingFactory, WriteFor, OneEntry, ApplyWrite;
  }

  lemma ConfirmedOnTheDot(cfg: Config, c: BookCommand, sorted: seq<Technician>, t: Time)
    requires Staffed(cfg, c, sorted)
    ensures ConfirmedBy(DoubleBooked(cfg, c, sorted, t), 1)
  {
    hide DoubleBooked, NewBookingFactory, WriteFor;
    DoubleBookedReservations(cfg, c, sorted, t);
    DoubleBookedHistory(cfg, c, sorted, t);
  }

  lemma DoubleBookedClaims(cfg: Config, c: BookCommand, sorted: seq<Technician>, t: Time)
    requires Staffed(cfg, c, sorted)
    ensures var w := DoubleBooked(cfg, c, sorted, t); Claimed(w.store, 1, w.clock) && Claimed(w.store, 6, w.clock)
  {
    assert cfg.Factory().reservationTTL > 0;
    hide DoubleBooked, NewBookingFactory, HasLiveHold, WriteFor;
    DoubleBookedAppointments(cfg, c, sorted, t);
    DoubleBookedReservations(cfg, c, sorted, t);
    LiveHoldIntro(DoubleBooked(cfg, c, sorted, t).store, 7, DoubleBooked(cfg, c, sorted, t).clock);
  }

  lemma DoubleBookedClash(cfg: Config, c: BookCommand, sorted: seq<Technician>, t: Time)
    requires Staffed(cfg, c, sorted) && cfg.catalog[c.serviceType].duration > 0
    ensures !NoDoubleBooking(DoubleBooked(cfg, c, sorted, t))
  {
    hide DoubleBooked, NewBookingFactory, Claimed, ListedBays;
    DoubleBookedAppointments(cfg, c, sorted, t);
    DoubleBookedClaims(cfg, c, sorted, t);
    var w := DoubleBooked(cfg, c, sorted, t);
    assert Clash(w.store.appointments[1].details, w.store.appointments[6].details);
  }

  /** The command's service, at its start, is claimed for two appointments of one technician and
      one bay. */
  predicate BookedTwice(w: World, c: BookCommand, technician: string, bay: string) {
    exists a, b | a in w.store.appointments && b in w.store.appointments ::
      a != b && ClaimsSlot(w, a, c, technician, bay) && ClaimsSlot(w, b, c, technician, bay)
  }

  predicate ClaimsSlot(w: World, a: Uuid, c: BookCommand, technician: string, bay: string) {
    Claimed(w.store, a, w.clock) &&
    var d := w.store.appointments[a].details;
    && d.dealership == c.dealership && d.serviceType == c.serviceType && d.start == c.start
    && d.technician == technician && d.bay == bay
  }

  lemma DoubleBookedTwice(cfg: Config, c: BookCommand, sorted: seq<Technician>, t: Time)
    requires Staffed(cfg, c, sorted)
    ensures BookedTwice(DoubleBooked(cfg, c, sorted, t), c, sorted[0].id, ListedBays(cfg.catalog, cfg.roster, c)[0].id)
  {
    hide DoubleBooked, NewBookingFactory, EligibleBays;
    DoubleBookedAppointments(cfg, c, sorted, t);
    DoubleBookedClaims(cfg, c, sorted, t);
    var w, bay := DoubleBooked(cfg, c, sorted, t), ListedBays(cfg.catalog, cfg.roster, c)[0].id;
    assert ListedBays(cfg.catalog, cfg.roster, AnotherKey(c)) == ListedBays(cfg.catalog, cfg.roster, c);
    hide Claimed;
    assert ClaimsSlot(w, 1, c, sorted[0].id, bay) && ClaimsSlot(w, 6, c, sorted[0].id, bay);
  }

  /** The confirm decided in time and committed at the very instant of the expiry, and a
      technician and a bay are now claimed twice, for the command's own service and start. */
  lemma LateConfirmDoubleBooks(cfg: Config, c: BookCommand, sorted: seq<Technician>, t: Time)
    requires Staffed(cfg, c, sorted)
    requires Bookable(cfg, c, sorted, t) && Bookable(cfg, AnotherKey(c), sorted, t + cfg.Factory().reservationTTL)
    ensures var w := DoubleBooked(cfg, c, sorted, t);
            && Reachable(cfg, w) && ConfirmedBy(w, 1) && !NoDoubleBooking(w)
            && BookedTwice(w, c, sorted[0].id, ListedBays(cfg.catalog, cfg.roster, c)[0].id)
  {
    assert cfg.catalog[c.serviceType].duration > 0;
    hide Reachable, Bookable, DoubleBooked, NewBookingFactory, ConfirmedBy, NoDoubleBooking, BookedTwice;
    DoubleBookedIsReachable(cfg, c, sorted, t);
    ConfirmedOnTheDot(cfg, c, sorted, t);
    DoubleBookedClash(cfg, c, sorted, t);
    DoubleBookedTwice(cfg, c, sorted, t);
  }

  lemma LiveHoldIntro(store: Store, r: Uuid, now: Time)
    requires r in store.reservations && store.reservations[r].expiredAt > now
    ensures HasLiveHold(store, store.reservations[r].appointment, now)
  {
  }

  /** For every service, dealership and start that can be booked: double-booking is excluded
      from all runs in which confirms commit before their hold's expiry plus some slack,
      exactly when there is no slack. */
  lemma ConfirmDeadlineIsExact(cfg: Config, c: BookCommand, sorted: seq<Technician>, t: Time, slack: Duration)
    requires Staffed(cfg, c, sorted) && Bookable(cfg, c, sorted, t)
             && Bookable(cfg, c, sorted, t + cfg.Factory().reservationTTL)
    ensures (forall w | Reachable(cfg, w) && ConfirmedBy(w, slack) :: NoDoubleBooking(w)) <==> slack <= 0
  {
    hide Reachable, Bookable, NoDoubleBooking, DoubleBooked;
    if slack <= 0 {
      forall w | Reachable(cfg, w) && ConfirmedBy(w, slack) ensures NoDoubleBooking(w) {
        NeverDoubleBooked(cfg, w);
      }
    } else {
      AnotherKeyBookable(cfg, c, sorted, t + cfg.Factory().reservationTTL);
      LateConfirmDoubleBooks(cfg, c, sorted, t);
      assert ConfirmedBy(DoubleBooked(cfg, c, sorted, t), slack);
    }
  }

  lemma QueryNow(cfg: Config, c: BookCommand, sorted: seq<Technician>, x: Uuid, now: Time)
    requires Staffed(cfg, c, sorted) && Bookable(cfg, c, sorted, now)
    ensures PlanFor(cfg, c, sorted, x, now).Query(now).now == now
  {
  }

  // ---- A booking that commits at the very instant its own hold expires ----

  /** Session 1 decided at t and stalled; session 2 booked the slot once 1's hold was over. */
  ghost function Stalled(cfg: Config, c: BookCommand, sorted: seq<Technician>, t: Time): World
    requires Staffed(cfg, c, sorted)
  {
    var now, rival := t + cfg.Factory().reservationTTL, AnotherKey(c);
    World(now, OneRowEach(cfg, rival, sorted, 3, 4, 5, now), [OneEntry(cfg, rival, sorted, 2, 3, 4, 5, now)],
          map[4 := [Event(Pending, 2, now, now)]], map[0 := 1, 1 := 1, 2 := 1, 3 := 2, 4 := 2, 5 := 2],
          map[1 := ProposedSession(cfg, Init(t), c, sorted, 0, 1, 2),
              2 := ProposedSession(cfg, Init(now), rival, sorted, 3, 4, 5).(phase := Done(Succeeded(5)))])
  }

  ghost function Stalling(cfg: Config, c: BookCommand, sorted: seq<Technician>, t: Time): World
    requires Staffed(cfg, c, sorted)
  {
    Init(t).(sessions := map[1 := ProposedSession(cfg, Init(t), c, sorted, 0, 1, 2)],
        issued := map[0 := 1, 1 := 1, 2 := 1],
             clock := t + cfg.Factory().reservationTTL)
  }

  lemma StallingIsReachable(cfg: Config, c: BookCommand, sorted: seq<Technician>, t: Time)
    requires Staffed(cfg, c, sorted) && Bookable(cfg, c, sorted, t)
    ensures Reachable(cfg, Stalling(cfg, c, sorted, t))
  {
    hide Reachable, Bookable, ProposedSession;
    StartIsReachable(cfg, t);
    ProposeOnEmptyTables(cfg, Init(t), 1, c, sorted, 0, 1, 2);
    var w := Init(t).(sessions := map[1 := ProposedSession(cfg, Init(t), c, sorted, 0, 1, 2)],
        issued := map[0 := 1, 1 := 1, 2 := 1]);
    assert w == Init(t).(sessions := Init(t).sessions[1 := ProposedSession(cfg, Init(t), c, sorted, 0, 1, 2)],
                         issued := Init(t).issued[0 := 1][1 := 1][2 := 1]);
    ReachableStep(cfg, w, Tick(cfg.Factory().reservationTTL));
  }

  /** The rival, about to commit. */
  ghost function StalledRival(cfg: Config, c: BookCommand, sorted: seq<Technician>, t: Time): World
    requires Staffed(cfg, c, sorted)
  {
    var w := Stalling(cfg, c, sorted, t);
    w.(sessions := w.sessions[2 := ProposedSession(cfg, w, AnotherKey(c), sorted, 3, 4, 5)],
        issued := w.issued[3 := 2][4 := 2][5 := 2])
  }

  lemma StalledRivalMayCommit(cfg: Config, c: BookCommand, sorted: seq<Technician>, t: Time)
    requires Staffed(cfg, c, sorted)
    ensures Enabled(cfg, StalledRival(cfg, c, sorted, t), Commit(2))
  {
    hide NewBookingFactory, ListedBays, Bookable, BuiltDetails;
  }

  lemma StalledRivalCommits(cfg: Config, c: BookCommand, sorted: seq<Technician>, t: Time)
    requires Staffed(cfg, c, sorted) && Enabled(cfg, StalledRival(cfg, c, sorted, t), Commit(2))
    ensures Apply(cfg, StalledRival(cfg, c, sorted, t), Commit(2)) == Stalled(cfg, c, sorted, t)
  {
    hide NewBookingFactory, ListedBays, Bookable, CanCommit, ApplyWrite;
  }

  lemma StalledIsReachable(cfg: Config, c: BookCommand, sorted: seq<Technician>, t: Time)
    requires Staffed(cfg, c, sorted) && Bookable(cfg, c, sorted, t)
             && Bookable(cfg, AnotherKey(c), sorted, t + cfg.Factory().reservationTTL)
    ensures Reachable(cfg, Stalled(cfg, c, sorted, t))
  {
    hide Reachable, Bookable, Stalled, ProposedSession, Enabled, Apply, NewBookingFactory;
    StallingIsReachable(cfg, c, sorted, t);
    ProposeOnEmptyTables(cfg, Stalling(cfg, c, sorted, t), 2, AnotherKey(c), sorted, 3, 4, 5);
    StalledRivalMayCommit(cfg, c, sorted, t);
    StalledRivalCommits(cfg, c, sorted, t);
    ReachableStep(cfg, StalledRival(cfg, c, sorted, t), Commit(2));
  }

  lemma ProposeOnEmptyTables(
    cfg: Config, w: World, sid: nat, c: BookCommand, sorted: seq<Technician>, x: Uuid, a: Uuid, r: Uuid)
    requires Reachable(cfg, w) && sid !in w.sessions && w.store == EMPTY
    requires x !in w.issued && a !in w.issued && r !in w.issued && x != a && x != r && a != r
    requires Staffed(cfg, c, sorted) && Bookable(cfg, c, sorted, w.clock)
    ensures Reachable(cfg, w.(sessions := w.sessions[sid := ProposedSession(cfg, w, c, sorted, x, a, r)],
                              issued := w.issued[x := sid][a := sid][r := sid]))
  {
    hide Reachable, Bookable, PlanFor;
    ProposeIdle(cfg, w, sid, c, sorted, x, a, r);
  }

  lemma StalledMayCommit(cfg: Config, c: BookCommand, sorted: seq<Technician>, t: Time)
    requires Staffed(cfg, c, sorted) && Bookable(cfg, c, sorted, t)
             && Bookable(cfg, AnotherKey(c), sorted, t + cfg.Factory().reservationTTL)
    ensures var w := Stalled(cfg, c, sorted, t); StagedBooking(w, 1) && Enabled(cfg, w, Commit(1)) && Timely(w)
  {
    hide Bookable, NewBookingFactory;
    assert AnotherKey(c).key != c.key;
  }

  lemma StalledClaim(cfg: Config, c: BookCommand, sorted: seq<Technician>, t: Time)
    requires Staffed(cfg, c, sorted) && Bookable(cfg, c, sorted, t)
             && Bookable(cfg, AnotherKey(c), sorted, t + cfg.Factory().reservationTTL)
    ensures var w := Stalled(cfg, c, sorted, t);
            && w.store.appointments ==
               map[4 := AppointmentRow(WriteFor(cfg, AnotherKey(c), sorted, 3, 4, 5, w.clock).details, Pending)]
            && Claimed(w.store, 4, w.clock)
  {
    assert cfg.Factory().reservationTTL > 0;
    hide Bookable, NewBookingFactory, PlanFor, ProposedSession, HasLiveHold;
    LiveHoldIntro(Stalled(cfg, c, sorted, t).store, 5, Stalled(cfg, c, sorted, t).clock);
  }

  /** The stalled booking may commit, and its technician is by then taken. */
  lemma StalledDecisionIsWrong(cfg: Config, c: BookCommand, sorted: seq<Technician>, t: Time)
    requires Staffed(cfg, c, sorted) && Bookable(cfg, c, sorted, t)
             && Bookable(cfg, AnotherKey(c), sorted, t + cfg.Factory().reservationTTL)
    ensures var w := Stalled(cfg, c, sorted, t);
            && Reachable(cfg, w) && Timely(w) && StagedBooking(w, 1) && Enabled(cfg, w, Commit(1))
            && w.clock == w.sessions[1].phase.write.hold.expiredAt
            && !ResourcesFree(w, w.sessions[1])
  {
    StalledIsReachable(cfg, c, sorted, t);
    StalledMayCommit(cfg, c, sorted, t);
    StalledClaim(cfg, c, sorted, t);
    assert cfg.catalog[c.serviceType].duration > 0 && sorted != [];
    hide Reachable, Bookable, Claimed, Timely, Enabled, NewBookingFactory;
    var w := Stalled(cfg, c, sorted, t);
    Commits.BusyIsListed(w.store, Requery(w, w.sessions[1].plan.value.Query(t)), 4);
  }

  /** What the snapshot decided is still right in the committed tables, in all runs whose
      confirms are timely and whose bookings commit before their own hold's expiry plus some
      slack, exactly when there is no slack. */
  lemma CommitDeadlineIsExact(cfg: Config, c: BookCommand, sorted: seq<Technician>, t: Time, slack: Duration)
    requires Staffed(cfg, c, sorted) && Bookable(cfg, c, sorted, t)
             && Bookable(cfg, c, sorted, t + cfg.Factory().reservationTTL)
    ensures (forall w, sid | Reachable(cfg, w) && Timely(w) && StagedBooking(w, sid) && Enabled(cfg, w, Commit(sid))
                             && w.clock < w.sessions[sid].phase.write.hold.expiredAt + slack ::
               ResourcesFree(w, w.sessions[sid])) <==> slack <= 0
  {
    hide Reachable, Bookable, Timely, Enabled, ResourcesFree, Stalled;
    if slack <= 0 {
      forall w, sid | Reachable(cfg, w) && Timely(w) && StagedBooking(w, sid) && Enabled(cfg, w, Commit(sid))
                      && w.clock < w.sessions[sid].phase.write.hold.expiredAt + slack
        ensures ResourcesFree(w, w.sessions[sid])
      {
        DecisionStillRight(cfg, w, sid);
      }
    } else {
      AnotherKeyBookable(cfg, c, sorted, t + cfg.Factory().reservationTTL);
      StalledDecisionIsWrong(cfg, c, sorted, t);
    }
  }
}
