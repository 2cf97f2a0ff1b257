/** Calls whose circumstances are those of a run, as Refinement asks: one that is made again up
    to nine times, and one that loses its key to a rival. */
module CallWitnesses {
  import opened Wrappers
  import opened Domain
  import opened Tables
  import opened Workforce
  import opened Booking
  import opened Protocol
  import opened Deadlines
  import Database
  import Messages
  import R = Repository
  import F = Refinement

  const ALONE: F.Attempt := F.Attempt([], [], [], [])

  function Times(n: nat): (r: seq<F.Attempt>)
    ensures |r| == n
  {
    if n == 0 then [] else Times(n - 1) + [ALONE]
  }

  /** Nobody else does anything, n attempts fail, and then one does not. */
  function QuietSchedule(n: nat): F.CallSchedule {
    F.CallSchedule([], [], [], F.Schedule(Times(n), ALONE, []))
  }

  /** Everything an attempt meets is as w has it, at one instant. */
  function QuietEnvironment(w: World, a: Uuid, r: Uuid): R.Environment {
    R.Environment(w.store, w.store, w.clock, w.clock, a, r, None, false, None, None, None, None, None, false)
  }

  const SERIALIZATION_FAILURE :=
    Database.PgError("ERROR", Database.COULD_NOT_SERIALIZE + " due to concurrent update", "40001", "")

  /** The same, but the database refuses the commit. */
  function FailingEnvironment(w: World, a: Uuid, r: Uuid): R.Environment {
    QuietEnvironment(w, a, r).(commitError := Some(SERIALIZATION_FAILURE))
  }

  function QuietInputs(w: World, sorted: seq<Technician>, x: Uuid, a: Uuid, r: Uuid, n: nat): R.CallInputs {
    R.CallInputs(w.clock, w.store, None, None, w.clock, None, _ => true, None, x, sorted,
                 k => if k <= n then FailingEnvironment(w, a, r) else QuietEnvironment(w, a, r), w.store,
                 Database.Plain("no rows"))
  }

  /** A command that passes its checks, with an unused key, when some listed technician and some
      listed bay are free for its window. */
  ghost predicate Clear(
    cfg: Config, w: World, sid: nat, c: BookCommand, sorted: seq<Technician>, x: Uuid, a: Uuid, r: Uuid)
  {
    && sid !in w.sessions && x !in w.issued && a !in w.issued && r !in w.issued && x != a && x != r && a != r
    && Staffed(cfg, c, sorted) && Passes(cfg, c, sorted, w.clock) && !HasKey(w.store, c.key)
    && SomeAreFree(cfg, w.store, c, sorted, x, w.clock)
  }

  /** A call made in w, all that is asked of its circumstances met, and how the run answers it. */
  ghost predicate IsCallOfRun(
    cfg: Config, w: World, w': World, sid: nat, c: BookCommand, inputs: R.CallInputs,
    r: Result<Uuid, Database.GoError>, tries: nat, committed: Store, commits: int, callSchedule: F.CallSchedule)
  {
    && R.OrderlyInputs(cfg.catalog, cfg.roster, c, inputs)
    && F.CallMatchesRun(cfg, w, sid, c, inputs, tries, callSchedule)
    && R.BookingEnds(cfg.Factory(), cfg.catalog, cfg.roster, c, inputs, r, tries, committed, commits)
    && F.AnsweredBooking(cfg, w, w', sid, c, F.BookingOutcome(cfg, c, inputs, tries), r)
    && (commits == 1 ==> committed == w'.store)
  }

  lemma CallRuns(
    cfg: Config, w: World, sid: nat, c: BookCommand, inputs: R.CallInputs,
    r: Result<Uuid, Database.GoError>, tries: nat, committed: Store, commits: int, callSchedule: F.CallSchedule)
    returns (w': World)
    requires Reachable(cfg, w) && sid !in w.sessions && R.OrderlyInputs(cfg.catalog, cfg.roster, c, inputs)
    requires F.CallMatchesRun(cfg, w, sid, c, inputs, tries, callSchedule)
    requires R.BookingEnds(cfg.Factory(), cfg.catalog, cfg.roster, c, inputs, r, tries, committed, commits)
    ensures IsCallOfRun(cfg, w, w', sid, c, inputs, r, tries, committed, commits, callSchedule)
  {
    hide Reachable, R.OrderlyInputs, F.CallMatchesRun, R.BookingEnds, F.AnsweredBooking, F.BookingOutcome;
    w' := F.BookingIsRun(cfg, w, sid, c, inputs, r, tries, committed, commits, callSchedule);
  }

  // ---- The worlds such a call goes through, n attempts made ----

  ghost function ReadyWorld(
    cfg: Config, w: World, sid: nat, c: BookCommand, sorted: seq<Technician>, x: Uuid, n: nat): World
    requires Staffed(cfg, c, sorted)
  {
    With(w, sid, Session(Book(c), Ready, Some(PlanFor(cfg, c, sorted, x, w.clock)), n, None))
      .(issued := w.issued[x := sid])
  }

  ghost function ReadingWorld(
    cfg: Config, w: World, sid: nat, c: BookCommand, sorted: seq<Technician>, x: Uuid, n: nat): World
    requires Staffed(cfg, c, sorted)
  {
    var view := View(w.clock, w.store, |w.log|, w.clock);
    With(w, sid, Session(Book(c), Reading(view), Some(PlanFor(cfg, c, sorted, x, w.clock)), n + 1, None))
      .(issued := w.issued[x := sid])
  }

  ghost function StagedWorld(
    cfg: Config, w: World, sid: nat, c: BookCommand, sorted: seq<Technician>, x: Uuid, a: Uuid, r: Uuid, n: nat): World
    requires Staffed(cfg, c, sorted)
  {
    var view := View(w.clock, w.store, |w.log|, w.clock);
    var staged := Staged(view, w.clock, PickedWrite(cfg, w.store, c, sorted, x, a, r, w.clock));
    With(w, sid, Session(Book(c), staged, Some(PlanFor(cfg, c, sorted, x, w.clock)), n + 1, Some(r)))
      .(issued := w.issued[x := sid][a := sid][r := sid])
  }

  lemma NobodyElse(cfg: Config, w: World, sid: nat)
    ensures F.Others(cfg, w, [], sid) == Some(w)
  {
  }

  // ---- Steps ----

  /** The call's steps before its preparation, all taken at once. */
  lemma FrontStep(
    cfg: Config, w: World, sid: nat, c: BookCommand, sorted: seq<Technician>, x: Uuid, a: Uuid, r: Uuid)
    requires Clear(cfg, w, sid, c, sorted, x, a, r)
    ensures F.Take(cfg, w, Call(sid, Book(c))) == With(w, sid, Session(Book(c), Called, None, 0, None))
    ensures F.Take(cfg, With(w, sid, Session(Book(c), Called, None, 0, None)), Validate(sid)) ==
            With(w, sid, Session(Book(c), Validated, None, 0, None))
    ensures F.Take(cfg, With(w, sid, Session(Book(c), Validated, None, 0, None)), FastPath(sid)) ==
            With(w, sid, Session(Book(c), Missed, None, 0, None))
  {
    hide PrepareError, StartTimeErrorDetail, NewBookingFactory, HasKey, SomeAreFree, SortedByScore, IsBlank, PlanFor;
  }

  lemma PrepareStep(
    cfg: Config, w: World, sid: nat, c: BookCommand, sorted: seq<Technician>, x: Uuid, a: Uuid, r: Uuid)
    requires Clear(cfg, w, sid, c, sorted, x, a, r)
    ensures F.Take(cfg, With(w, sid, Session(Book(c), Missed, None, 0, None)), Prepare(sid, x, sorted)) ==
            ReadyWorld(cfg, w, sid, c, sorted, x, 0)
  {
    hide PrepareError, StartTimeErrorDetail, NewBookingFactory, HasKey, SomeAreFree, SortedByScore, IsBlank,
         ListedTechnicians, ListedBays;
  }

  /** The session has begun an attempt. */
  ghost function BegunWorld(
    cfg: Config, w: World, sid: nat, c: BookCommand, sorted: seq<Technician>, x: Uuid, n: nat): World
    requires Staffed(cfg, c, sorted)
  {
    With(w, sid, Session(Book(c), Begun(w.clock), Some(PlanFor(cfg, c, sorted, x, w.clock)), n + 1, None))
      .(issued := w.issued[x := sid])
  }

  lemma BeginStep(cfg: Config, w: World, sid: nat, c: BookCommand, sorted: seq<Technician>, x: Uuid, n: nat)
    requires Staffed(cfg, c, sorted) && n < 10
    ensures F.Take(cfg, ReadyWorld(cfg, w, sid, c, sorted, x, n), Begin(sid)) ==
            BegunWorld(cfg, w, sid, c, sorted, x, n)
  {
    hide PlanFor;
  }

  lemma SnapshotStep(cfg: Config, w: World, sid: nat, c: BookCommand, sorted: seq<Technician>, x: Uuid, n: nat)
    requires Staffed(cfg, c, sorted)
    ensures F.Take(cfg, BegunWorld(cfg, w, sid, c, sorted, x, n), Snapshot(sid)) ==
            ReadingWorld(cfg, w, sid, c, sorted, x, n)
  {
    hide PlanFor;
  }

  lemma AbortStep(cfg: Config, w: World, sid: nat, c: BookCommand, sorted: seq<Technician>, x: Uuid, n: nat)
    requires Staffed(cfg, c, sorted) && n + 1 < 10
    ensures F.Take(cfg, ReadingWorld(cfg, w, sid, c, sorted, x, n), Abort(sid)) ==
            ReadyWorld(cfg, w, sid, c, sorted, x, n + 1)
  {
    hide PlanFor;
  }

  lemma OpensAtOnce(cfg: Config, w: World, sid: nat, c: BookCommand, sorted: seq<Technician>, x: Uuid, n: nat)
    requires Staffed(cfg, c, sorted) && n < 10
    ensures F.Opening(cfg, ReadyWorld(cfg, w, sid, c, sorted, x, n), sid, ALONE) ==
            Some(ReadingWorld(cfg, w, sid, c, sorted, x, n))
  {
    hide F.Others, F.Take, ReadyWorld, BegunWorld, ReadingWorld;
    BeginStep(cfg, w, sid, c, sorted, x, n);
    SnapshotStep(cfg, w, sid, c, sorted, x, n);
    NobodyElse(cfg, ReadyWorld(cfg, w, sid, c, sorted, x, n), sid);
    NobodyElse(cfg, BegunWorld(cfg, w, sid, c, sorted, x, n), sid);
    NobodyElse(cfg, ReadingWorld(cfg, w, sid, c, sorted, x, n), sid);
  }

  lemma RetriesOnce(cfg: Config, w: World, sid: nat, c: BookCommand, sorted: seq<Technician>, x: Uuid, n: nat)
    requires Staffed(cfg, c, sorted) && n + 1 < 10
    ensures F.Retried(cfg, ReadyWorld(cfg, w, sid, c, sorted, x, n), sid, ALONE) ==
            Some(ReadyWorld(cfg, w, sid, c, sorted, x, n + 1))
  {
    hide Staffed, F.Others, F.Take, F.Opening, ReadyWorld, ReadingWorld;
    OpensAtOnce(cfg, w, sid, c, sorted, x, n);
    NobodyElse(cfg, ReadingWorld(cfg, w, sid, c, sorted, x, n), sid);
    AbortStep(cfg, w, sid, c, sorted, x, n);
  }

  lemma {:induction false} RetriesAlone(
    cfg: Config, w: World, sid: nat, c: BookCommand, sorted: seq<Technician>, x: Uuid, n: nat)
    requires Staffed(cfg, c, sorted) && n < 10
    ensures F.RetriedAll(cfg, ReadyWorld(cfg, w, sid, c, sorted, x, 0), sid, Times(n)) ==
            Some(ReadyWorld(cfg, w, sid, c, sorted, x, n))
  {
    hide Staffed, F.Retried, ReadyWorld;
    if n > 0 {
      assert Times(n)[..n - 1] == Times(n - 1) && Times(n)[n - 1] == ALONE;
      RetriesAlone(cfg, w, sid, c, sorted, x, n - 1);
      RetriesOnce(cfg, w, sid, c, sorted, x, n - 1);
    }
  }

  // ---- The decision ----

  lemma PlanIsFor(cfg: Config, c: BookCommand, sorted: seq<Technician>, x: Uuid, now: Time)
    requires Staffed(cfg, c, sorted)
    ensures PlanFor(cfg, c, sorted, x, now).command == c
  {
  }

  /** The closure, reading undisturbed, decides to insert; only its write or its commit can fail. */
  lemma DecidesToInsert(
    cfg: Config, w: World, sid: nat, c: BookCommand, sorted: seq<Technician>, x: Uuid, a: Uuid, r: Uuid,
        env: R.Environment)
    requires Clear(cfg, w, sid, c, sorted, x, a, r)
    requires env == QuietEnvironment(w, a, r).(meanwhile := env.meanwhile, writeError := env.writeError,
                                               commitError := env.commitError)
    ensures var call := R.RequestAppointment(PlanFor(cfg, c, sorted, x, w.clock));
            && R.Judge(call, cfg.Factory(), env) ==
               (if env.writeError == None then Ok(R.Verdict(PickedWrite(cfg, w.store, c, sorted, x, a, r, w.clock), r))
                else Err(env.writeError.value))
            && R.AttemptError(call, cfg.Factory(), env) ==
               (if env.writeError == None then env.commitError else env.writeError)
            && F.Reaches(call, env)
  {
    hide Passes, HasKey, SomeAreFree, PlanFor, PickedWrite, DecideBooking;
    Picks(cfg, w.store, c, sorted, x, a, r, w.clock);
    PlanIsFor(cfg, c, sorted, x, w.clock);
  }

  lemma DecideStep(
    cfg: Config, w: World, sid: nat, c: BookCommand, sorted: seq<Technician>, x: Uuid, a: Uuid, r: Uuid, n: nat)
    requires Clear(cfg, w, sid, c, sorted, x, a, r)
    ensures F.Take(cfg, ReadingWorld(cfg, w, sid, c, sorted, x, n), Decide(sid, a, r)) ==
            StagedWorld(cfg, w, sid, c, sorted, x, a, r, n)
  {
    hide Passes, HasKey, SomeAreFree, PlanFor, PickedWrite, DecideBooking;
    Picks(cfg, w.store, c, sorted, x, a, r, w.clock);
    var wd := ReadingWorld(cfg, w, sid, c, sorted, x, n);
    assert Enabled(cfg, wd, Decide(sid, a, r));
    assert wd.issued[a := sid][r := sid] == w.issued[x := sid][a := sid][r := sid];
  }

  lemma ReadsAtOnce(
    cfg: Config, w: World, sid: nat, c: BookCommand, sorted: seq<Technician>, x: Uuid, a: Uuid, r: Uuid, n: nat,
    env: R.Environment)
    requires Staffed(cfg, c, sorted) && x != a && x != r && a != r && a !in w.issued && r !in w.issued
    requires env.began == env.now == w.clock && env.arrived == w.store && env.appointment == a && env.reservation == r
    ensures var wd := ReadingWorld(cfg, w, sid, c, sorted, x, n);
            && F.ReadingMatchesRun(wd, sid, env)
            && F.CallOf(wd.sessions[sid]) == R.RequestAppointment(PlanFor(cfg, c, sorted, x, w.clock))
  {
    hide PlanFor, Staffed;
  }

  lemma DecidesAtOnce(
    cfg: Config, w: World, sid: nat, c: BookCommand, sorted: seq<Technician>, x: Uuid, a: Uuid, r: Uuid, n: nat,
    env: R.Environment)
    requires Clear(cfg, w, sid, c, sorted, x, a, r)
    requires env == QuietEnvironment(w, a, r).(meanwhile := env.meanwhile, writeError := env.writeError,
                                               commitError := env.commitError)
    ensures var wd := ReadingWorld(cfg, w, sid, c, sorted, x, n);
            && F.ReadingMatchesRun(wd, sid, env)
            && F.CallOf(wd.sessions[sid]) == R.RequestAppointment(PlanFor(cfg, c, sorted, x, w.clock))
            && F.AfterDecision(cfg, wd, sid, env) == StagedWorld(cfg, w, sid, c, sorted, x, a, r, n)
  {
    DecideStep(cfg, w, sid, c, sorted, x, a, r, n);
    DecidesToInsert(cfg, w, sid, c, sorted, x, a, r, env);
    ReadsAtOnce(cfg, w, sid, c, sorted, x, a, r, n, env);
    hide Clear, PlanFor, F.Take, F.Reaches, StagedWorld, ReadingWorld, R.Judge, R.AttemptError, F.ReadingMatchesRun;
  }

  lemma StagedMayCommit(
    cfg: Config, w: World, sid: nat, c: BookCommand, sorted: seq<Technician>, x: Uuid, a: Uuid, r: Uuid, n: nat)
    requires Clear(cfg, w, sid, c, sorted, x, a, r)
    ensures var we := StagedWorld(cfg, w, sid, c, sorted, x, a, r, n);
            && sid in we.sessions && F.DatabaseGuarantees(we, sid, None, QuietEnvironment(w, a, r))
            && Enabled(cfg, we, Commit(sid)) && we.sessions[sid].phase.Staged? && we.store == w.store
  {
    hide Passes, HasKey, SomeAreFree, PlanFor;
  }

  // ---- A call that nobody disturbs, made again n times ----

  lemma FailingIsRetried(call: R.RepoCommand, factory: FactoryConfig, env: R.Environment)
    requires R.AttemptError(call, factory, env) == Some(SERIALIZATION_FAILURE) && !env.givesUp
    ensures R.Retries(call, factory, env)
  {
    hide R.AttemptError, Database.Contains;
    var phrase := Database.COULD_NOT_SERIALIZE;
    assert Database.Contains(phrase, phrase) by { PhraseInItself(phrase); }
    var message := phrase + " due to concurrent update";
    Database.ContainsInPrefix(phrase, " due to concurrent update", phrase);
    var tail := " (SQLSTATE " + "40001" + ")";
    Database.ContainsInPrefix(message, tail, phrase);
    Database.ContainsInSuffix("ERROR" + ": ", message + tail, phrase);
    assert SERIALIZATION_FAILURE.Text() == "ERROR" + ": " + (message + tail);
  }

  lemma PhraseInItself(s: string)
    ensures Database.Contains(s, s)
  {
    assert Database.OccursAt(s, s, 0);
  }

  /** What the attempts of a call have to meet. */
  lemma AttemptsMatchRun(
    cfg: Config, w: World, sid: nat, envs: nat -> R.Environment, tries: nat, schedule: F.Schedule,
    wr: World, wd: World, we: World)
    requires tries == |schedule.retried| + 1 && F.RetriedAll(cfg, w, sid, schedule.retried) == Some(wr)
    requires F.Opening(cfg, wr, sid, schedule.last) == Some(wd)
    requires F.ReadingMatchesRun(wd, sid, envs(tries)) && sid in we.sessions
    requires F.Others(cfg, F.AfterDecision(cfg, wd, sid, envs(tries)), schedule.last.toEnd, sid) == Some(we)
    requires var err := R.AttemptError(F.CallOf(wd.sessions[sid]), cfg.Factory(), envs(tries));
             F.DatabaseGuarantees(we, sid, err, envs(tries))
    ensures F.LastAttemptMatchesRun(cfg, w, sid, envs, tries, schedule)
    ensures F.AtEnd(cfg, w, sid, envs, tries, schedule) == we
  {
    hide F.Opening, F.Others, F.AfterDecision, F.ReadingMatchesRun, F.DatabaseGuarantees, R.AttemptError, F.RetriedAll;
  }

  lemma RequestMatchesAlone(
    cfg: Config, w: World, sid: nat, c: BookCommand, sorted: seq<Technician>, x: Uuid, a: Uuid, r: Uuid, n: nat)
    requires Clear(cfg, w, sid, c, sorted, x, a, r) && n < 10
    ensures var w' := ReadyWorld(cfg, w, sid, c, sorted, x, 0);
            && F.Waiting(w', sid)
            && F.RequestMatchesRun(cfg, w', sid, QuietInputs(w, sorted, x, a, r, n), n + 1, QuietSchedule(n).schedule)
  {
    ReadyWaits(cfg, w, sid, c, sorted, x);
    var env, schedule := QuietEnvironment(w, a, r), QuietSchedule(n).schedule;
    assert schedule.retried == Times(n) && schedule.last == ALONE && ALONE.toEnd == [];
    RetriesAlone(cfg, w, sid, c, sorted, x, n);
    OpensAtOnce(cfg, w, sid, c, sorted, x, n);
    DecidesToInsert(cfg, w, sid, c, sorted, x, a, r, env);
    DecidesAtOnce(cfg, w, sid, c, sorted, x, a, r, n, env);
    StagedMayCommit(cfg, w, sid, c, sorted, x, a, r, n);
    hide ReadyWorld, ReadingWorld, StagedWorld, Clear, F.Others, F.Opening, F.RetriedAll, R.Judge, R.AttemptError,
         F.AfterDecision, F.DatabaseGuarantees, F.ReadingMatchesRun, PlanFor, QuietEnvironment, F.Waiting,
         F.LastAttemptMatchesRun, F.AtEnd, F.Reaches, QuietSchedule, FailingEnvironment, Times, PickedWrite, Staffed;
    NobodyElse(cfg, StagedWorld(cfg, w, sid, c, sorted, x, a, r, n), sid);
    AttemptsMatchRun(cfg, ReadyWorld(cfg, w, sid, c, sorted, x, 0), sid, QuietInputs(w, sorted, x, a, r, n).envs, n + 1,
                     schedule, ReadyWorld(cfg, w, sid, c, sorted, x, n), ReadingWorld(cfg, w, sid, c, sorted, x, n),
                     StagedWorld(cfg, w, sid, c, sorted, x, a, r, n));
  }

  lemma ReadyWaits(cfg: Config, w: World, sid: nat, c: BookCommand, sorted: seq<Technician>, x: Uuid)
    requires exists a, r :: Clear(cfg, w, sid, c, sorted, x, a, r)
    ensures Staffed(cfg, c, sorted)
    ensures var w' := ReadyWorld(cfg, w, sid, c, sorted, x, 0);
            F.Waiting(w', sid) && F.CallOf(w'.sessions[sid]) ==
                R.RequestAppointment(PlanFor(cfg, c, sorted, x, w.clock))
  {
    hide PlanFor, Passes;
  }

  lemma CallMatchesAlone(
    cfg: Config, w: World, sid: nat, c: BookCommand, sorted: seq<Technician>, x: Uuid, a: Uuid, r: Uuid, n: nat)
    requires Clear(cfg, w, sid, c, sorted, x, a, r) && n < 10
    ensures F.CallMatchesRun(cfg, w, sid, c, QuietInputs(w, sorted, x, a, r, n), n + 1, QuietSchedule(n))
  {
    assert x !in w.issued;
    hide Clear, F.Others, F.RequestMatchesRun, F.Interrupted, F.Take, QuietEnvironment, FailingEnvironment,
         StartTimeErrorDetail, ReadyWorld, F.Waiting;
    FrontStep(cfg, w, sid, c, sorted, x, a, r);
    NobodyElse(cfg, With(w, sid, Session(Book(c), Called, None, 0, None)), sid);
    NobodyElse(cfg, With(w, sid, Session(Book(c), Validated, None, 0, None)), sid);
    NobodyElse(cfg, With(w, sid, Session(Book(c), Missed, None, 0, None)), sid);
    PrepareStep(cfg, w, sid, c, sorted, x, a, r);
    RequestMatchesAlone(cfg, w, sid, c, sorted, x, a, r, n);
  }

  lemma NothingRefuses(
    cfg: Config, w: World, sid: nat, c: BookCommand, sorted: seq<Technician>, x: Uuid, a: Uuid, r: Uuid,
    inputs: R.CallInputs)
    requires Clear(cfg, w, sid, c, sorted, x, a, r)
    requires inputs == QuietInputs(w, sorted, x, a, r, 0).(envs := inputs.envs, afterwards := inputs.afterwards)
    ensures R.EarlyAnswer(cfg.Factory(), cfg.catalog, cfg.roster, c, inputs) == None
  {
    hide StartTimeErrorDetail, HasKey, SomeAreFree, SortedByScore, IsBlank, ListedTechnicians, ListedBays,
         NewBookingFactory, QuietEnvironment;
    R.ErrorsIgnoreVehicle(cfg.Factory(), c, x, w.clock);
  }

  lemma StopsAlone(
    cfg: Config, w: World, sid: nat, c: BookCommand, sorted: seq<Technician>, x: Uuid, a: Uuid, r: Uuid, n: nat)
    requires Clear(cfg, w, sid, c, sorted, x, a, r) && n < 10
    ensures R.Stops(R.RequestAppointment(PlanFor(cfg, c, sorted, x, w.clock)), cfg.Factory(),
                    QuietInputs(w, sorted, x, a, r, n).envs, n + 1)
  {
    DecidesToInsert(cfg, w, sid, c, sorted, x, a, r, QuietEnvironment(w, a, r));
    DecidesToInsert(cfg, w, sid, c, sorted, x, a, r, FailingEnvironment(w, a, r));
    hide Clear, R.Judge, R.AttemptError, PlanFor;
    FailingIsRetried(R.RequestAppointment(PlanFor(cfg, c, sorted, x, w.clock)), cfg.Factory(),
        FailingEnvironment(w, a, r));
  }

  lemma EndsAsBooked(
    cfg: Config, w: World, sid: nat, c: BookCommand, sorted: seq<Technician>, x: Uuid, a: Uuid, r: Uuid, n: nat)
    requires Clear(cfg, w, sid, c, sorted, x, a, r) && n < 10
    ensures R.BookingEnds(cfg.Factory(), cfg.catalog, cfg.roster, c, QuietInputs(w, sorted, x, a, r, n), Ok(r), n + 1,
                          ApplyWrite(w.store, PickedWrite(cfg, w.store, c, sorted, x, a, r, w.clock)), 1)
  {
    DecidesToInsert(cfg, w, sid, c, sorted, x, a, r, QuietEnvironment(w, a, r));
    NothingRefuses(cfg, w, sid, c, sorted, x, a, r, QuietInputs(w, sorted, x, a, r, n));
    StopsAlone(cfg, w, sid, c, sorted, x, a, r, n);
    hide Clear, R.EarlyAnswer, R.Judge, R.AttemptError, ApplyWrite, PickedWrite, R.Stops;
  }

  lemma QuietReads(w: World, a: Uuid, r: Uuid)
    ensures QuietEnvironment(w, a, r).arrived == FailingEnvironment(w, a, r).arrived == w.store
  {
  }

  /** Up to nine serialization failures, and then a booking: the circumstances are those of a
      run, so all that is asked of a call is met, and what the code makes of them is n + 1
      attempts, the new reservation's UUID and the three rows, with the outcome to match. */
  lemma UndisturbedCallBooks(
    cfg: Config, w: World, sid: nat, c: BookCommand, sorted: seq<Technician>, x: Uuid, a: Uuid, r: Uuid, n: nat)
    returns (w': World)
    requires Reachable(cfg, w) && Clear(cfg, w, sid, c, sorted, x, a, r) && n < 10
    ensures IsCallOfRun(cfg, w, w', sid, c, QuietInputs(w, sorted, x, a, r, n), Ok(r), n + 1,
                        ApplyWrite(w.store, PickedWrite(cfg, w.store, c, sorted, x, a, r, w.clock)), 1,
                            QuietSchedule(n))
    ensures var d := PickedWrite(cfg, w.store, c, sorted, x, a, r, w.clock).details;
            var q := PlanFor(cfg, c, sorted, x, w.clock).Query(w.clock);
            && BestFree(ListedTechnicians(cfg.catalog, cfg.roster, c), BusyTechnicians(w.store, q), d.technician)
            && FirstFreeBay(ListedBays(cfg.catalog, cfg.roster, c), BusyBays(w.store, q), d.bay)
  {
    PickedIsBest(cfg, w.store, c, sorted, x, a, r, w.clock);
    assert sid !in w.sessions;
    QuietInputsAreOrderly(cfg, w, sid, c, sorted, x, a, r, n);
    CallMatchesAlone(cfg, w, sid, c, sorted, x, a, r, n);
    EndsAsBooked(cfg, w, sid, c, sorted, x, a, r, n);
    hide Reachable, Clear, F.CallMatchesRun, R.BookingEnds, R.OrderlyInputs, ApplyWrite, PickedWrite, QuietInputs,
         IsCallOfRun, QuietSchedule, BestFree, FirstFreeBay, PlanFor, BusyTechnicians, BusyBays, Staffed;
    w' := CallRuns(cfg, w, sid, c, QuietInputs(w, sorted, x, a, r, n), Ok(r), n + 1,
                   ApplyWrite(w.store, PickedWrite(cfg, w.store, c, sorted, x, a, r, w.clock)), 1, QuietSchedule(n));
  }

  lemma QuietInputsAreOrderly(
    cfg: Config, w: World, sid: nat, c: BookCommand, sorted: seq<Technician>, x: Uuid, a: Uuid, r: Uuid, n: nat)
    requires Reachable(cfg, w) && Clear(cfg, w, sid, c, sorted, x, a, r)
    ensures R.OrderlyInputs(cfg.catalog, cfg.roster, c, QuietInputs(w, sorted, x, a, r, n))
  {
    assert SortedByScore(sorted, ListedTechnicians(cfg.catalog, cfg.roster, c));
    F.SnapshotsAreOrderly(cfg, w);
    QuietReads(w, a, r);
    hide Reachable, Clear, QuietEnvironment, FailingEnvironment, R.UniqueKeys, R.Identified, SortedByScore,
         ListedTechnicians;
  }

  // ---- A call that loses its key to a rival ----

  /** Session t books c from call to commit. */
  function RivalTrace(t: nat, c: BookCommand, sorted: seq<Technician>, x: Uuid, a: Uuid, r: Uuid): seq<Step> {
    [Call(t, Book(c)), Validate(t), FastPath(t), Prepare(t, x, sorted)] +
    [Begin(t), Snapshot(t), Decide(t, a, r), Commit(t)]
  }

  /** And the world it leaves. */
  ghost function RivalledWorld(
    cfg: Config, w: World, t: nat, c: BookCommand, sorted: seq<Technician>, x: Uuid, a: Uuid, r: Uuid): World
    requires Staffed(cfg, c, sorted)
  {
    F.Take(cfg, StagedWorld(cfg, w, t, c, sorted, x, a, r, 0), Commit(t))
  }

  /** A step that is enabled and changes the world. */
  ghost predicate Moved(cfg: Config, w: World, step: Step, w': World) {
    F.Take(cfg, w, step) == w' && w' != w
  }

  lemma {:induction false} ExecPath(cfg: Config, worlds: seq<World>, trace: seq<Step>)
    requires |worlds| == |trace| + 1
    requires forall i | 0 <= i < |trace| :: Moved(cfg, worlds[i], trace[i], worlds[i + 1])
    ensures Exec(cfg, worlds[0], trace) == Some(worlds[|trace|])
  {
    hide Enabled, Apply;
    if trace != [] {
      var n := |trace| - 1;
      ExecPath(cfg, worlds[..n + 1], trace[..n]);
      assert Moved(cfg, worlds[n], trace[n], worlds[n + 1]);
    }
  }

  lemma FourSteps(
    cfg: Config, w0: World, s1: Step, w1: World, s2: Step, w2: World, s3: Step, w3: World, s4: Step, w4: World)
    requires Moved(cfg, w0, s1, w1) && Moved(cfg, w1, s2, w2) && Moved(cfg, w2, s3, w3) && Moved(cfg, w3, s4, w4)
    ensures Exec(cfg, w0, [s1, s2, s3, s4]) == Some(w4)
  {
    hide Moved, Exec;
    var worlds, trace := [w0, w1, w2, w3, w4], [s1, s2, s3, s4];
    forall i | 0 <= i < |trace| ensures Moved(cfg, worlds[i], trace[i], worlds[i + 1]) {
      assert i == 0 || i == 1 || i == 2 || i == 3;
    }
    ExecPath(cfg, worlds, trace);
  }

  /** No two of the rival's first states are the same. */
  lemma FrontStates(
    cfg: Config, w: World, t: nat, c: BookCommand, sorted: seq<Technician>, x: Uuid)
    requires t !in w.sessions && Staffed(cfg, c, sorted)
    ensures w != With(w, t, Session(Book(c), Called, None, 0, None))
    ensures With(w, t, Session(Book(c), Called, None, 0, None)) != With(w, t,
            Session(Book(c), Validated, None, 0, None))
    ensures With(w, t, Session(Book(c), Validated, None, 0, None)) != With(w, t,
            Session(Book(c), Missed, None, 0, None))
    ensures With(w, t, Session(Book(c), Missed, None, 0, None)) != ReadyWorld(cfg, w, t, c, sorted, x, 0)
  {
    hide PlanFor;
    assert With(w, t, Session(Book(c), Called, None, 0, None)).sessions[t].phase.Called?;
    assert With(w, t, Session(Book(c), Validated, None, 0, None)).sessions[t].phase.Validated?;
    assert With(w, t, Session(Book(c), Missed, None, 0, None)).sessions[t].phase.Missed?;
    assert ReadyWorld(cfg, w, t, c, sorted, x, 0).sessions[t].phase.Ready?;
  }

  lemma RivalPrepares(
    cfg: Config, w: World, t: nat, c: BookCommand, sorted: seq<Technician>, x: Uuid, a: Uuid, r: Uuid)
    requires Clear(cfg, w, t, c, sorted, x, a, r)
    ensures Staffed(cfg, c, sorted)
    ensures var w1, w2 := With(w, t, Session(Book(c), Called, None, 0, None)),
            With(w, t, Session(Book(c), Validated, None, 0, None));
            var w3, w4 := With(w, t, Session(Book(c), Missed, None, 0, None)), ReadyWorld(cfg, w, t, c, sorted, x, 0);
            && Moved(cfg, w, Call(t, Book(c)), w1) && Moved(cfg, w1, Validate(t), w2) && Moved(cfg, w2, FastPath(t), w3)
            && Moved(cfg, w3, Prepare(t, x, sorted), w4)
  {
    FrontStates(cfg, w, t, c, sorted, x);
    FrontStep(cfg, w, t, c, sorted, x, a, r);
    PrepareStep(cfg, w, t, c, sorted, x, a, r);
    hide Clear, F.Take, With, ReadyWorld;
  }

  lemma RivalRuns(
    cfg: Config, w: World, t: nat, c: BookCommand, sorted: seq<Technician>, x: Uuid, a: Uuid, r: Uuid)
    requires Clear(cfg, w, t, c, sorted, x, a, r)
    ensures Staffed(cfg, c, sorted)
    ensures Exec(cfg, w, RivalTrace(t, c, sorted, x, a, r)) == Some(RivalledWorld(cfg, w, t, c, sorted, x, a, r))
  {
    RivalPrepares(cfg, w, t, c, sorted, x, a, r);
    RivalStates(cfg, w, t, c, sorted, x, a, r);
    RivalTakes(cfg, w, t, c, sorted, x, a, r);
    var w1, w2 := With(w, t, Session(Book(c), Called, None, 0, None)),
        With(w, t, Session(Book(c), Validated, None, 0, None));
    var w3, w4 := With(w, t, Session(Book(c), Missed, None, 0, None)), ReadyWorld(cfg, w, t, c, sorted, x, 0);
    var w5, w6 := BegunWorld(cfg, w, t, c, sorted, x, 0), ReadingWorld(cfg, w, t, c, sorted, x, 0);
    var w7, w8 := StagedWorld(cfg, w, t, c, sorted, x, a, r, 0), RivalledWorld(cfg, w, t, c, sorted, x, a, r);
    hide Clear, Exec, F.Take, Staffed, With, ReadyWorld, BegunWorld, ReadingWorld, StagedWorld, RivalledWorld;
    assert Moved(cfg, w4, Begin(t), w5) && Moved(cfg, w5, Snapshot(t), w6);
    assert Moved(cfg, w6, Decide(t, a, r), w7) && Moved(cfg, w7, Commit(t), w8);
    hide Moved;
    FourSteps(cfg, w, Call(t, Book(c)), w1, Validate(t), w2, FastPath(t), w3, Prepare(t, x, sorted), w4);
    FourSteps(cfg, w4, Begin(t), w5, Snapshot(t), w6, Decide(t, a, r), w7, Commit(t), w8);
    var front := [Call(t, Book(c)), Validate(t), FastPath(t), Prepare(t, x, sorted)];
    F.ExecConcat(cfg, w, front, w4, [Begin(t), Snapshot(t), Decide(t, a, r), Commit(t)]);
  }

  lemma RivalTakes(
    cfg: Config, w: World, t: nat, c: BookCommand, sorted: seq<Technician>, x: Uuid, a: Uuid, r: Uuid)
    requires Clear(cfg, w, t, c, sorted, x, a, r)
    ensures F.Take(cfg, ReadyWorld(cfg, w, t, c, sorted, x, 0), Begin(t)) == BegunWorld(cfg, w, t, c, sorted, x, 0)
    ensures F.Take(cfg, BegunWorld(cfg, w, t, c, sorted, x, 0), Snapshot(t)) == ReadingWorld(cfg, w, t, c, sorted, x, 0)
    ensures F.Take(cfg, ReadingWorld(cfg, w, t, c, sorted, x, 0), Decide(t, a, r)) ==
            StagedWorld(cfg, w, t, c, sorted, x, a, r, 0)
    ensures F.Take(cfg, StagedWorld(cfg, w, t, c, sorted, x, a, r, 0), Commit(t)) ==
            RivalledWorld(cfg, w, t, c, sorted, x, a, r)
  {
    assert Staffed(cfg, c, sorted);
    BeginStep(cfg, w, t, c, sorted, x, 0);
    SnapshotStep(cfg, w, t, c, sorted, x, 0);
    DecideStep(cfg, w, t, c, sorted, x, a, r, 0);
    hide Clear, F.Take, Staffed, ReadyWorld, BegunWorld, ReadingWorld, StagedWorld;
  }

  /** No two of the rival's last states are the same. */
  lemma RivalStates(
    cfg: Config, w: World, t: nat, c: BookCommand, sorted: seq<Technician>, x: Uuid, a: Uuid, r: Uuid)
    requires Clear(cfg, w, t, c, sorted, x, a, r)
    ensures ReadyWorld(cfg, w, t, c, sorted, x, 0) != BegunWorld(cfg, w, t, c, sorted, x, 0)
    ensures BegunWorld(cfg, w, t, c, sorted, x, 0) != ReadingWorld(cfg, w, t, c, sorted, x, 0)
    ensures ReadingWorld(cfg, w, t, c, sorted, x, 0) != StagedWorld(cfg, w, t, c, sorted, x, a, r, 0)
    ensures StagedWorld(cfg, w, t, c, sorted, x, a, r, 0) != RivalledWorld(cfg, w, t, c, sorted, x, a, r)
  {
    RivalCommits(cfg, w, t, c, sorted, x, a, r);
    hide Clear, PlanFor, F.Take, Passes, PickedWrite, RivalledWorld;
    assert ReadyWorld(cfg, w, t, c, sorted, x, 0).sessions[t].phase.Ready?;
    assert BegunWorld(cfg, w, t, c, sorted, x, 0).sessions[t].phase.Begun?;
    assert ReadingWorld(cfg, w, t, c, sorted, x, 0).sessions[t].phase.Reading?;
    assert StagedWorld(cfg, w, t, c, sorted, x, a, r, 0).sessions[t].phase.Staged?;
  }

  lemma RivalCommits(
    cfg: Config, w: World, t: nat, c: BookCommand, sorted: seq<Technician>, x: Uuid, a: Uuid, r: Uuid)
    requires Clear(cfg, w, t, c, sorted, x, a, r)
    ensures var w' := RivalledWorld(cfg, w, t, c, sorted, x, a, r);
            && t in w'.sessions && w'.sessions == w.sessions[t := w'.sessions[t]] && w'.sessions[t].phase.Done?
            && w'.store == ApplyWrite(w.store, PickedWrite(cfg, w.store, c, sorted, x, a, r, w.clock))
            && r in w'.store.reservations && w'.store.reservations[r].key == c.key
  {
    StagedMayCommit(cfg, w, t, c, sorted, x, a, r, 0);
    hide Clear, PlanFor, Passes, CanCommit, NewBookingFactory, ListedBays, BuiltDetails;
  }

  const DUPLICATE_KEY :=
    Database.PgError("ERROR", "duplicate key", Database.UNIQUE_VIOLATION, Database.UNIQUE_KEY_CONSTRAINT)

  /** The insert collides with what a rival has committed meanwhile. */
  function CollidingEnvironment(w: World, a: Uuid, r: Uuid, meanwhile: Store): R.Environment {
    QuietEnvironment(w, a, r).(meanwhile := meanwhile, writeError := Some(DUPLICATE_KEY))
  }

  function CollidingInputs(
    w: World, sorted: seq<Technician>, x: Uuid, a: Uuid, r: Uuid, meanwhile: Store): R.CallInputs
  {
    QuietInputs(w, sorted, x, a, r, 0).(envs := _ => CollidingEnvironment(w, a, r, meanwhile), afterwards := meanwhile)
  }

  /** The rival runs between the call's decision and its insert. */
  function CollidingSchedule(
    t: nat, c: BookCommand, sorted: seq<Technician>, x: Uuid, a: Uuid, r: Uuid): F.CallSchedule
  {
    F.CallSchedule([], [], [], F.Schedule([], F.Attempt([], [], [], RivalTrace(t, c, sorted, x, a, r)), []))
  }

  /** Two sessions, and two sets of UUIDs, that have nothing in common. */
  ghost predicate Rivals(
    cfg: Config, w: World, c: BookCommand, sorted: seq<Technician>,
    sid: nat, x: Uuid, a: Uuid, r: Uuid, t: nat, y: Uuid, b: Uuid, q: Uuid)
  {
    && Clear(cfg, w, sid, c, sorted, x, a, r) && Clear(cfg, w, t, c, sorted, y, b, q) && sid != t
    && y !in {x, a, r} && b !in {x, a, r} && q !in {x, a, r}
  }

  /** What the rival leaves, the call's decision made. */
  ghost function CollisionWorld(
    cfg: Config, w: World, c: BookCommand, sorted: seq<Technician>,
    sid: nat, x: Uuid, a: Uuid, r: Uuid, t: nat, y: Uuid, b: Uuid, q: Uuid): World
    requires Staffed(cfg, c, sorted)
  {
    RivalledWorld(cfg, StagedWorld(cfg, w, sid, c, sorted, x, a, r, 0), t, c, sorted, y, b, q)
  }

  lemma StillClear(
    cfg: Config, w: World, c: BookCommand, sorted: seq<Technician>,
    sid: nat, x: Uuid, a: Uuid, r: Uuid, t: nat, y: Uuid, b: Uuid, q: Uuid)
    requires Rivals(cfg, w, c, sorted, sid, x, a, r, t, y, b, q)
    ensures Clear(cfg, StagedWorld(cfg, w, sid, c, sorted, x, a, r, 0), t, c, sorted, y, b, q)
  {
    hide Passes, HasKey, SomeAreFree, PlanFor, PickedWrite;
  }

  lemma RivalIsForeign(
    sid: nat, t: nat, c: BookCommand, sorted: seq<Technician>, x: Uuid, a: Uuid, r: Uuid)
    requires sid != t
    ensures F.Foreign(RivalTrace(t, c, sorted, x, a, r), sid)
  {
  }

  lemma StagedIsThere(
    cfg: Config, w: World, sid: nat, c: BookCommand, sorted: seq<Technician>, x: Uuid, a: Uuid, r: Uuid)
    requires Staffed(cfg, c, sorted)
    ensures var ws := StagedWorld(cfg, w, sid, c, sorted, x, a, r, 0);
            sid in ws.sessions && ws.store == w.store && ws.clock == w.clock
  {
    hide PlanFor, PickedWrite, Staffed;
  }

  lemma Collides(
    cfg: Config, w: World, c: BookCommand, sorted: seq<Technician>,
    sid: nat, x: Uuid, a: Uuid, r: Uuid, t: nat, y: Uuid, b: Uuid, q: Uuid)
    requires Rivals(cfg, w, c, sorted, sid, x, a, r, t, y, b, q)
    ensures var ws, we := StagedWorld(cfg, w, sid, c, sorted, x, a, r, 0),
                          CollisionWorld(cfg, w, c, sorted, sid, x, a, r, t, y, b, q);
            && F.Others(cfg, ws, RivalTrace(t, c, sorted, y, b, q), sid) == Some(we)
            && sid in we.sessions && sid in ws.sessions && we.sessions[sid] == ws.sessions[sid]
            && we.store == ApplyWrite(w.store, PickedWrite(cfg, w.store, c, sorted, y, b, q, w.clock))
            && q in we.store.reservations && we.store.reservations[q].key == c.key
  {
    assert sid != t && Staffed(cfg, c, sorted);
    StillClear(cfg, w, c, sorted, sid, x, a, r, t, y, b, q);
    var ws := StagedWorld(cfg, w, sid, c, sorted, x, a, r, 0);
    StagedIsThere(cfg, w, sid, c, sorted, x, a, r);
    RivalRuns(cfg, ws, t, c, sorted, y, b, q);
    RivalCommits(cfg, ws, t, c, sorted, y, b, q);
    RivalIsForeign(sid, t, c, sorted, y, b, q);
    hide Rivals, Clear, Staffed, StagedWorld, Exec, RivalledWorld, PickedWrite, ApplyWrite, F.Foreign, RivalTrace;
  }

  lemma DuplicateIsPermanent()
    ensures !Database.Retryable(DUPLICATE_KEY)
    ensures Database.IsUniqueViolation(Some(DUPLICATE_KEY), Database.UNIQUE_KEY_CONSTRAINT)
  {
    hide Database.Contains;
    var text := CollisionText();
    assert Database.COULD_NOT_SERIALIZE[17] == 'z';
    if Database.Contains(text, Database.COULD_NOT_SERIALIZE) {
      Database.ContainsAllItsCharacters(text, Database.COULD_NOT_SERIALIZE, 'z');
    }
  }

  function CollisionText(): (text: Messages.Plain)
    ensures text == DUPLICATE_KEY.Text()
  {
    Messages.Plus(Messages.Plus("ERROR", ": "),
                  Messages.Plus(Messages.Plus("duplicate key", " (SQLSTATE "), Messages.Plus("23505", ")")))
  }

  lemma CollisionIsGenuine(
    cfg: Config, w: World, c: BookCommand, sorted: seq<Technician>,
    sid: nat, x: Uuid, a: Uuid, r: Uuid, t: nat, y: Uuid, b: Uuid, q: Uuid)
    requires Rivals(cfg, w, c, sorted, sid, x, a, r, t, y, b, q)
    ensures var we := CollisionWorld(cfg, w, c, sorted, sid, x, a, r, t, y, b, q);
            && sid in we.sessions && we.sessions[sid].command == Book(c)
            && F.DatabaseGuarantees(we, sid, Some(DUPLICATE_KEY), CollidingEnvironment(w, a, r, we.store))
            && F.KeyTaken(we.sessions[sid], Some(DUPLICATE_KEY))
  {
    Collides(cfg, w, c, sorted, sid, x, a, r, t, y, b, q);
    DuplicateIsPermanent();
    var we := CollisionWorld(cfg, w, c, sorted, sid, x, a, r, t, y, b, q);
    assert StagedWorld(cfg, w, sid, c, sorted, x, a, r, 0).sessions[sid].phase.write.hold.key == c.key;
    KeyIsUsed(we.store, q);
    hide Rivals, CollisionWorld, PlanFor, ApplyWrite, F.Others, DUPLICATE_KEY, Database.IsUniqueViolation, Staffed,
         HasKey, RivalTrace, PickedWrite;
  }

  /** Looked up at once, the backstop reads what the collision left. */
  lemma LooksUpAtOnce(cfg: Config, we: World, sid: nat, schedule: F.Schedule)
    requires sid in we.sessions && F.KeyTaken(we.sessions[sid], Some(DUPLICATE_KEY)) && schedule.toLookup == []
    ensures F.LookupMatchesRun(cfg, F.Ending(cfg, we, sid, Some(DUPLICATE_KEY)), sid, schedule, we.store)
  {
    hide F.Others, DUPLICATE_KEY, F.KeyTaken;
    NobodyElse(cfg, F.Take(cfg, we, Violate(sid)), sid);
  }

  lemma CollidingCallMatchesRun(
    cfg: Config, w: World, c: BookCommand, sorted: seq<Technician>,
    sid: nat, x: Uuid, a: Uuid, r: Uuid, t: nat, y: Uuid, b: Uuid, q: Uuid)
    requires Rivals(cfg, w, c, sorted, sid, x, a, r, t, y, b, q)
    ensures var we := CollisionWorld(cfg, w, c, sorted, sid, x, a, r, t, y, b, q);
            F.CallMatchesRun(cfg, w, sid, c, CollidingInputs(w, sorted, x, a, r, we.store), 1,
                             CollidingSchedule(t, c, sorted, y, b, q))
  {
    assert Clear(cfg, w, sid, c, sorted, x, a, r) && x !in w.issued;
    hide Rivals, Clear, F.Others, F.RequestMatchesRun, F.Interrupted, F.Take, QuietEnvironment, FailingEnvironment,
         StartTimeErrorDetail, ReadyWorld, F.Waiting, CollisionWorld, RivalTrace, DUPLICATE_KEY;
    FrontStep(cfg, w, sid, c, sorted, x, a, r);
    NobodyElse(cfg, With(w, sid, Session(Book(c), Called, None, 0, None)), sid);
    NobodyElse(cfg, With(w, sid, Session(Book(c), Validated, None, 0, None)), sid);
    NobodyElse(cfg, With(w, sid, Session(Book(c), Missed, None, 0, None)), sid);
    PrepareStep(cfg, w, sid, c, sorted, x, a, r);
    CollidingRequestMatchesRun(cfg, w, c, sorted, sid, x, a, r, t, y, b, q);
  }

  lemma CollidingRequestMatchesRun(
    cfg: Config, w: World, c: BookCommand, sorted: seq<Technician>,
    sid: nat, x: Uuid, a: Uuid, r: Uuid, t: nat, y: Uuid, b: Uuid, q: Uuid)
    requires Rivals(cfg, w, c, sorted, sid, x, a, r, t, y, b, q)
    ensures var w', we := ReadyWorld(cfg, w, sid, c, sorted, x, 0),
            CollisionWorld(cfg, w, c, sorted, sid, x, a, r, t, y, b, q);
            && F.Waiting(w', sid)
            && F.RequestMatchesRun(cfg, w', sid, CollidingInputs(w, sorted, x, a, r, we.store), 1,
                                   CollidingSchedule(t, c, sorted, y, b, q).schedule)
  {
    assert Clear(cfg, w, sid, c, sorted, x, a, r);
    ReadyWaits(cfg, w, sid, c, sorted, x);
    Collides(cfg, w, c, sorted, sid, x, a, r, t, y, b, q);
    CollisionIsGenuine(cfg, w, c, sorted, sid, x, a, r, t, y, b, q);
    LooksUpAtOnce(cfg, CollisionWorld(cfg, w, c, sorted, sid, x, a, r, t, y, b, q), sid,
                  CollidingSchedule(t, c, sorted, y, b, q).schedule);
    var we := CollisionWorld(cfg, w, c, sorted, sid, x, a, r, t, y, b, q);
    var env, schedule := CollidingEnvironment(w, a, r, we.store), CollidingSchedule(t, c, sorted, y, b, q).schedule;
    assert schedule.last.toEnd == RivalTrace(t, c, sorted, y, b, q) && schedule.retried == [];
    hide Rivals, ReadyWorld, ReadingWorld, StagedWorld, CollisionWorld, Clear, F.Others, F.Opening, R.Judge,
         R.AttemptError, F.AfterDecision, F.DatabaseGuarantees, F.ReadingMatchesRun, PlanFor, QuietEnvironment,
         F.Waiting, F.KeyTaken, F.LookupMatchesRun, F.Ending, ApplyWrite, PickedWrite, RivalTrace,
         F.LastAttemptMatchesRun, F.AtEnd, CollidingSchedule, DUPLICATE_KEY;
    OpensAtOnce(cfg, w, sid, c, sorted, x, 0);
    OpensBefore(cfg, w, sid, c, sorted, x, t, y, b, q);
    DecidesToInsert(cfg, w, sid, c, sorted, x, a, r, env);
    DecidesAtOnce(cfg, w, sid, c, sorted, x, a, r, 0, env);
    NothingRetried(cfg, ReadyWorld(cfg, w, sid, c, sorted, x, 0), sid);
    AttemptsMatchRun(cfg, ReadyWorld(cfg, w, sid, c, sorted, x, 0), sid,
                     CollidingInputs(w, sorted, x, a, r, we.store).envs, 1, schedule,
                     ReadyWorld(cfg, w, sid, c, sorted, x, 0), ReadingWorld(cfg, w, sid, c, sorted, x, 0), we);
  }

  lemma NothingRetried(cfg: Config, w: World, sid: nat)
    ensures F.RetriedAll(cfg, w, sid, []) == Some(w)
  {
  }

  /** An attempt's opening does not look at what others do after it. */
  lemma OpensBefore(
    cfg: Config, w: World, sid: nat, c: BookCommand, sorted: seq<Technician>, x: Uuid, t: nat, y: Uuid, b: Uuid,
        q: Uuid)
    requires Staffed(cfg, c, sorted)
    ensures var w' := ReadyWorld(cfg, w, sid, c, sorted, x, 0);
            F.Opening(cfg, w', sid, CollidingSchedule(t, c, sorted, y, b, q).schedule.last) ==
                F.Opening(cfg, w', sid, ALONE)
  {
    hide F.Others, F.Take, ReadyWorld, RivalTrace;
  }

  lemma CollidingRequestEnds(plan: Plan, factory: FactoryConfig, env: R.Environment, store: Store, q: Uuid)
    requires R.AttemptError(R.RequestAppointment(plan), factory, env) == Some(DUPLICATE_KEY) && env.meanwhile == store
    requires FindByKey(store, plan.command.key) == Some(q)
    ensures R.Stops(R.RequestAppointment(plan), factory, _ => env, 1)
    ensures R.RequestEnds(plan, factory, env, store, Database.Plain("no rows"), Ok(q), store, 0)
  {
    DuplicateIsPermanent();
    hide R.Judge, R.AttemptError, DUPLICATE_KEY, Database.IsUniqueViolation, Database.Retryable;
  }

  lemma CollidingCallEnds(
    cfg: Config, w: World, c: BookCommand, sorted: seq<Technician>,
    sid: nat, x: Uuid, a: Uuid, r: Uuid, t: nat, y: Uuid, b: Uuid, q: Uuid)
    requires Rivals(cfg, w, c, sorted, sid, x, a, r, t, y, b, q)
    ensures var we := CollisionWorld(cfg, w, c, sorted, sid, x, a, r, t, y, b, q);
            R.BookingEnds(cfg.Factory(), cfg.catalog, cfg.roster, c, CollidingInputs(w, sorted, x, a, r, we.store),
                          Ok(q), 1, we.store, 0)
  {
    assert Clear(cfg, w, sid, c, sorted, x, a, r) && !HasKey(w.store, c.key);
    Collides(cfg, w, c, sorted, sid, x, a, r, t, y, b, q);
    var we, plan := CollisionWorld(cfg, w, c, sorted, sid, x, a, r, t, y, b, q), PlanFor(cfg, c, sorted, x, w.clock);
    var env := CollidingEnvironment(w, a, r, we.store);
    DecidesToInsert(cfg, w, sid, c, sorted, x, a, r, env);
    NothingRefuses(cfg, w, sid, c, sorted, x, a, r, CollidingInputs(w, sorted, x, a, r, we.store));
    OnlyRivalsKey(cfg, w, c, sorted, y, b, q, we.store);
    PlanIsFor(cfg, c, sorted, x, w.clock);
    CollidingRequestEnds(plan, cfg.Factory(), env, we.store, q);
    hide Rivals, Clear, R.Judge, R.AttemptError, CollisionWorld, R.EarlyAnswer, CollidingEnvironment, ApplyWrite,
         R.Stops, R.RequestEnds, F.Others, HasKey, F.Reaches, StagedWorld, PickedWrite;
    StopsSame(R.RequestAppointment(plan), cfg.Factory(), _ => env, CollidingInputs(w, sorted, x, a, r, we.store).envs);
  }

  /** Stopping after one attempt depends on that attempt only. */
  lemma StopsSame(call: R.RepoCommand, factory: FactoryConfig, envs: nat -> R.Environment, envs': nat -> R.Environment)
    requires R.Stops(call, factory, envs, 1) && envs'(1) == envs(1)
    ensures R.Stops(call, factory, envs', 1)
  {
    hide R.Retries;
  }

  lemma OnlyRivalsKey(
    cfg: Config, w: World, c: BookCommand, sorted: seq<Technician>, y: Uuid, b: Uuid, q: Uuid, store: Store)
    requires Staffed(cfg, c, sorted) && !HasKey(w.store, c.key)
    requires store == ApplyWrite(w.store, PickedWrite(cfg, w.store, c, sorted, y, b, q, w.clock))
    ensures FindByKey(store, c.key) == Some(q) && (R.UniqueKeys(w.store) ==> R.UniqueKeys(store))
  {
    hide HasKey;
    forall p | p in store.reservations && store.reservations[p].key == c.key ensures p == q {
      if p != q { KeyIsUnused(w.store, p, c.key); }
    }
    assert store.reservations[q].key == c.key;
    assert HasKey(store, c.key) by { KeyIsUsed(store, q); }
  }

  lemma KeyIsUnused(store: Store, p: Uuid, key: string)
    requires p in store.reservations && !HasKey(store, key)
    ensures store.reservations[p].key != key
  {
  }

  lemma KeyIsUsed(store: Store, p: Uuid)
    requires p in store.reservations
    ensures HasKey(store, store.reservations[p].key)
  {
  }

  /** A rival books the key between the call's decision and its insert: the circumstances are
      those of a run, the call's transaction fails with the unique violation, and what it
      answers is the rival's reservation. */
  lemma CollidingCallReplays(
    cfg: Config, w: World, c: BookCommand, sorted: seq<Technician>,
    sid: nat, x: Uuid, a: Uuid, r: Uuid, t: nat, y: Uuid, b: Uuid, q: Uuid)
    returns (w': World)
    requires Reachable(cfg, w) && Rivals(cfg, w, c, sorted, sid, x, a, r, t, y, b, q)
    ensures var we := CollisionWorld(cfg, w, c, sorted, sid, x, a, r, t, y, b, q);
            IsCallOfRun(cfg, w, w', sid, c, CollidingInputs(w, sorted, x, a, r, we.store), Ok(q), 1, we.store, 0,
                        CollidingSchedule(t, c, sorted, y, b, q))
  {
    assert Clear(cfg, w, sid, c, sorted, x, a, r) && sid !in w.sessions;
    CollidingInputsAreOrderly(cfg, w, c, sorted, sid, x, a, r, t, y, b, q);
    CollidingCallMatchesRun(cfg, w, c, sorted, sid, x, a, r, t, y, b, q);
    CollidingCallEnds(cfg, w, c, sorted, sid, x, a, r, t, y, b, q);
    hide Reachable, Clear, Rivals, F.CallMatchesRun, R.BookingEnds, R.OrderlyInputs, CollidingInputs, IsCallOfRun,
         CollidingSchedule, CollisionWorld;
    var store := CollisionWorld(cfg, w, c, sorted, sid, x, a, r, t, y, b, q).store;
    w' := CallRuns(cfg, w, sid, c, CollidingInputs(w, sorted, x, a, r, store), Ok(q), 1, store, 0,
                   CollidingSchedule(t, c, sorted, y, b, q));
  }

  lemma CollidingInputsAreOrderly(
    cfg: Config, w: World, c: BookCommand, sorted: seq<Technician>,
    sid: nat, x: Uuid, a: Uuid, r: Uuid, t: nat, y: Uuid, b: Uuid, q: Uuid)
    requires Reachable(cfg, w) && Rivals(cfg, w, c, sorted, sid, x, a, r, t, y, b, q)
    ensures R.OrderlyInputs(cfg.catalog, cfg.roster, c,
              CollidingInputs(w, sorted, x, a, r, CollisionWorld(cfg, w, c, sorted, sid, x, a, r, t, y, b, q).store))
  {
    assert !HasKey(w.store, c.key) && Staffed(cfg, c, sorted);
    assert SortedByScore(sorted, ListedTechnicians(cfg.catalog, cfg.roster, c));
    F.SnapshotsAreOrderly(cfg, w);
    Collides(cfg, w, c, sorted, sid, x, a, r, t, y, b, q);
    QuietReads(w, a, r);
    hide Reachable, Rivals, QuietEnvironment, R.UniqueKeys, R.Identified, SortedByScore, ListedTechnicians, ApplyWrite,
         PickedWrite, CollisionWorld, Staffed, F.Others, RivalTrace, HasKey, StagedWorld;
    OnlyRivalsKey(cfg, w, c, sorted, y, b, q, CollisionWorld(cfg, w, c, sorted, sid, x, a, r, t, y, b, q).store);
  }
}
