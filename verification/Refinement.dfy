/** The imperative code is a part of the protocol's runs: whatever other sessions do in
    between, a call of Repository ends as some session of a reachable world does. */
module Refinement {
  import opened Wrappers
  import opened Domain
  import opened Tables
  import opened Booking
  import opened Protocol
  import opened Safety
  import opened Records
  import Commits
  import Database
  import Invariants
  import Preservation
  import R = Repository

  /** The repository call a session's command makes. */
  function CallOf(s: Session): R.RepoCommand
    requires s.command.Book? ==> s.plan.Some?
  {
    match s.command
    case Book(_) => R.RequestAppointment(s.plan.value)
    case ConfirmHold(user, r) => R.ConfirmAppointment(user, r)
    case CancelBooking(user, a) => R.CancelAppointment(user, a)
  }

  // ---- One decision ----

  /** No read fails before the closure decides. */
  predicate Reaches(call: R.RepoCommand, env: R.Environment) {
    env.beginError == None && env.firstReadError == None &&
    match call
    case RequestAppointment(plan) => HasKey(env.arrived, plan.command.key) || env.secondReadError == None
    case ConfirmAppointment(_, r) => r in env.arrived.reservations ==> env.secondReadError == None
    case CancelAppointment(_, _) => true
  }

  /** The attempt's env is what the run has for a session about to decide. */
  predicate ReadingMatchesRun(w: World, sid: nat, env: R.Environment) {
    sid in w.sessions && w.sessions[sid].phase.Reading? &&
    var s := w.sessions[sid];
    && env.began == s.phase.view.began && env.arrived == s.phase.view.snapshot && env.now == w.clock
    && (s.command.Book? ==>
          s.plan.Some? && env.appointment !in w.issued && env.reservation !in w.issued
          && env.appointment != env.reservation)
  }

  function DecideIn(sid: nat, env: R.Environment): Step {
    Decide(sid, env.appointment, env.reservation)
  }

  /** The domain's refusal of a closure that reads undisturbed, if it refuses. */
  ghost function RefusalOf(call: R.RepoCommand, factory: FactoryConfig, env: R.Environment): Option<Error> {
    if !Reaches(call, env) then None
    else
      match call
      case RequestAppointment(plan) =>
        (match DecideBooking(factory, plan, env.arrived, env.began, env.now, env.appointment, env.reservation)
         case Reject(e) => Some(e)
         case _ => None)
      case ConfirmAppointment(user, r) =>
        (match DecideConfirm(env.arrived, user, r, env.now) case Err(e) => Some(e) case Ok(_) => None)
      case CancelAppointment(user, a) =>
        (match DecideCancel(env.arrived, user, a, env.now) case Err(e) => Some(e) case Ok(_) => None)
  }

  /** A closure that reads undisturbed stages, captures or refuses what the Decide step does;
      then only a failing write can still keep it from ending well. */
  lemma AttemptIsDecide(cfg: Config, w: World, sid: nat, env: R.Environment)
    requires ReadingMatchesRun(w, sid, env) && Reaches(CallOf(w.sessions[sid]), env)
    ensures Enabled(cfg, w, DecideIn(sid, env))
    ensures var s, s' := w.sessions[sid], Apply(cfg, w, DecideIn(sid, env)).sessions[sid];
            var verdict := R.Judge(CallOf(s), cfg.Factory(), env);
            && s'.command == s.command && s'.plan == s.plan && s'.attempts == s.attempts
            && match RefusalOf(CallOf(s), cfg.Factory(), env)
               case Some(e) =>
                 s'.phase == Done(Refused(e)) && !e.ServiceTypeNotFound? && verdict == Err(Database.App(e))
               case None =>
                 s'.phase.Staged? && s'.captured.Some? &&
                 verdict == (if s'.phase.write.NoWrite? || env.writeError == None
                             then Ok(R.Verdict(s'.phase.write, s'.captured.value))
                             else Err(env.writeError.value))
  {
    hide FindByKey, CreateFn, Database.App;
    var s := w.sessions[sid];
    if s.command.Book? {
      var p, q := s.plan.value, s.plan.value.Query(env.began);
      CreateFnShape(cfg.Factory(), p, BusyTechnicians(env.arrived, q), BusyBays(env.arrived, q), env.now,
                    env.appointment, env.reservation);
    }
    assert Apply(cfg, w, DecideIn(sid, env)).sessions[sid] ==
           Decided(cfg, s, w.clock, env.appointment, env.reservation);
  }

  /** A read that fails ends the attempt with an error. */
  lemma FailedReadIsAnError(call: R.RepoCommand, factory: FactoryConfig, env: R.Environment)
    requires !Reaches(call, env)
    ensures R.AttemptError(call, factory, env).Some? && RefusalOf(call, factory, env) == None
  {
  }

  // ---- One run ----

  /** w' comes after w on some run. */
  ghost predicate Leads(cfg: Config, w: World, w': World) {
    exists trace :: Exec(cfg, w, trace) == Some(w')
  }

  lemma LeadsToItself(cfg: Config, w: World)
    ensures Leads(cfg, w, w)
  {
    assert Exec(cfg, w, []) == Some(w);
  }

  lemma {:induction false} ExecConcat(cfg: Config, w: World, t: seq<Step>, mid: World, u: seq<Step>)
    requires Exec(cfg, w, t) == Some(mid)
    ensures Exec(cfg, w, t + u) == Exec(cfg, mid, u)
  {
    hide Enabled, Apply;
    if u == [] {
      assert t + u == t;
    } else {
      var front := u[..|u| - 1];
      ExecConcat(cfg, w, t, mid, front);
      assert (t + u)[..|t + u| - 1] == t + front && (t + u)[|t + u| - 1] == u[|u| - 1];
    }
  }

  lemma LeadsOn(cfg: Config, w: World, mid: World, w': World)
    requires Leads(cfg, w, mid) && Leads(cfg, mid, w')
    ensures Leads(cfg, w, w')
  {
    hide Exec;
    var t :| Exec(cfg, w, t) == Some(mid);
    var u :| Exec(cfg, mid, u) == Some(w');
    ExecConcat(cfg, w, t, mid, u);
  }

  // ---- What others do in between ----

  predicate Foreign(trace: seq<Step>, sid: nat) {
    forall step | step in trace :: step.Tick? || step.sid != sid
  }

  /** A stretch of the run in which session sid does nothing. */
  ghost function Others(cfg: Config, w: World, trace: seq<Step>, sid: nat): Option<World> {
    if Foreign(trace, sid) then Exec(cfg, w, trace) else None
  }

  ghost function Take(cfg: Config, w: World, step: Step): World {
    if Enabled(cfg, w, step) then Apply(cfg, w, step) else w
  }

  lemma TakeIsReachable(cfg: Config, w: World, step: Step)
    requires Reachable(cfg, w)
    ensures Reachable(cfg, Take(cfg, w, step)) && Leads(cfg, w, Take(cfg, w, step))
  {
    hide Reachable, Enabled, Apply;
    if Enabled(cfg, w, step) {
      ReachableStep(cfg, w, step);
      assert [step][..0] == [] && Exec(cfg, w, []) == Some(w);
      assert Exec(cfg, w, [step]) == Some(Apply(cfg, w, step));
    } else {
      LeadsToItself(cfg, w);
    }
  }

  predicate SameSession(w: World, w': World, sid: nat) {
    (sid in w'.sessions <==> sid in w.sessions) && (sid in w.sessions ==> w'.sessions[sid] == w.sessions[sid])
  }

  lemma ForeignStep(cfg: Config, w: World, step: Step, sid: nat)
    requires Enabled(cfg, w, step) && (step.Tick? || step.sid != sid)
    ensures SameSession(w, Apply(cfg, w, step), sid)
  {
    hide Advance, CanPrepare, CanCommit, ApplyWrite;
  }

  lemma {:induction false} OthersKeep(cfg: Config, w: World, trace: seq<Step>, sid: nat, w': World)
    requires Reachable(cfg, w) && Others(cfg, w, trace, sid) == Some(w')
    ensures Reachable(cfg, w') && SameSession(w, w', sid) && Leads(cfg, w, w')
  {
    hide Reachable, Enabled, Apply;
    if trace != [] {
      var front, last := trace[..|trace| - 1], trace[|trace| - 1];
      var mid := Exec(cfg, w, front).value;
      OthersKeep(cfg, w, front, sid, mid);
      ForeignStep(cfg, mid, last, sid);
      ReachableStep(cfg, mid, last);
    }
  }

  /** A stretch by others, then a step of the session. */
  lemma OthersThenTake(cfg: Config, w: World, trace: seq<Step>, sid: nat, w': World, step: Step)
    requires Reachable(cfg, w) && Others(cfg, w, trace, sid) == Some(w')
    ensures Reachable(cfg, w') && SameSession(w, w', sid)
    ensures Reachable(cfg, Take(cfg, w', step)) && Leads(cfg, w, Take(cfg, w', step))
  {
    hide Reachable, Leads, Others, Take, SameSession;
    OthersKeep(cfg, w, trace, sid, w');
    TakeIsReachable(cfg, w', step);
    LeadsOn(cfg, w, w', Take(cfg, w', step));
  }

  // ---- One attempt ----

  datatype Attempt = Attempt(toBegin: seq<Step>, toSnapshot: seq<Step>, toDecide: seq<Step>, toEnd: seq<Step>)

  predicate Waiting(w: World, sid: nat) {
    && InPhase(w, sid, Ready) && w.sessions[sid].attempts < Database.MAX_TRIES
    && (w.sessions[sid].command.Book? ==> w.sessions[sid].plan.Some?)
  }

  /** From before BEGIN to the instant of the decision. */
  ghost function Opening(cfg: Config, w: World, sid: nat, t: Attempt): Option<World> {
    match Others(cfg, w, t.toBegin, sid)
    case None => None
    case Some(wb) =>
      match Others(cfg, Take(cfg, wb, Begin(sid)), t.toSnapshot, sid)
      case None => None
      case Some(ws) => Others(cfg, Take(cfg, ws, Snapshot(sid)), t.toDecide, sid)
  }

  lemma OpeningReads(cfg: Config, w: World, sid: nat, t: Attempt, wd: World)
    requires Reachable(cfg, w) && Waiting(w, sid) && Opening(cfg, w, sid, t) == Some(wd)
    ensures Reachable(cfg, wd) && Leads(cfg, w, wd) && sid in wd.sessions && wd.sessions[sid].phase.Reading?
    ensures wd.sessions[sid] ==
            w.sessions[sid].(phase := wd.sessions[sid].phase, attempts := w.sessions[sid].attempts + 1)
  {
    hide Reachable, Exec, Foreign, Others, Leads;
    var wb := Others(cfg, w, t.toBegin, sid).value;
    OthersThenTake(cfg, w, t.toBegin, sid, wb, Begin(sid));
    var w1 := Take(cfg, wb, Begin(sid));
    var ws := Others(cfg, w1, t.toSnapshot, sid).value;
    OthersThenTake(cfg, w1, t.toSnapshot, sid, ws, Snapshot(sid));
    var w2 := Take(cfg, ws, Snapshot(sid));
    OthersKeep(cfg, w2, t.toDecide, sid, wd);
    LeadsOn(cfg, w, w1, w2);
    LeadsOn(cfg, w, w2, wd);
  }

  /** An attempt that fails and is made again: for the run it aborts. */
  ghost function Retried(cfg: Config, w: World, sid: nat, t: Attempt): Option<World> {
    match Opening(cfg, w, sid, t)
    case None => None
    case Some(wd) =>
      match Others(cfg, wd, t.toEnd, sid)
      case None => None
      case Some(we) => Some(Take(cfg, we, Abort(sid)))
  }

  ghost function RetriedAll(cfg: Config, w: World, sid: nat, ts: seq<Attempt>): Option<World> {
    if ts == [] then Some(w)
    else
      match RetriedAll(cfg, w, sid, ts[..|ts| - 1])
      case None => None
      case Some(w') => Retried(cfg, w', sid, ts[|ts| - 1])
  }

  lemma RetriedWaits(cfg: Config, w: World, sid: nat, t: Attempt, w': World)
    requires Reachable(cfg, w) && Waiting(w, sid) && Retried(cfg, w, sid, t) == Some(w')
    requires w.sessions[sid].attempts + 1 < Database.MAX_TRIES
    ensures Reachable(cfg, w') && Leads(cfg, w, w') && Waiting(w', sid)
    ensures w'.sessions[sid] == w.sessions[sid].(attempts := w.sessions[sid].attempts + 1)
  {
    hide Reachable, Exec, Foreign, Others, Opening, Leads;
    var wd := Opening(cfg, w, sid, t).value;
    OpeningReads(cfg, w, sid, t, wd);
    var we := Others(cfg, wd, t.toEnd, sid).value;
    OthersThenTake(cfg, wd, t.toEnd, sid, we, Abort(sid));
    LeadsOn(cfg, w, wd, w');
  }

  lemma {:induction false} AllRetriedWait(cfg: Config, w: World, sid: nat, ts: seq<Attempt>, w': World)
    requires Reachable(cfg, w) && Waiting(w, sid) && RetriedAll(cfg, w, sid, ts) == Some(w')
    requires w.sessions[sid].attempts + |ts| < Database.MAX_TRIES
    ensures Reachable(cfg, w') && Leads(cfg, w, w') && Waiting(w', sid)
    ensures w'.sessions[sid] == w.sessions[sid].(attempts := w.sessions[sid].attempts + |ts|)
  {
    hide Reachable, Retried, Leads;
    if ts == [] {
      LeadsToItself(cfg, w);
    } else {
      var front := ts[..|ts| - 1];
      var mid := RetriedAll(cfg, w, sid, front).value;
      AllRetriedWait(cfg, w, sid, front, mid);
      RetriedWaits(cfg, mid, sid, ts[|ts| - 1], w');
      LeadsOn(cfg, w, mid, w');
    }
  }

  // ---- One call ----

  /** How the run interleaves with one call: its attempts, and up to the backstop's lookup. */
  datatype Schedule = Schedule(retried: seq<Attempt>, last: Attempt, toLookup: seq<Step>)

  /** The world in which the last attempt decides. */
  ghost function AtDecision(cfg: Config, w: World, sid: nat, schedule: Schedule): Option<World> {
    match RetriedAll(cfg, w, sid, schedule.retried)
    case None => None
    case Some(wr) => Opening(cfg, wr, sid, schedule.last)
  }

  ghost function AfterDecision(cfg: Config, wd: World, sid: nat, env: R.Environment): World
    requires ReadingMatchesRun(wd, sid, env)
  {
    if Reaches(CallOf(wd.sessions[sid]), env) then Take(cfg, wd, DecideIn(sid, env)) else wd
  }

  predicate KeyTaken(s: Session, err: Option<Database.GoError>) {
    s.command.Book? && Database.IsUniqueViolation(err, Database.UNIQUE_KEY_CONSTRAINT)
  }

  /** The step that ends the last attempt, which failed with err or commits. */
  ghost function Ending(cfg: Config, we: World, sid: nat, err: Option<Database.GoError>): World
    requires sid in we.sessions
  {
    var s := we.sessions[sid];
    if err == None then Take(cfg, we, Commit(sid))
    else if KeyTaken(s, err) then Take(cfg, we, Violate(sid))
    else if s.phase.Done? then we
    else if Database.Retryable(err.value) && s.attempts == Database.MAX_TRIES then Take(cfg, we, Abort(sid))
    else Take(cfg, we, Fail(sid))
  }

  /** The database keeps its three guarantees, and the table is what others left at the end. */
  predicate DatabaseGuarantees(we: World, sid: nat, err: Option<Database.GoError>, env: R.Environment)
    requires sid in we.sessions
  {
    && env.meanwhile == we.store
    && (err == None && IsStaged(we, sid) ==> CanCommit(we, we.sessions[sid]))
    && (KeyTaken(we.sessions[sid], err) ==>
          IsStaged(we, sid) && we.sessions[sid].phase.write.Insert?
              && HasKey(we.store, we.sessions[sid].phase.write.hold.key))
  }

  /** The call's last env is that of the run under this schedule. */
  ghost predicate LastAttemptMatchesRun(
    cfg: Config, w: World, sid: nat, envs: nat -> R.Environment, tries: nat, schedule: Schedule)
  {
    tries == |schedule.retried| + 1 &&
    match AtDecision(cfg, w, sid, schedule)
    case None => false
    case Some(wd) =>
      ReadingMatchesRun(wd, sid, envs(tries)) &&
      match Others(cfg, AfterDecision(cfg, wd, sid, envs(tries)), schedule.last.toEnd, sid)
      case None => false
      case Some(we) =>
        sid in we.sessions &&
        DatabaseGuarantees(we, sid, R.AttemptError(CallOf(wd.sessions[sid]), cfg.Factory(), envs(tries)), envs(tries))
  }

  ghost function AtEnd(
    cfg: Config, w: World, sid: nat, envs: nat -> R.Environment, tries: nat, schedule: Schedule): (we: World)
    requires LastAttemptMatchesRun(cfg, w, sid, envs, tries, schedule)
    ensures sid in we.sessions
  {
    Others(cfg, AfterDecision(cfg, AtDecision(cfg, w, sid, schedule).value, sid, envs(tries)), schedule.last.toEnd,
        sid).value
  }

  // ---- How a call ends is how its session ends ----

  /** How a call's session must end, if its last attempt was number `tries` and no unique
      violation of the key: as the domain refuses, exhausted, or broken by something else. */
  ghost function TransactionOutcome(
    call: R.RepoCommand, factory: FactoryConfig, env: R.Environment, tries: nat): Outcome
  {
    match R.AttemptError(call, factory, env)
    case None =>
      (match R.Judge(call, factory, env) case Ok(verdict) => Succeeded(verdict.captured) case Err(_) => Broken)
    case Some(err) =>
      match RefusalOf(call, factory, env)
      case Some(e) => Refused(e)
      case None => if Database.Retryable(err) && tries == Database.MAX_TRIES then Exhausted else Broken
  }

  /** err is the domain's refusal e, or that joined with a failed rollback. */
  predicate Tells(err: Database.GoError, e: Error) {
    (err.AppError? && err.error == e) || (err.Joined? && err.first.AppError? && err.first.error == e)
  }

  /** The outcome of a session is the answer that the code gives. */
  predicate Answers(outcome: Outcome, r: Result<Uuid, Database.GoError>) {
    match outcome
    case Succeeded(id) => r == Ok(id)
    case Refused(e) => r.Err? && Tells(r.error, e)
    case Exhausted => r.Err? && Database.Retryable(r.error)
    case Broken => r.Err?
  }

  /** The session after its decision, if it came to one. */
  ghost predicate Decides(cfg: Config, s: Session, call: R.RepoCommand, env: R.Environment) {
    var err := R.AttemptError(call, cfg.Factory(), env);
    match RefusalOf(call, cfg.Factory(), env)
    case Some(e) => s.phase == Done(Refused(e)) && err.Some? && Tells(err.value, e)
    case None =>
      if s.phase.Staged? then
        s.captured.Some? &&
        (err == None ==> R.Judge(call, cfg.Factory(), env) == Ok(R.Verdict(s.phase.write, s.captured.value)))
      else s.phase.Reading? && err.Some?
  }

  lemma DecisionIsMade(cfg: Config, wd: World, sid: nat, env: R.Environment)
    requires Reachable(cfg, wd) && ReadingMatchesRun(wd, sid, env)
    ensures var s, w := wd.sessions[sid], AfterDecision(cfg, wd, sid, env);
            && Reachable(cfg, w) && Leads(cfg, wd, w)
            && sid in w.sessions && Decides(cfg, w.sessions[sid], CallOf(s), env)
            && w.sessions[sid].command == s.command && w.sessions[sid].plan == s.plan
            && w.sessions[sid].attempts == s.attempts
  {
    hide Reachable, R.Judge, Decided, Issued, Leads, RefusalOf, Reaches;
    var s := wd.sessions[sid];
    if Reaches(CallOf(s), env) {
      AttemptIsDecide(cfg, wd, sid, env);
      TakeIsReachable(cfg, wd, DecideIn(sid, env));
      UndisturbedBegin(CallOf(s), env);
    } else {
      FailedReadIsAnError(CallOf(s), cfg.Factory(), env);
      LeadsToItself(cfg, wd);
    }
  }

  lemma UndisturbedBegin(call: R.RepoCommand, env: R.Environment)
    requires Reaches(call, env)
    ensures env.beginError == None
  {
  }

  /** The world after a call's transaction, as the code left it. */
  ghost predicate Left(
    cfg: Config, w: World, sid: nat, call: R.RepoCommand, env: R.Environment, tries: nat)
  {
    var err := R.AttemptError(call, cfg.Factory(), env);
    sid in w.sessions &&
    var s := w.sessions[sid];
    if err == None then
      R.Judge(call, cfg.Factory(), env).Ok? &&
      var verdict := R.Judge(call, cfg.Factory(), env).value;
      s.phase == Done(Succeeded(verdict.captured)) && w.store == ApplyWrite(env.meanwhile, verdict.write)
    else
      && w.store == env.meanwhile
      && if KeyTaken(s, err) then s.phase == Backstop
         else
           var outcome := TransactionOutcome(call, cfg.Factory(), env, tries);
           s.phase == Done(outcome) && !outcome.Succeeded? && Answers(outcome, Err(err.value))
  }

  lemma CommitIsTaken(cfg: Config, we: World, sid: nat, call: R.RepoCommand, env: R.Environment, tries: nat)
    requires sid in we.sessions && Decides(cfg, we.sessions[sid], call, env)
    requires R.AttemptError(call, cfg.Factory(), env) == None && DatabaseGuarantees(we, sid, None, env)
    ensures var w := Take(cfg, we, Commit(sid));
            Left(cfg, w, sid, call, env, tries) && w.sessions[sid].command == we.sessions[sid].command
  {
    hide R.Judge, R.AttemptError, CanCommit, ApplyWrite, Answers, KeyTaken, RefusalOf, TransactionOutcome;
  }

  lemma ViolationIsTaken(cfg: Config, we: World, sid: nat, call: R.RepoCommand, env: R.Environment, tries: nat)
    requires var err := R.AttemptError(call, cfg.Factory(), env);
             sid in we.sessions && KeyTaken(we.sessions[sid], err) && err.Some? && DatabaseGuarantees(we, sid, err, env)
    ensures var w := Take(cfg, we, Violate(sid));
            Left(cfg, w, sid, call, env, tries) && w.sessions[sid].command == we.sessions[sid].command
  {
    hide R.Judge, R.AttemptError, CanCommit, HasKey, Database.IsUniqueViolation, TransactionOutcome;
    assert HasKey(we.store, we.sessions[sid].phase.write.hold.key);
  }

  lemma FailureIsTaken(cfg: Config, we: World, sid: nat, call: R.RepoCommand, env: R.Environment)
    requires sid in we.sessions && Decides(cfg, we.sessions[sid], call, env)
    requires var err := R.AttemptError(call, cfg.Factory(), env);
             err.Some? && DatabaseGuarantees(we, sid, err, env) && !KeyTaken(we.sessions[sid], err)
    ensures var w := Ending(cfg, we, sid, R.AttemptError(call, cfg.Factory(), env));
            && Left(cfg, w, sid, call, env, we.sessions[sid].attempts)
            && w.sessions[sid].command == we.sessions[sid].command
  {
    hide R.Judge, R.AttemptError, CanCommit, Committed, ApplyWrite, HasKey, Database.Retryable,
         Database.IsUniqueViolation, RefusalOf;
  }

  lemma EndIsTaken(cfg: Config, we: World, sid: nat, call: R.RepoCommand, env: R.Environment)
    requires Reachable(cfg, we) && sid in we.sessions && Decides(cfg, we.sessions[sid], call, env)
    requires DatabaseGuarantees(we, sid, R.AttemptError(call, cfg.Factory(), env), env)
    ensures var w := Ending(cfg, we, sid, R.AttemptError(call, cfg.Factory(), env));
            && Reachable(cfg, w) && Leads(cfg, we, w)
            && Left(cfg, w, sid, call, env, we.sessions[sid].attempts)
            && w.sessions[sid].command == we.sessions[sid].command
  {
    hide Reachable, R.AttemptError, Decides, DatabaseGuarantees, Take, Left, Database.Retryable, KeyTaken, Leads;
    TakeIsReachable(cfg, we, Commit(sid));
    TakeIsReachable(cfg, we, Violate(sid));
    TakeIsReachable(cfg, we, Abort(sid));
    TakeIsReachable(cfg, we, Fail(sid));
    LeadsToItself(cfg, we);
    if R.AttemptError(call, cfg.Factory(), env) == None {
      CommitIsTaken(cfg, we, sid, call, env, we.sessions[sid].attempts);
    } else if KeyTaken(we.sessions[sid], R.AttemptError(call, cfg.Factory(), env)) {
      ViolationIsTaken(cfg, we, sid, call, env, we.sessions[sid].attempts);
    } else {
      FailureIsTaken(cfg, we, sid, call, env);
    }
  }

  /** A transaction of the code, with its retries, is one of the run. */
  lemma TransactionIsRun(
    cfg: Config, w: World, sid: nat, envs: nat -> R.Environment, tries: nat, schedule: Schedule)
    requires Reachable(cfg, w) && Waiting(w, sid) && w.sessions[sid].attempts == 0
    requires R.Stops(CallOf(w.sessions[sid]), cfg.Factory(), envs, tries)
    requires LastAttemptMatchesRun(cfg, w, sid, envs, tries, schedule)
    ensures var call := CallOf(w.sessions[sid]);
            var err := R.AttemptError(call, cfg.Factory(), envs(tries));
            var w' := Ending(cfg, AtEnd(cfg, w, sid, envs, tries, schedule), sid, err);
            && Reachable(cfg, w') && Leads(cfg, w, w') && Left(cfg, w', sid, call, envs(tries), tries)
            && w'.sessions[sid].command == w.sessions[sid].command
  {
    hide Reachable, R.Judge, R.AttemptError, Opening, Others, Exec, AfterDecision, Decides, DatabaseGuarantees, Ending,
         Left, R.Retries, Leads;
    var wr := RetriedAll(cfg, w, sid, schedule.retried).value;
    AllRetriedWait(cfg, w, sid, schedule.retried, wr);
    var wd := AtDecision(cfg, w, sid, schedule).value;
    OpeningReads(cfg, wr, sid, schedule.last, wd);
    DecisionIsMade(cfg, wd, sid, envs(tries));
    var w3 := AfterDecision(cfg, wd, sid, envs(tries));
    var we := AtEnd(cfg, w, sid, envs, tries, schedule);
    OthersKeep(cfg, w3, schedule.last.toEnd, sid, we);
    EndIsTaken(cfg, we, sid, CallOf(wd.sessions[sid]), envs(tries));
    LeadsOn(cfg, w, wr, wd);
    LeadsOn(cfg, w, wd, w3);
    LeadsOn(cfg, w, w3, we);
    LeadsOn(cfg, w, we, Ending(cfg, we, sid, R.AttemptError(CallOf(w.sessions[sid]), cfg.Factory(), envs(tries))));
  }

  /** What the backstop reads is what the run has when the session looks. */
  ghost predicate LookupMatchesRun(cfg: Config, w: World, sid: nat, schedule: Schedule, afterwards: Store) {
    match Others(cfg, w, schedule.toLookup, sid)
    case None => false
    case Some(wl) => afterwards == wl.store
  }

  lemma PlanIsOfCommand(cfg: Config, w: World, sid: nat)
    requires Reachable(cfg, w) && sid in w.sessions && w.sessions[sid].plan.Some?
    ensures w.sessions[sid].command == Book(w.sessions[sid].plan.value.command)
  {
    hide Reachable, Invariants.Inv, Invariants.PhaseOk, BuilderErrors, ListedTechnicians, ListedBays;
    Commits.ReachableOk(cfg, w);
    Commits.SessionAt(cfg, w, sid);
  }

  /** How a request's session must end: the key's row after a unique violation, else as its
      transaction does. */
  ghost function RequestOutcome(
    plan: Plan, factory: FactoryConfig, env: R.Environment, tries: nat, afterwards: Store): Outcome
  {
    var call := R.RequestAppointment(plan);
    if Database.IsUniqueViolation(R.AttemptError(call, factory, env), Database.UNIQUE_KEY_CONSTRAINT) then
      match FindByKey(afterwards, plan.command.key)
      case Some(found) => Succeeded(found)
      case None => Broken
    else TransactionOutcome(call, factory, env, tries)
  }

  /** AppointmentRepository.RequestAppointment, retries and backstop included, is a stretch of a
      session's run, on the very run its environments come from: same answer, same rows, and the
      outcome that the refusals, the retries and the backstop determine. The backstop's own
      failure cannot happen. */
  lemma RequestIsRun(
    cfg: Config, w: World, sid: nat, envs: nat -> R.Environment, tries: nat, schedule: Schedule, afterwards: Store,
    backstopError: Database.GoError, r: Result<Uuid, Database.GoError>, committed: Store, commits: int)
    returns (w': World)
    requires Reachable(cfg, w) && Waiting(w, sid) && w.sessions[sid].attempts == 0 && w.sessions[sid].command.Book?
    requires R.Stops(CallOf(w.sessions[sid]), cfg.Factory(), envs, tries)
    requires LastAttemptMatchesRun(cfg, w, sid, envs, tries, schedule)
    requires R.RequestEnds(w.sessions[sid].plan.value, cfg.Factory(), envs(tries), afterwards, backstopError, r,
                           committed, commits)
    requires var err := R.AttemptError(CallOf(w.sessions[sid]), cfg.Factory(), envs(tries));
             KeyTaken(w.sessions[sid], err) ==>
               LookupMatchesRun(cfg, Ending(cfg, AtEnd(cfg, w, sid, envs, tries, schedule), sid, err), sid, schedule,
                                afterwards)
    ensures Reachable(cfg, w') && Leads(cfg, w, w') && sid in w'.sessions
    ensures w'.sessions[sid].command == w.sessions[sid].command
    ensures var outcome := RequestOutcome(w.sessions[sid].plan.value, cfg.Factory(), envs(tries), tries, afterwards);
            w'.sessions[sid].phase == Done(outcome) && Answers(outcome, r)
    ensures commits == 1 ==> committed == w'.store
  {
    hide Reachable, R.Judge, R.AttemptError, Others, Exec, LastAttemptMatchesRun, AtEnd, Ending, R.Stops, ApplyWrite,
         Database.Retryable, Database.IsUniqueViolation, Leads, RefusalOf;
    var call := CallOf(w.sessions[sid]);
    var err := R.AttemptError(call, cfg.Factory(), envs(tries));
    PlanIsOfCommand(cfg, w, sid);
    NoErrorNoViolation(err);
    TransactionIsRun(cfg, w, sid, envs, tries, schedule);
    var w1 := Ending(cfg, AtEnd(cfg, w, sid, envs, tries, schedule), sid, err);
    if KeyTaken(w.sessions[sid], err) {
      var wl := Others(cfg, w1, schedule.toLookup, sid).value;
      OthersThenTake(cfg, w1, schedule.toLookup, sid, wl, Recover(sid));
      BackstopFinds(cfg, wl, sid);
      w' := Take(cfg, wl, Recover(sid));
      LeadsOn(cfg, w, w1, w');
    } else {
      w' := w1;
    }
  }

  lemma NoErrorNoViolation(err: Option<Database.GoError>)
    ensures err == None ==> !Database.IsUniqueViolation(err, Database.UNIQUE_KEY_CONSTRAINT)
  {
  }

  /** ConfirmAppointment and CancelAppointment likewise. */
  lemma StatusChangeIsRun(
    cfg: Config, w: World, sid: nat, envs: nat -> R.Environment, tries: nat, schedule: Schedule,
    r: Result<Uuid, Database.GoError>, committed: Store, commits: int)
    returns (w': World)
    requires Reachable(cfg, w) && Waiting(w, sid) && w.sessions[sid].attempts == 0 && !w.sessions[sid].command.Book?
    requires R.Stops(CallOf(w.sessions[sid]), cfg.Factory(), envs, tries)
    requires LastAttemptMatchesRun(cfg, w, sid, envs, tries, schedule)
    requires R.StatusEnds(CallOf(w.sessions[sid]), cfg.Factory(), envs(tries), r, committed, commits)
    ensures Reachable(cfg, w') && Leads(cfg, w, w') && sid in w'.sessions
    ensures w'.sessions[sid].command == w.sessions[sid].command
    ensures var outcome := TransactionOutcome(CallOf(w.sessions[sid]), cfg.Factory(), envs(tries), tries);
            w'.sessions[sid].phase == Done(outcome) && Answers(outcome, r)
    ensures committed == w'.store
  {
    hide Reachable, R.Judge, R.AttemptError, Others, Exec, LastAttemptMatchesRun, AtEnd, Ending, R.Stops, ApplyWrite,
         Database.Retryable, Leads, RefusalOf;
    var err := R.AttemptError(CallOf(w.sessions[sid]), cfg.Factory(), envs(tries));
    TransactionIsRun(cfg, w, sid, envs, tries, schedule);
    w' := Ending(cfg, AtEnd(cfg, w, sid, envs, tries, schedule), sid, err);
  }

  // ---- The whole booking ----

  /** How the run interleaves with a call of RequestBooking. */
  datatype CallSchedule = CallSchedule(toValidate: seq<Step>, toFastPath: seq<Step>, toPrepare: seq<Step>,
      schedule: Schedule)

  /** Something outside the domain stops the call between its fast path and the repository. */
  predicate Interrupted(cfg: Config, c: BookCommand, inputs: R.CallInputs) {
    inputs.vehicleError.Some? ||
    (BuilderErrors(cfg.Factory(), c.Data(0), inputs.second) == [] &&
     (inputs.catalogError.Some? || (c.serviceType in cfg.catalog && inputs.workforceError.Some?)))
  }

  /** The call's circumstances are those of the run, from its preparation on. */
  ghost predicate PrepareMatchesRun(
    cfg: Config, w: World, sid: nat, c: BookCommand, inputs: R.CallInputs, tries: nat, callSchedule: CallSchedule)
  {
    match Others(cfg, w, callSchedule.toPrepare, sid)
    case None => false
    case Some(wp) =>
      inputs.second == wp.clock && inputs.vehicle !in wp.issued &&
      (!Interrupted(cfg, c, inputs) ==>
         var w' := Take(cfg, wp, Prepare(sid, inputs.vehicle, inputs.sorted));
         Waiting(w', sid) ==> RequestMatchesRun(cfg, w', sid, inputs, tries, callSchedule.schedule))
  }

  /** And through the repository. */
  ghost predicate RequestMatchesRun(
    cfg: Config, w: World, sid: nat, inputs: R.CallInputs, tries: nat, schedule: Schedule)
    requires Waiting(w, sid)
  {
    LastAttemptMatchesRun(cfg, w, sid, inputs.envs, tries, schedule) &&
    var err := R.AttemptError(CallOf(w.sessions[sid]), cfg.Factory(), inputs.envs(tries));
    KeyTaken(w.sessions[sid], err) ==>
      LookupMatchesRun(cfg, Ending(cfg, AtEnd(cfg, w, sid, inputs.envs, tries, schedule), sid, err), sid, schedule,
          inputs.afterwards)
  }

  /** From its fast path on. */
  ghost predicate FastPathMatchesRun(
    cfg: Config, w: World, sid: nat, c: BookCommand, inputs: R.CallInputs, tries: nat, callSchedule: CallSchedule)
  {
    match Others(cfg, w, callSchedule.toFastPath, sid)
    case None => false
    case Some(wf) =>
      inputs.fast == wf.store &&
      (inputs.lookupError == None && !HasKey(wf.store, c.key) ==>
         PrepareMatchesRun(cfg, Take(cfg, wf, FastPath(sid)), sid, c, inputs, tries, callSchedule))
  }

  /** From the start: the call is made in w. */
  ghost predicate CallMatchesRun(
    cfg: Config, w: World, sid: nat, c: BookCommand, inputs: R.CallInputs, tries: nat, callSchedule: CallSchedule)
  {
    match Others(cfg, Take(cfg, w, Call(sid, Book(c))), callSchedule.toValidate, sid)
    case None => false
    case Some(wv) =>
      inputs.first == wv.clock &&
      (StartTimeErrorDetail(cfg.Factory(), c.start, wv.clock) == None ==>
         FastPathMatchesRun(cfg, Take(cfg, wv, Validate(sid)), sid, c, inputs, tries, callSchedule))
  }

  /** Undisturbed from outside, the code's checks are the protocol's, in the same order. */
  lemma RefusalIsPrepareError(cfg: Config, c: BookCommand, inputs: R.CallInputs)
    ensures var refusal := R.Refusal(cfg.Factory(), cfg.catalog, cfg.roster, c, inputs);
            if Interrupted(cfg, c, inputs) then refusal.Some?
            else
              match PrepareError(cfg.Factory(), cfg.catalog, cfg.roster, c, inputs.second)
              case None => refusal == None
              case Some(e) => refusal.Some? && Tells(refusal.value, e)
  {
    hide StartTimeErrorDetail, ListedTechnicians, ListedBays;
    R.ErrorsIgnoreVehicle(cfg.Factory(), c, inputs.vehicle, inputs.second);
  }

  /** A session that has run up to some point of its booking. */
  predicate Underway(cfg: Config, w: World, sid: nat, c: BookCommand, phase: Phase) {
    sid in w.sessions && w.sessions[sid] == Session(Book(c), phase, None, 0, None)
  }

  /** How a booking's session must end, given what the call meets. */
  ghost function BookingOutcome(cfg: Config, c: BookCommand, inputs: R.CallInputs, tries: nat): Outcome {
    var late := StartTimeErrorDetail(cfg.Factory(), c.start, inputs.first);
    if late.Some? then Refused(InvalidAppointment([late.value]))
    else if inputs.lookupError.Some? then Broken
    else
      match FindByKey(inputs.fast, c.key)
      case Some(found) => Succeeded(found)
      case None => OutcomeFromPrepare(cfg, c, inputs, tries)
  }

  ghost function OutcomeFromPrepare(cfg: Config, c: BookCommand, inputs: R.CallInputs, tries: nat): Outcome {
    if Interrupted(cfg, c, inputs) then Broken
    else
      match PrepareError(cfg.Factory(), cfg.catalog, cfg.roster, c, inputs.second)
      case Some(e) => Refused(e)
      case None =>
        if c.serviceType !in cfg.catalog then Refused(ServiceTypeNotFound(c.serviceType))
        else
          var plan := PlanOf(cfg.catalog, cfg.roster, c, inputs.vehicle, inputs.sorted, inputs.second);
          RequestOutcome(plan, cfg.Factory(), inputs.envs(tries), tries, inputs.afterwards)
  }

  /** A world on the run after w whose session sid has booked c, ended so, and answered r. */
  ghost predicate AnsweredBooking(
    cfg: Config, w: World, w': World, sid: nat, c: BookCommand, outcome: Outcome, r: Result<Uuid, Database.GoError>)
  {
    && Reachable(cfg, w') && Leads(cfg, w, w') && sid in w'.sessions && w'.sessions[sid].command == Book(c)
    && w'.sessions[sid].phase == Done(outcome) && Answers(outcome, r)
  }

  lemma AnsweredEarlier(
    cfg: Config, w: World, mid: World, w': World, sid: nat, c: BookCommand, outcome: Outcome,
    r: Result<Uuid, Database.GoError>)
    requires Leads(cfg, w, mid) && AnsweredBooking(cfg, mid, w', sid, c, outcome, r)
    ensures AnsweredBooking(cfg, w, w', sid, c, outcome, r)
  {
    hide Reachable, Leads;
    LeadsOn(cfg, w, mid, w');
  }

  lemma FromPrepare(
    cfg: Config, w: World, sid: nat, c: BookCommand, inputs: R.CallInputs, r: Result<Uuid, Database.GoError>,
    tries: nat, committed: Store, commits: int, callSchedule: CallSchedule)
    returns (w': World)
    requires Reachable(cfg, w) && Underway(cfg, w, sid, c, Missed)
    requires PrepareMatchesRun(cfg, w, sid, c, inputs, tries, callSchedule)
    requires R.OrderlyInputs(cfg.catalog, cfg.roster, c, inputs)
    requires R.BookingEnds(cfg.Factory(), cfg.catalog, cfg.roster, c, inputs, r, tries, committed, commits)
    requires R.EarlyAnswer(cfg.Factory(), cfg.catalog, cfg.roster, c, inputs) ==
             match R.Refusal(cfg.Factory(), cfg.catalog, cfg.roster, c, inputs)
             case Some(e) => Some(Err(e))
             case None => None
    ensures AnsweredBooking(cfg, w, w', sid, c, OutcomeFromPrepare(cfg, c, inputs, tries), r)
    ensures commits == 1 ==> committed == w'.store
  {
    hide Reachable, Exec, R.Refusal, R.EarlyAnswer, R.Stops, R.RequestEnds, R.AttemptError, PrepareError, Leads,
         SortedByScore, ListedTechnicians, ListedBays, LastAttemptMatchesRun, AtEnd, Ending, Interrupted, R.UniqueKeys,
         R.Identified, RequestOutcome;
    RefusalIsPrepareError(cfg, c, inputs);
    var wp := Others(cfg, w, callSchedule.toPrepare, sid).value;
    var step := if Interrupted(cfg, c, inputs) then Fail(sid) else Prepare(sid, inputs.vehicle, inputs.sorted);
    OthersThenTake(cfg, w, callSchedule.toPrepare, sid, wp, step);
    w' := Take(cfg, wp, step);
    if !Interrupted(cfg, c, inputs) {
      PrepareIsPossible(cfg, wp, sid, c, inputs);
      if PrepareError(cfg.Factory(), cfg.catalog, cfg.roster, c, wp.clock) == None {
        var mid := w';
        w' := RequestIsRun(cfg, mid, sid, inputs.envs, tries, callSchedule.schedule, inputs.afterwards,
                           inputs.backstopError, r, committed, commits);
        LeadsOn(cfg, w, mid, w');
      }
    }
  }

  lemma PrepareIsPossible(cfg: Config, w: World, sid: nat, c: BookCommand, inputs: R.CallInputs)
    requires Underway(cfg, w, sid, c, Missed) && R.OrderlyInputs(cfg.catalog, cfg.roster, c, inputs)
             && inputs.vehicle !in w.issued
    ensures Enabled(cfg, w, Prepare(sid, inputs.vehicle, inputs.sorted))
  {
    hide BuilderErrors, ListedTechnicians, ListedBays, SortedByScore, R.UniqueKeys, R.Identified;
  }

  lemma FromFastPath(
    cfg: Config, w: World, sid: nat, c: BookCommand, inputs: R.CallInputs, r: Result<Uuid, Database.GoError>,
    tries: nat, committed: Store, commits: int, callSchedule: CallSchedule)
    returns (w': World)
    requires Reachable(cfg, w) && Underway(cfg, w, sid, c, Validated)
    requires FastPathMatchesRun(cfg, w, sid, c, inputs, tries, callSchedule)
    requires R.OrderlyInputs(cfg.catalog, cfg.roster, c, inputs)
    requires R.BookingEnds(cfg.Factory(), cfg.catalog, cfg.roster, c, inputs, r, tries, committed, commits)
    requires StartTimeErrorDetail(cfg.Factory(), c.start, inputs.first) == None
    ensures AnsweredBooking(cfg, w, w', sid, c, BookingOutcome(cfg, c, inputs, tries), r)
    ensures commits == 1 ==> committed == w'.store
  {
    hide Reachable, Exec, R.Refusal, R.Stops, R.RequestEnds, StartTimeErrorDetail, PrepareMatchesRun, Others,
         R.OrderlyInputs, Leads, OutcomeFromPrepare, PrepareError;
    var wf := Others(cfg, w, callSchedule.toFastPath, sid).value;
    var step := if inputs.lookupError.Some? then Fail(sid) else FastPath(sid);
    OthersThenTake(cfg, w, callSchedule.toFastPath, sid, wf, step);
    w' := Take(cfg, wf, step);
    if inputs.lookupError == None && !HasKey(wf.store, c.key) {
      var mid := w';
      w' := FromPrepare(cfg, mid, sid, c, inputs, r, tries, committed, commits, callSchedule);
      AnsweredEarlier(cfg, w, mid, w', sid, c, OutcomeFromPrepare(cfg, c, inputs, tries), r);
    }
  }

  /** Service.RequestBooking, from call to answer: whatever other sessions do while it runs, and
      whatever fails, the run goes on to a world that holds a session for the very command,
      ended as the checks, the refusals, the retries and the failures determine, with the very
      answer, and with the tables the call committed. */
  lemma BookingIsRun(
    cfg: Config, w: World, sid: nat, c: BookCommand, inputs: R.CallInputs, r: Result<Uuid, Database.GoError>,
    tries: nat, committed: Store, commits: int, callSchedule: CallSchedule)
    returns (w': World)
    requires Reachable(cfg, w) && sid !in w.sessions && R.OrderlyInputs(cfg.catalog, cfg.roster, c, inputs)
    requires CallMatchesRun(cfg, w, sid, c, inputs, tries, callSchedule)
    requires R.BookingEnds(cfg.Factory(), cfg.catalog, cfg.roster, c, inputs, r, tries, committed, commits)
    ensures AnsweredBooking(cfg, w, w', sid, c, BookingOutcome(cfg, c, inputs, tries), r)
    ensures commits == 1 ==> committed == w'.store
  {
    hide Reachable, Exec, R.Refusal, R.Stops, R.RequestEnds, StartTimeErrorDetail, FastPathMatchesRun, Others,
         R.OrderlyInputs, Leads, OutcomeFromPrepare;
    TakeIsReachable(cfg, w, Call(sid, Book(c)));
    var w0 := Take(cfg, w, Call(sid, Book(c)));
    var wv := Others(cfg, w0, callSchedule.toValidate, sid).value;
    OthersThenTake(cfg, w0, callSchedule.toValidate, sid, wv, Validate(sid));
    var w1 := Take(cfg, wv, Validate(sid));
    LeadsOn(cfg, w, w0, w1);
    w' := w1;
    if StartTimeErrorDetail(cfg.Factory(), c.start, wv.clock) == None {
      w' := FromFastPath(cfg, w1, sid, c, inputs, r, tries, committed, commits, callSchedule);
      AnsweredEarlier(cfg, w, w1, w', sid, c, BookingOutcome(cfg, c, inputs, tries), r);
    }
  }

  /** So what the protocol guarantees holds of the code: an answer is the key's one reservation,
      and stays it. */
  lemma AnswerIsTheKeysReservation(
    cfg: Config, w: World, w': World, sid: nat, c: BookCommand, outcome: Outcome, id: Uuid, later: World)
    requires AnsweredBooking(cfg, w, w', sid, c, outcome, Ok(id)) && Leads(cfg, w', later)
    ensures FindByKey(later.store, c.key) == Some(id)
  {
    hide Reachable, Exec;
    var trace :| Exec(cfg, w', trace) == Some(later);
    WonOutcome(cfg, w', sid);
    RowsOnlyChangeStatus(cfg, w', trace, later);
    RunReachable(cfg, w', trace, later);
    assert HasKey(later.store, c.key);
    OneReservationPerKey(cfg, later, FindByKey(later.store, c.key).value, id);
  }

  /** Two calls for one key on one run, one after the other or overlapping: if both are answered
      with a reservation, it is the same one. */
  lemma CallsOfOneRunAnswerAlike(
    cfg: Config, v0: World, v: World, s: nat, c: BookCommand, o: Outcome, id: Uuid,
    w0: World, w: World, t: nat, d: BookCommand, p: Outcome, jd: Uuid)
    requires AnsweredBooking(cfg, v0, v, s, c, o, Ok(id)) && AnsweredBooking(cfg, w0, w, t, d, p, Ok(jd))
    requires Leads(cfg, v, w) && c.key == d.key
    ensures id == jd
  {
    hide Reachable, Exec, Leads;
    AnswerIsTheKeysReservation(cfg, v0, v, s, c, o, id, w);
    LeadsToItself(cfg, w);
    AnswerIsTheKeysReservation(cfg, w0, w, t, d, p, jd, w);
  }

  /** In terms of the code: once RequestBooking has answered a reservation, any later call for
      the key that answers a reservation, from whichever layer, answers that one. */
  lemma LaterCallAnswersAlike(
    cfg: Config, v0: World, v: World, s: nat, c: BookCommand, o: Outcome, id: Uuid,
    w: World, t: nat, d: BookCommand, inputs: R.CallInputs, jd: Uuid,
    tries: nat, committed: Store, commits: int, callSchedule: CallSchedule)
    requires AnsweredBooking(cfg, v0, v, s, c, o, Ok(id)) && Leads(cfg, v, w) && c.key == d.key
    requires Reachable(cfg, w) && t !in w.sessions && R.OrderlyInputs(cfg.catalog, cfg.roster, d, inputs)
    requires CallMatchesRun(cfg, w, t, d, inputs, tries, callSchedule)
    requires R.BookingEnds(cfg.Factory(), cfg.catalog, cfg.roster, d, inputs, Ok(jd), tries, committed, commits)
    ensures jd == id
  {
    hide Reachable, Leads, AnsweredBooking, R.OrderlyInputs, CallMatchesRun, R.BookingEnds, BookingOutcome;
    var w' := BookingIsRun(cfg, w, t, d, inputs, Ok(jd), tries, committed, commits, callSchedule);
    AnsweredLeads(cfg, w, w', t, d, BookingOutcome(cfg, d, inputs, tries), Ok(jd));
    LeadsOn(cfg, v, w, w');
    CallsOfOneRunAnswerAlike(cfg, v0, v, s, c, o, id, w, w', t, d, BookingOutcome(cfg, d, inputs, tries), jd);
  }

  lemma AnsweredLeads(
    cfg: Config, w: World, w': World, sid: nat, c: BookCommand, outcome: Outcome, r: Result<Uuid, Database.GoError>)
    requires AnsweredBooking(cfg, w, w', sid, c, outcome, r)
    ensures Leads(cfg, w, w')
  {
    hide Leads;
  }

  /** Every snapshot a transaction can get meets what the repository's methods ask of it. */
  lemma SnapshotsAreOrderly(cfg: Config, w: World)
    requires Reachable(cfg, w)
    ensures R.UniqueKeys(w.store) && R.Identified(w.store)
  {
    hide Reachable, Invariants.Inv, Invariants.LogOk, Invariants.Covered, Invariants.Owners, Invariants.Exclusive,
         Invariants.SessionsOk;
    Commits.ReachableOk(cfg, w);
    InvParts(cfg, w);
    forall r, q | r in w.store.reservations && q in w.store.reservations
                  && w.store.reservations[r].key == w.store.reservations[q].key ensures r == q {
      OneReservationPerKey(cfg, w, r, q);
    }
    forall r | r in w.store.reservations ensures w.store.reservations[r].uuid == r {
      var i := Preservation.IndexOfReservation(w, r);
      EntryKey(cfg, w, i);
    }
  }
}
