/** The imperative code behind the protocol's steps: the transaction closures of
    appointment_repository.go, createFn of request_booking.go, and the retry loop of
    internal/common/db.go, each proved against the decision functions the protocol uses. */
module Repository {
  import opened Wrappers
  import opened Domain
  import opened Tables
  import opened Workforce
  import opened Booking
  import opened Database

  // ---- createFn ----

  method PickTechnician(technicians: seq<Technician>, busy: map<string, string>) returns (technicianID: string)
    ensures technicianID == FirstFree(TechnicianIds(technicians), busy.Keys)
  {
    technicianID := "";
    for i := 0 to |technicians|
      invariant technicianID == ""
      invariant forall j | 0 <= j < i :: technicians[j].id in busy
    {
      if technicians[i].id !in busy {
        technicianID := technicians[i].id;
        FirstFreeAt(TechnicianIds(technicians), busy.Keys, i);
        return;
      }
    }
    FirstFreeIsFree(TechnicianIds(technicians), busy.Keys);
  }

  method PickServiceBay(bays: seq<ServiceBay>, busy: map<string, string>) returns (serviceBayID: string)
    ensures serviceBayID == FirstFree(BayIds(bays), busy.Keys)
  {
    serviceBayID := "";
    for i := 0 to |bays|
      invariant serviceBayID == ""
      invariant forall j | 0 <= j < i :: bays[j].id in busy
    {
      if bays[i].id !in busy {
        serviceBayID := bays[i].id;
        FirstFreeAt(BayIds(bays), busy.Keys, i);
        return;
      }
    }
    FirstFreeIsFree(BayIds(bays), busy.Keys);
  }

  /** The builder as RequestBooking hands it over: everything but the resources is settled. */
  predicate Primed(builder: AppointmentBuilder, plan: Plan)
    reads builder
  {
    builder.data == plan.command.Data(plan.vehicle) && builder.estimatedDuration == plan.entry.duration
  }

  /** The builder outlives attempts, but what it builds depends on this attempt's picks only. */
  method RunCreateFn(
    factory: FactoryConfig, plan: Plan, builder: AppointmentBuilder,
    busyServiceBayIDs: map<string, string>, busyTechnicianIDs: map<string, string>,
    now: Time, appointmentUuid: Uuid, reservationUuid: Uuid)
    returns (r: Result<(Appointment, Reservation), Error>)
    requires Primed(builder, plan)
    modifies builder`technicianID, builder`serviceBayID
    ensures match CreateFn(factory, plan, busyTechnicianIDs.Keys, busyServiceBayIDs.Keys, now, appointmentUuid,
            reservationUuid)
            case Replay(_) => false
            case Reject(e) => r == Err(e)
            case Stage(write) =>
              write.Insert? && r.Ok? && fresh(r.value.0) && r.value.0.uuid == write.appointment
              && r.value.0.details == write.details && r.value.0.status == Pending && r.value.1 == write.hold
              && write.vehicle == VehicleRow(plan.command.user, plan.command.vehicle)
  {
    var technicianID := PickTechnician(plan.technicians, busyTechnicianIDs);
    var serviceBayID := PickServiceBay(plan.bays, busyServiceBayIDs);
    if technicianID == "" || serviceBayID == "" {
      return Err(NoAvailability);
    }
    builder.WithTechnicianID(technicianID);
    builder.WithServiceBayID(serviceBayID);
    var built := builder.Build(appointmentUuid);
    if built.Err? {
      return Err(built.error);
    }
    var reservation := CreateReservation(factory, reservationUuid, built.value.uuid, plan.command.key, now);
    if reservation.Err? {
      return Err(reservation.error);
    }
    r := Ok((built.value, reservation.value));
  }

  // ---- A transaction ----

  /** A statement that writes, in the order the closure sends them. */
  datatype Statement =
    | PutVehicle(vehicle: Uuid, row: VehicleRow)
    | PutAppointment(uuid: Uuid, appointment: AppointmentRow)
    | PutReservation(reservation: Reservation)
    | PutStatus(target: Uuid, status: Status)

  function Execute(store: Store, statement: Statement): Store {
    match statement
    case PutVehicle(x, row) => UpsertVehicle(store, x, row)
    case PutAppointment(a, row) => CreateAppointment(store, a, row)
    case PutReservation(row) => InsertReservation(store, row)
    case PutStatus(a, status) => UpdateAppointmentStatus(store, a, status)
  }

  function ExecuteAll(store: Store, statements: seq<Statement>): Store {
    if statements == [] then store
    else Execute(ExecuteAll(store, statements[..|statements| - 1]), statements[|statements| - 1])
  }

  function StatementsOf(write: Write): seq<Statement> {
    match write
    case NoWrite => []
    case Insert(a, d, hold, vehicle) =>
      [PutVehicle(d.vehicle, vehicle), PutAppointment(a, AppointmentRow(d, Pending)), PutReservation(hold)]
    case SetStatus(a, status) => [PutStatus(a, status)]
  }

  /** Replaying a closure's statements on the committed tables is the protocol's commit. */
  lemma {:induction false} StatementsAreTheWrite(store: Store, write: Write)
    ensures ExecuteAll(store, StatementsOf(write)) == ApplyWrite(store, write)
  {
    match write
    case NoWrite =>
    case Insert(a, d, hold, vehicle) =>
      var all := StatementsOf(write);
      assert all[..2][..1][..0] == [] && all[..2][..1] == [PutVehicle(d.vehicle, vehicle)];
      assert ExecuteAll(store, all[..2][..1]) == UpsertVehicle(store, d.vehicle, vehicle);
      assert ExecuteAll(store, all[..2]) ==
             CreateAppointment(UpsertVehicle(store, d.vehicle, vehicle), a, AppointmentRow(d, Pending));
    case SetStatus(a, status) =>
      assert StatementsOf(write)[..0] == [];
  }

  /** Every appointment's vehicle and every reservation's appointment is stored. */
  predicate ForeignKeys(store: Store) {
    && (forall a | a in store.appointments :: store.appointments[a].details.vehicle in store.vehicles)
    && (forall r | r in store.reservations :: store.reservations[r].appointment in store.appointments)
  }

  /** The order of a closure's statements keeps the foreign keys after each of them. */
  lemma StatementsKeepForeignKeys(store: Store, write: Write, k: nat)
    requires ForeignKeys(store) && k <= |StatementsOf(write)|
    requires write.Insert? ==> write.hold.appointment == write.appointment
    ensures ForeignKeys(ExecuteAll(store, StatementsOf(write)[..k]))
  {
    var all := StatementsOf(write);
    if k > 0 {
      StatementsKeepForeignKeys(store, write, k - 1);
      assert all[..k][..k - 1] == all[..k - 1];
      if k > 1 { assert all[..k - 1][..k - 2] == all[..k - 2]; }
      if k > 2 { assert all[..k - 2][..k - 3] == all[..k - 3]; }
    }
  }

  /** The table's unique constraint. */
  predicate UniqueKeys(store: Store) {
    forall r, q | r in store.reservations && q in store.reservations
                  && store.reservations[r].key == store.reservations[q].key :: r == q
  }

  predicate Identified(store: Store) {
    forall r | r in store.reservations :: store.reservations[r].uuid == r
  }

  class Tx {
    const began: Time
    const snapshot: Store
    var statements: seq<Statement>

    constructor (began: Time, snapshot: Store)
      ensures this.began == began && this.snapshot == snapshot && statements == []
    {
      this.began, this.snapshot, statements := began, snapshot, [];
    }

    method GetReservationByIdempotencyKey(key: string) returns (row: Option<Reservation>)
      requires UniqueKeys(snapshot) && Identified(snapshot)
      ensures row.Some? <==> FindByKey(snapshot, key).Some?
      ensures row.Some? ==> row.value.uuid == FindByKey(snapshot, key).value
    {
      if r :| r in snapshot.reservations && snapshot.reservations[r].key == key {
        row := Some(snapshot.reservations[r]);
      } else {
        row := None;
      }
    }

    /** The server joins, filters and projects; its rows come in no particular order, each once. */
    method GetBusyServiceBaysAndTechnicians(dealership: string, start: Time, end: Time) returns (items: seq<BusyRow>)
      ensures forall row :: row in items <==> row in BusyRows(snapshot, BusyQuery(dealership, start, end, began))
      ensures forall i, j | 0 <= i < j < |items| :: items[i] != items[j]
    {
      items := [];
      var q := BusyQuery(dealership, start, end, began);
      var rows := SelectDistinct(snapshot, q);
      JoinFindsTheClaims(snapshot, q);
      while rows != {}
        invariant forall row :: row in items || row in rows <==> row in BusyRows(snapshot, q)
        invariant forall row | row in items :: row !in rows
        invariant forall i, j | 0 <= i < j < |items| :: items[i] != items[j]
        decreases |rows|
      {
        var row :| row in rows;
        rows := rows - {row};
        items := items + [row];
      }
    }

    method Exec(statement: Statement)
      modifies this`statements
      ensures statements == old(statements) + [statement]
    {
      statements := statements + [statement];
    }
  }

  /** getBusyCandidates: two maps whose keys are exactly the busy bays and technicians; rows
      that share one lose only the value, never the key. */
  method GetBusyCandidates(tx: Tx, q: BusyQuery)
    returns (busyServiceBayIDs: map<string, string>, busyTechnicianIDs: map<string, string>)
    requires q.now == tx.began
    ensures busyServiceBayIDs.Keys == BusyBays(tx.snapshot, q)
    ensures busyTechnicianIDs.Keys == BusyTechnicians(tx.snapshot, q)
  {
    var busyRows := tx.GetBusyServiceBaysAndTechnicians(q.dealership, q.start, q.end);
    busyServiceBayIDs, busyTechnicianIDs := map[], map[];
    for i := 0 to |busyRows|
      invariant busyServiceBayIDs.Keys == set j | 0 <= j < i :: busyRows[j].bay
      invariant busyTechnicianIDs.Keys == set j | 0 <= j < i :: busyRows[j].technician
    {
      busyServiceBayIDs := busyServiceBayIDs[busyRows[i].bay := busyRows[i].technician];
      busyTechnicianIDs := busyTechnicianIDs[busyRows[i].technician := busyRows[i].bay];
    }
    assert forall row :: row in busyRows <==> row in BusyRows(tx.snapshot, q);
    assert busyServiceBayIDs.Keys == BusyBays(tx.snapshot, q);
    assert busyTechnicianIDs.Keys == BusyTechnicians(tx.snapshot, q);
  }

  // ---- The three closures ----

  datatype RepoCommand =
    | RequestAppointment(plan: Plan)
    | ConfirmAppointment(user: string, reservation: Uuid)
    | CancelAppointment(canceller: string, appointment: Uuid)

  /** What the world does to one attempt. Others commit until its snapshot (`arrived`) and
      until it ends (`meanwhile`); the database may refuse at BEGIN, at either of the closure's
      reads, at its writes, at COMMIT and at ROLLBACK; and after a failure the back-off may give
      up. */
  datatype Environment = Environment(
    arrived: Store, meanwhile: Store, began: Time, now: Time, appointment: Uuid, reservation: Uuid,
    beginError: Option<GoError>, deadlineExceeded: bool,
    firstReadError: Option<GoError>, secondReadError: Option<GoError>,
    writeError: Option<GoError>, commitError: Option<GoError>, rollbackError: Option<GoError>, givesUp: bool)

  /** What a closure that gets through leaves: statements to commit, and its captured answer. */
  datatype Verdict = Verdict(write: Write, captured: Uuid)

  ghost function Judge(command: RepoCommand, factory: FactoryConfig, env: Environment): Result<Verdict, GoError> {
    match command
    case RequestAppointment(plan) =>
      if env.firstReadError.Some? then Err(env.firstReadError.value)
      else JudgeRequest(plan, factory, env)
    case ConfirmAppointment(user, reservation) =>
      if env.firstReadError.Some? then Err(Wrapped("error retrieving reservation: ", env.firstReadError.value))
      else if reservation in env.arrived.reservations && env.secondReadError.Some? then
        Err(Wrapped("error retrieving appointment: ", env.secondReadError.value))
      else JudgeStatus(DecideConfirm(env.arrived, user, reservation, env.now), env)
    case CancelAppointment(user, appointment) =>
      if env.firstReadError.Some? then Err(Wrapped("error retrieving appointment: ", env.firstReadError.value))
      else JudgeStatus(DecideCancel(env.arrived, user, appointment, env.now), env)
  }

  ghost function JudgeRequest(plan: Plan, factory: FactoryConfig, env: Environment): Result<Verdict, GoError> {
    match DecideBooking(factory, plan, env.arrived, env.began, env.now, env.appointment,
        env.reservation)
    case Replay(r) => Ok(Verdict(NoWrite, r))
    case Reject(e) =>
      if env.secondReadError.Some? then Err(BusyError(env.secondReadError.value)) else Err(App(e))
    case Stage(write) =>
      if env.secondReadError.Some? then Err(BusyError(env.secondReadError.value))
      else if env.writeError.Some? then Err(env.writeError.value)
      else Ok(Verdict(write, env.reservation))
  }

  function BusyError(err: GoError): GoError {
    Wrapped("error retrieving busy candidate: ", err)
  }

  function JudgeStatus(decision: Result<Write, Error>, env: Environment): Result<Verdict, GoError>
    requires decision.Ok? ==> decision.value.SetStatus?
    requires decision.Err? ==> !decision.error.ServiceTypeNotFound?
  {
    match decision
    case Err(e) => Err(App(e))
    case Ok(write) =>
      if env.writeError.Some? then Err(env.writeError.value) else Ok(Verdict(write, write.target))
  }

  /** The variables a closure captures: they outlive the attempt. */
  class Call {
    const command: RepoCommand
    const factory: FactoryConfig
    const builder: AppointmentBuilder
    var captured: Option<Uuid>

    constructor (command: RepoCommand, factory: FactoryConfig, builder: AppointmentBuilder)
      ensures this.command == command && this.factory == factory && this.builder == builder && captured == None
    {
      this.command, this.factory, this.builder, captured := command, factory, builder, None;
    }

    ghost predicate Valid()
      reads this, builder
    {
      command.RequestAppointment? ==> Primed(builder, command.plan)
    }

    method Fn(tx: Tx, env: Environment) returns (err: Option<GoError>)
      requires Valid() && tx.statements == [] && tx.began == env.began && tx.snapshot == env.arrived
      requires UniqueKeys(tx.snapshot) && Identified(tx.snapshot)
      modifies this`captured, tx, builder`technicianID, builder`serviceBayID
      ensures Valid()
      ensures match Judge(command, factory, env)
              case Err(e) => err == Some(e)
              case Ok(verdict) =>
                err == None && tx.statements == StatementsOf(verdict.write) && captured == Some(verdict.captured)
    {
      match command
      case RequestAppointment(plan) => err := Request(plan, tx, env);
      case ConfirmAppointment(user, reservation) => err := Confirm(user, reservation, tx, env);
      case CancelAppointment(user, appointment) => err := Cancel(user, appointment, tx, env);
    }

    method Request(plan: Plan, tx: Tx, env: Environment) returns (err: Option<GoError>)
      requires Valid() && command == RequestAppointment(plan) && tx.statements == [] && tx.began == env.began
      requires tx.snapshot == env.arrived && UniqueKeys(tx.snapshot) && Identified(tx.snapshot)
      modifies this`captured, tx, builder`technicianID, builder`serviceBayID
      ensures Valid()
      ensures match Judge(command, factory, env)
              case Err(e) => err == Some(e)
              case Ok(verdict) =>
                err == None && tx.statements == StatementsOf(verdict.write) && captured == Some(verdict.captured)
    {
      hide CreateFn, BusyTechnicians, BusyBays, UniqueKeys, Identified;
      CreateFnShape(factory, plan, BusyTechnicians(tx.snapshot, plan.Query(tx.began)),
          BusyBays(tx.snapshot, plan.Query(tx.began)),
                    env.now, env.appointment, env.reservation);
      if env.firstReadError.Some? {
        return env.firstReadError;
      }
      var existing := tx.GetReservationByIdempotencyKey(plan.command.key);
      if existing.Some? {
        captured := Some(existing.value.uuid);
        return None;
      }
      if env.secondReadError.Some? {
        return Some(BusyError(env.secondReadError.value));
      }
      var busyServiceBayIDs, busyTechnicianIDs := GetBusyCandidates(tx, plan.Query(tx.began));
      var created := RunCreateFn(factory, plan, builder, busyServiceBayIDs, busyTechnicianIDs,
                                 env.now, env.appointment, env.reservation);
      if created.Err? {
        return Some(App(created.error));
      }
      var (appointment, reservation) := created.value;
      tx.Exec(PutVehicle(plan.vehicle, VehicleRow(plan.command.user, plan.command.vehicle)));
      tx.Exec(PutAppointment(appointment.uuid, AppointmentRow(appointment.details, appointment.status)));
      if env.writeError.Some? {
        return env.writeError;
      }
      tx.Exec(PutReservation(reservation));
      captured := Some(reservation.uuid);
      err := None;
    }

    method Confirm(user: string, reservationUUID: Uuid, tx: Tx, env: Environment) returns (err: Option<GoError>)
      requires Valid() && command == ConfirmAppointment(user, reservationUUID) && tx.statements == []
      requires tx.snapshot == env.arrived
      modifies this`captured, tx
      ensures Valid()
      ensures match Judge(command, factory, env)
              case Err(e) => err == Some(e)
              case Ok(verdict) =>
                err == None && tx.statements == StatementsOf(verdict.write) && captured == Some(verdict.captured)
    {
      if env.firstReadError.Some? {
        return Some(Wrapped("error retrieving reservation: ", env.firstReadError.value));
      }
      if reservationUUID !in tx.snapshot.reservations {
        return Some(App(ReservationNotFound));
      }
      var reservation := tx.snapshot.reservations[reservationUUID];
      if env.secondReadError.Some? {
        return Some(Wrapped("error retrieving appointment: ", env.secondReadError.value));
      }
      if !OwnedBy(tx.snapshot, reservation.appointment, user) {
        return Some(App(AppointmentNotFound));
      }
      var row := tx.snapshot.appointments[reservation.appointment];
      var appointment := new Appointment(reservation.appointment, row.details, row.status);
      var refusal := appointment.Confirm(Some(reservation), env.now);
      if refusal.Some? {
        return Some(App(refusal.value));
      }
      if env.writeError.Some? {
        return env.writeError;
      }
      tx.Exec(PutStatus(appointment.uuid, appointment.status));
      captured := Some(appointment.uuid);
      err := None;
    }

    method Cancel(user: string, appointmentUUID: Uuid, tx: Tx, env: Environment) returns (err: Option<GoError>)
      requires Valid() && command == CancelAppointment(user, appointmentUUID) && tx.statements == []
      requires tx.snapshot == env.arrived
      modifies this`captured, tx
      ensures Valid()
      ensures match Judge(command, factory, env)
              case Err(e) => err == Some(e)
              case Ok(verdict) =>
                err == None && tx.statements == StatementsOf(verdict.write) && captured == Some(verdict.captured)
    {
      if env.firstReadError.Some? {
        return Some(Wrapped("error retrieving appointment: ", env.firstReadError.value));
      }
      if !OwnedBy(tx.snapshot, appointmentUUID, user) {
        return Some(App(AppointmentNotFound));
      }
      var row := tx.snapshot.appointments[appointmentUUID];
      var appointment := new Appointment(appointmentUUID, row.details, row.status);
      var refusal := appointment.Cancel(env.now);
      if refusal.Some? {
        return Some(App(refusal.value));
      }
      if env.writeError.Some? {
        return env.writeError;
      }
      tx.Exec(PutStatus(appointment.uuid, appointment.status));
      captured := Some(appointment.uuid);
      err := None;
    }
  }

  // ---- Attempts ----

  class Db {
    var committed: Store
    var begun: nat
    var commits: nat

    constructor (committed: Store)
      ensures this.committed == committed && begun == 0 && commits == 0
    {
      this.committed, begun, commits := committed, 0, 0;
    }
  }

  /** The error updateInTx returns: what begin, the closure, commit and rollback make of it. */
  ghost function AttemptError(command: RepoCommand, factory: FactoryConfig, env: Environment): Option<GoError> {
    match env.beginError
    case Some(e) =>
      Some(Wrapped(if env.deadlineExceeded
                   then "could not begin transaction (possible pool exhaustion — context deadline exceeded): "
                   else "could not begin transaction: ", e))
    case None =>
      match Judge(command, factory, env)
      case Err(e) => Some(if env.rollbackError.Some? then Joined(e, env.rollbackError.value) else e)
      case Ok(_) => env.commitError
  }

  /** How an attempt ends: it either commits its whole write, once, and its own answer is the
      captured one, or it leaves the tables as others left them. */
  ghost predicate Ends(
    command: RepoCommand, factory: FactoryConfig, env: Environment,
    err: Option<GoError>, committed: Store, commits: int, captured: Option<Uuid>)
  {
    err == AttemptError(command, factory, env) &&
    if err == None then
      Judge(command, factory, env).Ok? &&
      var verdict := Judge(command, factory, env).value;
      committed == ApplyWrite(env.meanwhile, verdict.write) && commits == 1 && captured == Some(verdict.captured)
    else committed == env.meanwhile && commits == 0
  }

  method UpdateInTx(db: Db, call: Call, env: Environment) returns (err: Option<GoError>)
    requires call.Valid() && UniqueKeys(env.arrived) && Identified(env.arrived)
    modifies db, call`captured, call.builder`technicianID, call.builder`serviceBayID
    ensures call.Valid() && db.begun == old(db.begun) + 1
    ensures Ends(call.command, call.factory, env, err, db.committed, db.commits - old(db.commits), call.captured)
  {
    hide Judge, UniqueKeys, Identified, ApplyWrite, StatementsOf;
    db.begun := db.begun + 1;
    db.committed := env.arrived;
    if env.beginError.Some? {
      db.committed := env.meanwhile;
      if env.deadlineExceeded {
        return Some(Wrapped("could not begin transaction (possible pool exhaustion — context deadline exceeded): ",
            env.beginError.value));
      }
      return Some(Wrapped("could not begin transaction: ", env.beginError.value));
    }
    var tx := new Tx(env.began, db.committed);
    err := call.Fn(tx, env);
    db.committed := env.meanwhile;
    if err.Some? {
      if env.rollbackError.Some? {
        err := Some(Joined(err.value, env.rollbackError.value));
      }
      return;
    }
    err := env.commitError;
    if err == None {
      db.committed := ExecuteAll(db.committed, tx.statements);
      db.commits := db.commits + 1;
      StatementsAreTheWrite(env.meanwhile, Judge(call.command, call.factory, env).value.write);
    }
  }

  /** An attempt after which the loop goes on. */
  ghost predicate Retries(command: RepoCommand, factory: FactoryConfig, env: Environment) {
    var err := AttemptError(command, factory, env);
    err.Some? && Retryable(err.value) && !env.givesUp
  }

  // ---- What a failing database does to an attempt ----

  /** The closure makes its second read: of the busy rows, or of the reservation's appointment. */
  ghost predicate ReadsTwice(command: RepoCommand, env: Environment) {
    match command
    case RequestAppointment(plan) => !HasKey(env.arrived, plan.command.key)
    case ConfirmAppointment(_, reservation) => reservation in env.arrived.reservations
    case CancelAppointment(_, _) => false
  }

  /** What it would write, or the refusal it ends with, if no statement failed. */
  ghost function Decision(command: RepoCommand, factory: FactoryConfig, env: Environment): (r: Result<Verdict, Error>)
    ensures r.Err? ==> !r.error.ServiceTypeNotFound?
  {
    match command
    case RequestAppointment(plan) =>
      (match DecideBooking(factory, plan, env.arrived, env.began, env.now, env.appointment, env.reservation)
       case Replay(r) => Ok(Verdict(NoWrite, r))
       case Reject(e) => Err(e)
       case Stage(write) => Ok(Verdict(write, env.reservation)))
    case ConfirmAppointment(user, reservation) =>
      (match DecideConfirm(env.arrived, user, reservation, env.now)
       case Err(e) => Err(e)
       case Ok(write) => Ok(Verdict(write, write.target)))
    case CancelAppointment(user, appointment) =>
      (match DecideCancel(env.arrived, user, appointment, env.now)
       case Err(e) => Err(e)
       case Ok(write) => Ok(Verdict(write, write.target)))
  }

  /** The first failure of the database that the attempt meets. */
  ghost function FirstFailure(command: RepoCommand, factory: FactoryConfig, env: Environment): Option<GoError> {
    var decision := Decision(command, factory, env);
    if env.beginError.Some? then env.beginError
    else if env.firstReadError.Some? then env.firstReadError
    else if ReadsTwice(command, env) && env.secondReadError.Some? then env.secondReadError
    else if decision.Err? then None
    else if decision.value.write != NoWrite && env.writeError.Some? then env.writeError
    else env.commitError
  }

  /** An attempt ends as decided unless the database fails it. Whatever the failure is wrapped
      in or joined with, a serialization failure is retryable and a duplicate key recognised. */
  lemma FailuresKeepTheirClass(command: RepoCommand, factory: FactoryConfig, env: Environment)
    ensures var failure, err := FirstFailure(command, factory, env), AttemptError(command, factory, env);
            match failure
            case Some(e) => err.Some? && SameClass(e, err.value)
            case None =>
              match Decision(command, factory, env)
              case Ok(verdict) => err == None && Judge(command, factory, env) == Ok(verdict)
              case Err(e) =>
                err == Some(if env.rollbackError == None then App(e) else Joined(App(e), env.rollbackError.value))
  {
    hide Judge, Decision, SameClass, App, ReadsTwice;
    if env.beginError.Some? {
      SameClassWrapped("could not begin transaction: ", env.beginError.value);
      SameClassWrapped("could not begin transaction (possible pool exhaustion — context deadline exceeded): ",
          env.beginError.value);
    } else {
      ClosureFailures(command, factory, env);
      hide FirstFailure;
      if e :| FirstFailure(command, factory, env) == Some(e) {
        SameClassItself(e);
        var judged := Judge(command, factory, env);
        if judged.Err? && env.rollbackError.Some? { SameClassJoined(e, judged.error, env.rollbackError.value); }
      }
    }
  }

  /** The same of the closure alone. */
  lemma ClosureFailures(command: RepoCommand, factory: FactoryConfig, env: Environment)
    requires env.beginError == None
    ensures var judged := Judge(command, factory, env);
            match FirstFailure(command, factory, env)
            case Some(e) => if judged.Ok? then env.commitError == Some(e) else SameClass(e, judged.error)
            case None =>
              match Decision(command, factory, env)
              case Ok(verdict) => judged == Ok(verdict) && env.commitError == None
              case Err(e) => judged == Err(App(e))
  {
    hide SameClass, CreateFn, ConfirmError, CancelError, App, BusyTechnicians, BusyBays, HasKey;
    if command.RequestAppointment? {
      var q := command.plan.Query(env.began);
      CreateFnShape(factory, command.plan, BusyTechnicians(env.arrived, q), BusyBays(env.arrived, q),
                    env.now, env.appointment, env.reservation);
    }
    if e :| FirstFailure(command, factory, env) == Some(e) {
      SameClassItself(e);
      SameClassWrapped("error retrieving reservation: ", e);
      SameClassWrapped("error retrieving appointment: ", e);
      SameClassWrapped("error retrieving busy candidate: ", e);
    }
  }

  /** err is retryable if e is, and the key's unique violation if e is. */
  predicate SameClass(e: GoError, err: GoError) {
    && (Retryable(e) ==> Retryable(err))
    && (IsUniqueViolation(Some(e), UNIQUE_KEY_CONSTRAINT) ==> IsUniqueViolation(Some(err), UNIQUE_KEY_CONSTRAINT))
  }

  lemma SameClassItself(e: GoError)
    ensures SameClass(e, e)
  {
  }

  lemma SameClassWrapped(prefix: string, e: GoError)
    ensures SameClass(e, Wrapped(prefix, e))
  {
    JoinKeepsClass(e, e, prefix, UNIQUE_KEY_CONSTRAINT);
    hide Retryable;
  }

  lemma SameClassJoined(e: GoError, err: GoError, rollback: GoError)
    requires SameClass(e, err)
    ensures SameClass(e, Joined(err, rollback))
  {
    JoinKeepsClass(err, rollback, "", UNIQUE_KEY_CONSTRAINT);
    hide Retryable;
  }

  /** The loop goes on after every attempt before the last, and not after the last. */
  ghost predicate Stops(command: RepoCommand, factory: FactoryConfig, envs: nat -> Environment, tries: int) {
    && 1 <= tries <= MAX_TRIES
    && (forall n | 1 <= n < tries :: Retries(command, factory, envs(n)))
    && (tries == MAX_TRIES || !Retries(command, factory, envs(tries)))
  }

  /** updateInTxWithIsolation, for whatever the envs sends the n-th attempt: at most ten
      attempts, every one but the last failed and was retryable, at most one commits and then it
      is the last, and the captured answer is that attempt's own. */
  method UpdateInTxWithRetry(db: Db, call: Call, envs: nat -> Environment) returns (err: Option<GoError>, tries: nat)
    requires call.Valid() && forall n :: UniqueKeys(envs(n).arrived) && Identified(envs(n).arrived)
    modifies db, call`captured, call.builder`technicianID, call.builder`serviceBayID
    ensures call.Valid() && db.begun == old(db.begun) + tries
    ensures 1 <= tries <= 10
    ensures tries < 10 ==> err == None || !Retryable(err.value) || envs(tries).givesUp
    ensures forall n | 1 <= n < tries ::
              var failure := AttemptError(call.command, call.factory, envs(n));
              failure.Some? && Retryable(failure.value) && !envs(n).givesUp
    ensures Stops(call.command, call.factory, envs, tries)
    ensures Ends(call.command, call.factory, envs(tries), err, db.committed, db.commits - old(db.commits),
            call.captured)
  {
    hide Retryable, AttemptError, Judge, ApplyWrite, UniqueKeys, Identified;
    tries := 1;
    err := UpdateInTx(db, call, envs(tries));
    while err.Some? && Retryable(err.value) && !envs(tries).givesUp && tries < MAX_TRIES
      invariant call.Valid() && 1 <= tries <= MAX_TRIES && db.begun == old(db.begun) + tries
      invariant forall n | 1 <= n < tries :: Retries(call.command, call.factory, envs(n))
      invariant Ends(call.command, call.factory, envs(tries), err, db.committed, db.commits - old(db.commits),
                call.captured)
      decreases MAX_TRIES - tries
    {
      tries := tries + 1;
      err := UpdateInTx(db, call, envs(tries));
    }
  }

  // ---- The repository ----

  /** How RequestAppointment ends when `env` was the last attempt's. `afterwards` is what
      the backstop's lookup reads, `backstopError` what it fails with when it finds nothing. */
  ghost predicate RequestEnds(
    plan: Plan, factory: FactoryConfig, env: Environment, afterwards: Store, backstopError: GoError,
    r: Result<Uuid, GoError>, committed: Store, commits: int)
  {
    var err := AttemptError(RequestAppointment(plan), factory, env);
    if err == None then
      Judge(RequestAppointment(plan), factory, env).Ok? &&
      var verdict := Judge(RequestAppointment(plan), factory, env).value;
      r == Ok(verdict.captured) && committed == ApplyWrite(env.meanwhile, verdict.write) && commits == 1
    else
      && commits == 0 && committed == env.meanwhile
      && r == if !IsUniqueViolation(err, UNIQUE_KEY_CONSTRAINT) then Err(err.value)
              else
                match FindByKey(afterwards, plan.command.key)
                case Some(found) => Ok(found)
                case None => Err(backstopError)
  }

  /** AppointmentRepository.RequestAppointment */
  method RequestAppointmentTx(
    db: Db, plan: Plan, factory: FactoryConfig, builder: AppointmentBuilder, envs: nat -> Environment,
    afterwards: Store, backstopError: GoError)
    returns (r: Result<Uuid, GoError>, tries: nat)
    requires Primed(builder, plan) && forall n :: UniqueKeys(envs(n).arrived) && Identified(envs(n).arrived)
    requires UniqueKeys(afterwards)
    modifies db, builder`technicianID, builder`serviceBayID
    ensures Primed(builder, plan) && db.begun == old(db.begun) + tries && 1 <= tries <= 10
    ensures Stops(RequestAppointment(plan), factory, envs, tries)
    ensures RequestEnds(plan, factory, envs(tries), afterwards, backstopError, r, db.committed,
            db.commits - old(db.commits))
  {
    hide Stops, AttemptError, Judge, IsUniqueViolation, Identified;
    var call := new Call(RequestAppointment(plan), factory, builder);
    var err;
    err, tries := UpdateInTxWithRetry(db, call, envs);
    if err.Some? {
      if IsUniqueViolation(err, UNIQUE_KEY_CONSTRAINT) {
        if found :| found in afterwards.reservations && afterwards.reservations[found].key == plan.command.key {
          return Ok(found), tries;
        }
        return Err(backstopError), tries;
      }
      return Err(err.value), tries;
    }
    r := Ok(call.captured.value);
  }

  /** AppointmentRepository.ConfirmAppointment and CancelAppointment: the answer is the
      transaction's, with no backstop. */
  method ChangeStatusTx(db: Db, command: RepoCommand, factory: FactoryConfig, envs: nat -> Environment)
    returns (r: Result<Uuid, GoError>, tries: nat)
    requires !command.RequestAppointment? && forall n :: UniqueKeys(envs(n).arrived) && Identified(envs(n).arrived)
    modifies db
    ensures db.begun == old(db.begun) + tries && 1 <= tries <= 10
    ensures Stops(command, factory, envs, tries)
    ensures StatusEnds(command, factory, envs(tries), r, db.committed, db.commits - old(db.commits))
  {
    hide Stops, AttemptError, Judge;
    var unused := new AppointmentBuilder(AppointmentData("", "", "", 0, 0));
    var call := new Call(command, factory, unused);
    var err;
    err, tries := UpdateInTxWithRetry(db, call, envs);
    r := if err.Some? then Err(err.value) else Ok(call.captured.value);
  }

  ghost predicate StatusEnds(
    command: RepoCommand, factory: FactoryConfig, env: Environment, r: Result<Uuid, GoError>, committed: Store,
    commits: int)
  {
    Ends(command, factory, env, if r.Ok? then None else Some(r.error), committed, commits,
         if r.Ok? then Some(r.value) else None)
  }

  /** A serialization failure, wherever the attempt meets it, ends the loop only at the tenth
      attempt or when the back-off gives up; an attempt that the database does not fail is the
      last one, unless its rollback fails with a serialization failure. */
  lemma SerializationFailuresAreRetried(
    command: RepoCommand, factory: FactoryConfig, envs: nat -> Environment, tries: nat)
    requires Stops(command, factory, envs, tries)
    ensures var env := envs(tries);
            match FirstFailure(command, factory, env)
            case Some(e) => Retryable(e) ==> tries == 10 || env.givesUp
            case None => true
    ensures forall n | 1 <= n < tries && FirstFailure(command, factory, envs(n)) == None ::
              envs(n).rollbackError.Some? && Retryable(envs(n).rollbackError.value)
  {
    hide AttemptError, Judge, FirstFailure, Retryable, IsUniqueViolation;
    FailuresKeepTheirClass(command, factory, envs(tries));
    forall n | 1 <= n < tries && FirstFailure(command, factory, envs(n)) == None
      ensures envs(n).rollbackError.Some? && Retryable(envs(n).rollbackError.value)
    {
      assert Retries(command, factory, envs(n));
      FailuresKeepTheirClass(command, factory, envs(n));
      var e := Decision(command, factory, envs(n)).error;
      RefusalsArePermanent(e);
      if envs(n).rollbackError.Some? {
        JoinKeepsClass(App(e), envs(n).rollbackError.value, "", UNIQUE_KEY_CONSTRAINT);
      }
    }
  }

  /** A request whose last attempt meets a duplicate key, wherever, answers the reservation that
      the key has by then, and has written nothing; one that is refused answers the refusal. */
  lemma DuplicateKeysAreAnswered(
    plan: Plan, factory: FactoryConfig, env: Environment, afterwards: Store, backstopError: GoError,
    r: Result<Uuid, GoError>, committed: Store, commits: int)
    requires RequestEnds(plan, factory, env, afterwards, backstopError, r, committed, commits)
    ensures var failure := FirstFailure(RequestAppointment(plan), factory, env);
            var decision := Decision(RequestAppointment(plan), factory, env);
            && (failure.Some? && IsUniqueViolation(failure, UNIQUE_KEY_CONSTRAINT)
                && HasKey(afterwards, plan.command.key) ==>
                  && r.Ok? && r.value in afterwards.reservations && committed == env.meanwhile && commits == 0
                  && afterwards.reservations[r.value].key == plan.command.key)
            && (failure == None && decision.Err? && env.rollbackError == None ==>
                  r == Err(App(decision.error)) && committed == env.meanwhile && commits == 0)
            && (failure == None && decision.Ok? ==>
                  && r == Ok(decision.value.captured) && commits == 1
                  && committed == ApplyWrite(env.meanwhile, decision.value.write))
  {
    var call := RequestAppointment(plan);
    hide AttemptError, Judge, FirstFailure, Decision, HasKey, IsUniqueViolation, ApplyWrite, Retryable;
    FailuresKeepTheirClass(call, factory, env);
    var decision := Decision(call, factory, env);
    if FirstFailure(call, factory, env) == None && decision.Err? { RefusalsArePermanent(decision.error); }
  }

  // ---- The application service ----

  lemma ErrorsIgnoreVehicle(factory: FactoryConfig, c: BookCommand, vehicle: Uuid, now: Time)
    ensures BuilderErrors(factory, c.Data(vehicle), now) == BuilderErrors(factory, c.Data(0), now)
  {
  }

  /** What the world hands to one call of RequestBooking: its two readings of the clock, the
      tables its fast path reads, failures of the lookup, the vehicle's validation and the two
      other services, Go's table of printable characters, the vehicle's UUID, what sort.Slice
      makes of the listed technicians, and then the environment of each attempt and what the
      backstop's lookup meets. */
  datatype CallInputs = CallInputs(
    first: Time, fast: Store, lookupError: Option<GoError>, vehicleError: Option<GoError>, second: Time,
    catalogError: Option<GoError>, printable: char -> bool, workforceError: Option<GoError>, vehicle: Uuid,
    sorted: seq<Technician>, envs: nat -> Environment, afterwards: Store, backstopError: GoError)

  ghost predicate OrderlyInputs(
    catalog: map<string, CatalogEntry>, roster: Roster, c: BookCommand, inputs: CallInputs)
  {
    && UniqueKeys(inputs.fast) && UniqueKeys(inputs.afterwards)
    && (forall n :: UniqueKeys(inputs.envs(n).arrived) && Identified(inputs.envs(n).arrived))
    && (c.serviceType in catalog ==> SortedByScore(inputs.sorted, ListedTechnicians(catalog, roster, c)))
  }

  /** What stops RequestBooking between its fast path and the repository, checks in order. */
  function Refusal(
    factory: FactoryConfig, catalog: map<string, CatalogEntry>, roster: Roster, c: BookCommand,
    inputs: CallInputs): Option<GoError>
  {
    var details := BuilderErrors(factory, c.Data(inputs.vehicle), inputs.second);
    if inputs.vehicleError.Some? then inputs.vehicleError
    else if details != [] then Some(App(InvalidAppointment(details)))
    else if inputs.catalogError.Some? then inputs.catalogError
    else if c.serviceType !in catalog then Some(NoSuchService(c.serviceType, inputs.printable))
    else if inputs.workforceError.Some? then inputs.workforceError
    else if ListedTechnicians(catalog, roster, c) == [] || ListedBays(catalog, roster, c) == [] then
        Some(App(NoAvailability))
    else None
  }

  /** The answer RequestBooking gives without opening a transaction. */
  ghost function EarlyAnswer(
    factory: FactoryConfig, catalog: map<string, CatalogEntry>, roster: Roster, c: BookCommand, inputs: CallInputs)
    : Option<Result<Uuid, GoError>>
  {
    var late := StartTimeErrorDetail(factory, c.start, inputs.first);
    if late.Some? then Some(Err(App(InvalidAppointment([late.value]))))
    else if inputs.lookupError.Some? then Some(Err(inputs.lookupError.value))
    else
      match FindByKey(inputs.fast, c.key)
      case Some(found) => Some(Ok(found))
      case None =>
        match Refusal(factory, catalog, roster, c, inputs)
        case Some(e) => Some(Err(e))
        case None => None
  }

  /** When RequestBooking opens a transaction: an acceptable start, an unused key, a request in
      form, a known service, somebody and some bay to provide it, and no failure on the way. It
      answers early with a reservation exactly when the start is acceptable, the lookup works and
      the key is used, and with refusals of its own exactly in these cases. */
  lemma EarlyAnswers(
    config: FactoryConfig, catalog: map<string, CatalogEntry>, roster: Roster, c: BookCommand, inputs: CallInputs)
    ensures var early := EarlyAnswer(NewBookingFactory(config), catalog, roster, c, inputs);
            var looksUp := StartsInTime(config, c.start, inputs.first) && inputs.lookupError == None;
            var builds := looksUp && !HasKey(inputs.fast, c.key) && inputs.vehicleError == None;
            var lists := builds && WellFormed(config, c, inputs.second) && inputs.catalogError == None
                && c.serviceType in catalog;
            && (early == None <==> lists && inputs.workforceError == None && Staffable(catalog, roster, c))
            && (early.Some? && early.value.Ok? <==> looksUp && HasKey(inputs.fast, c.key))
            && (early.Some? && early.value.Ok? ==>
                  && early.value.value in inputs.fast.reservations
                  && inputs.fast.reservations[early.value.value].key == c.key)
            && (!StartsInTime(config, c.start, inputs.first) ==>
                  var detail :=
                      if c.start == ZERO_TIME then Required(StartTime)
                      else if c.start < inputs.first + InForce(config.minStartLeadTime, 3_600_000_000_000) then
                          TooSoon(StartTime)
                      else TooLate(StartTime);
                  early == Some(Err(App(InvalidAppointment([detail])))))
            && (builds && !WellFormed(config, c, inputs.second) ==>
                  early == Some(Err(App(InvalidAppointment(BuilderErrors(NewBookingFactory(config), c.Data(0),
                                                                         inputs.second))))))
            && (StartsInTime(config, c.start, inputs.first) && inputs.lookupError.Some? ==>
                  early == Some(Err(inputs.lookupError.value)))
            && (looksUp && !HasKey(inputs.fast, c.key) && inputs.vehicleError.Some? ==>
                  early == Some(Err(inputs.vehicleError.value)))
            && (builds && WellFormed(config, c, inputs.second) && inputs.catalogError.Some? ==>
                  early == Some(Err(inputs.catalogError.value)))
            && (lists && inputs.workforceError.Some? ==> early == Some(Err(inputs.workforceError.value)))
            && (builds && WellFormed(config, c, inputs.second) && inputs.catalogError == None
                && c.serviceType !in catalog ==>
                  early == Some(Err(NoSuchService(c.serviceType, inputs.printable))))
            && (lists && inputs.workforceError == None && !Staffable(catalog, roster, c) ==>
                  early == Some(Err(App(NoAvailability))))
  {
    hide HasKey, StartTimeErrorDetail, BuilderErrors, NewBookingFactory, ListedTechnicians, ListedBays, Staffable,
         App, NoSuchService;
    SettingsInForce(config, c.start, inputs.first, 0, 0, "", inputs.first);
    ErrorsIgnoreVehicle(NewBookingFactory(config), c, inputs.vehicle, inputs.second);
    WellFormedHasNoErrors(config, c, inputs.second);
    if c.serviceType in catalog { StaffableIsListed(catalog, roster, c); }
  }

  /** How RequestBooking ends: early, with no attempt made, or as the repository's request for
      the plan it has gathered. */
  ghost predicate BookingEnds(
    factory: FactoryConfig, catalog: map<string, CatalogEntry>, roster: Roster, c: BookCommand, inputs: CallInputs,
    r: Result<Uuid, GoError>, tries: int, committed: Store, commits: int)
  {
    match EarlyAnswer(factory, catalog, roster, c, inputs)
    case Some(answer) => r == answer && tries == 0 && commits == 0
    case None =>
      c.serviceType in catalog &&
      var plan := PlanOf(catalog, roster, c, inputs.vehicle, inputs.sorted, inputs.second);
      && Stops(RequestAppointment(plan), factory, inputs.envs, tries)
      && RequestEnds(plan, factory, inputs.envs(tries), inputs.afterwards, inputs.backstopError, r, committed, commits)
  }

  /** Service.RequestBooking */
  method RequestBooking(
    db: Db, factory: FactoryConfig, catalog: map<string, CatalogEntry>, roster: Roster, c: BookCommand,
    inputs: CallInputs)
    returns (r: Result<Uuid, GoError>, tries: nat)
    requires OrderlyInputs(catalog, roster, c, inputs)
    modifies db
    ensures BookingEnds(factory, catalog, roster, c, inputs, r, tries, db.committed, db.commits - old(db.commits))
    ensures db.begun == old(db.begun) + tries && tries <= 10 && (tries == 0 ==> unchanged(db))
  {
    hide App, NoSuchService, RequestEnds, Stops, Identified, EligibleTechnicians, EligibleBays, SortedByScore,
         BuilderErrors,
         StartTimeErrorDetail;
    tries := 0;
    var late := StartTimeErrorDetail(factory, c.start, inputs.first);
    if late.Some? {
      return Err(App(InvalidAppointment([late.value]))), 0;
    }
    if inputs.lookupError.Some? {
      return Err(inputs.lookupError.value), 0;
    }
    if found :| found in inputs.fast.reservations && inputs.fast.reservations[found].key == c.key {
      return Ok(found), 0;
    }
    if inputs.vehicleError.Some? {
      return Err(inputs.vehicleError.value), 0;
    }
    var builder := NewAppointmentBuilder(factory, c.Data(inputs.vehicle), inputs.second);
    if builder.Err? {
      return Err(App(builder.error)), 0;
    }
    if inputs.catalogError.Some? {
      return Err(inputs.catalogError.value), 0;
    }
    if c.serviceType !in catalog {
      return Err(NoSuchService(c.serviceType, inputs.printable)), 0;
    }
    var entry := catalog[c.serviceType];
    builder.value.WithDuration(entry.duration);
    var endTime := c.start + entry.duration;
    if inputs.workforceError.Some? {
      return Err(inputs.workforceError.value), 0;
    }
    var technicians := ListTechnicians(roster, c.dealership, entry.requiredCertifications, c.start, endTime);
    var bays := ListServiceBays(roster, c.dealership, c.start, endTime);
    if |technicians| == 0 || |bays| == 0 {
      return Err(App(NoAvailability)), 0;
    }
    r, tries := RequestAppointmentTx(db, Plan(c, inputs.vehicle, entry, inputs.sorted, bays, inputs.second), factory,
                                     builder.value, inputs.envs, inputs.afterwards, inputs.backstopError);
    StopsAfterOne(RequestAppointment(Plan(c, inputs.vehicle, entry, inputs.sorted, bays, inputs.second)), factory,
        inputs.envs, tries);
  }

  lemma StopsAfterOne(command: RepoCommand, factory: FactoryConfig, envs: nat -> Environment, tries: int)
    requires Stops(command, factory, envs, tries)
    ensures 1 <= tries <= MAX_TRIES
  {
  }
}
