/** The execution and success-handoff protocol as a state machine. An event is one SQL
    statement, one transaction, one section under a mutex, or a step of the environment.
    Every thread is a program counter; a thread that has ended keeps its place.

    The database hands out a single connection, so an open transaction excludes every
    other statement: `conn` names the thread that holds one open across a mutex section. */
module Protocol {
  import opened HookGraph
  import opened Executions
  import opened Retention

  /** What a thread does when dispatchSuccess returns: a trigger's handler leaves, a worker
      reports its handoff as done, and a retry's handler still has to read what it answers. It
      has claimed the generation `claimed` of `retried`; `own` is history, the successor that
      its own dispatch committed, 0 if none. */
  datatype After = Leave | ReportHandoff | AnswerRetry(retried: ExecId, claimed: int, own: ExecId)

  datatype Pc =
    | Gone
    // Trigger
    | Loaded(hook: HookId, target: HookId)
    | SyncRun(exec: ExecId)
    | SyncStore(exec: ExecId, result: Status)
    | Admitted(hook: HookId, target: HookId)
    | GivingBack(hook: HookId)
    | GivingBackCount
    // launchHook, on the thread that calls it
    | Naming(exec: ExecId, hook: HookId, after: After)
    | Registering(exec: ExecId, hook: HookId, after: After)
    | Tracking(exec: ExecId, hook: HookId, after: After)
    // launchHook, on the goroutine it starts
    | Starting(exec: ExecId, hook: HookId)
    | NotingCancel(exec: ExecId, hook: HookId)
    | Marking(exec: ExecId, hook: HookId)
    | Executing(exec: ExecId, hook: HookId)
    | Storing(exec: ExecId, hook: HookId, result: Status)
    | Freeing(exec: ExecId, hook: HookId, panicked: bool)
    | NotingPanic(exec: ExecId, hook: HookId)
    | Unregistering(exec: ExecId, hook: HookId)
    | Releasing(exec: ExecId, hook: HookId)
    | ReleasingCount(exec: ExecId)
    | EndingHandoff
    // dispatchSuccess
    | Dispatching(parent: ExecId, after: After)
    | InTransaction(parent: ExecId, target: HookId, begun: int, after: After)
    | Abandoning(parent: ExecId, target: HookId, after: After)
    | AbandoningCount(parent: ExecId, after: After)
    | RecordingFailure(parent: ExecId, after: After)
    // RetrySuccessor, before the SELECT that closes it
    | Answering(retried: ExecId, claimed: int, own: ExecId)
    // Cancel, between taking the channel and closing it
    | Closing(exec: ExecId)

  /** One admission: the execution it was given to, and (history) the thread that holds it. */
  datatype Slot = Slot(exec: ExecId, owner: nat)

  datatype Runner = Runner(capacity: nat, maxConcurrent: nat, inFlight: map<HookId, Slot>, slots: int, wg: int)

  /** Open switches, switches that have been closed, and (history) the executions whose
      switch was closed before Start returned. */
  datatype Cancels = Cancels(pending: set<ExecId>, closed: set<ExecId>, early: set<ExecId>)

  datatype State = State(
    now: int,
    hooks: Graph, ever: set<HookId>,   // ever: history, all hook ids there have been
    table: Table,
    conn: Option<nat>,
    runner: Runner,
    cancels: Cancels,
    threads: seq<Pc>)

  /** Steps of a request handler for a trigger. */
  datatype TriggerStep =
    | GiveUp
    | SyncInsert(at: int)
    | SyncExecute(result: Status)
    | SyncPanic
    | SyncFinish(stored: bool, at: int)
    | Admit
    | AsyncInsert(at: int)
    | AsyncInsertFails
    | GiveBack
    | GiveBackCount

  /** Steps of launchHook on the calling thread. */
  datatype LaunchStep = SetExecution | Register | TrackAndGo

  /** Steps of the goroutine launchHook starts. */
  datatype WorkStep =
    | StartRun
    | StartCanceled
    | LogCanceled(stored: bool, at: int)
    | MarkAsRunning(stored: bool, at: int)
    | Execute(result: Status)
    | Panic
    | Store(stored: bool, at: int)
    | FinishSlot
    | LogPanic(stored: bool, at: int)
    | Unregister
    | Release
    | ReleaseCount
    | EndHandoff

  /** Steps of dispatchSuccess. */
  datatype DispatchStep =
    | Skips
    | Fails
    | Admits
    | Commits(at: int)
    | Aborts
    | Abandon
    | AbandonCount
    | RecordFailure(stored: bool)
    | Answer(read: bool)

  datatype Event =
    | Trigger(i: nat, t: TriggerStep)
    | Launching(i: nat, l: LaunchStep)
    | Work(i: nat, w: WorkStep)
    | Dispatch(i: nat, d: DispatchStep)
    | CloseCancel(i: nat)
    // steps that are no thread's, or a new one's
    | Tick(to: int)
    | CreateHook(id: HookId, next: HookId)
    | UpdateHook(id: HookId, next: HookId)
    | DeleteHook(id: HookId)
    | Load(hook: HookId)
    | RefuseTrigger(hook: HookId, at: int)
    | Claim(parent: ExecId, attempt: int)
    | TakeCancel(exec: ExecId)
    | CleanUp(cutoff: int)
    | Restart(swept: bool, at: int)

  // ----- the parts of a step -----

  function AfterDispatch(after: After): Pc {
    match after
    case Leave => Gone
    case ReportHandoff => EndingHandoff
    case AnswerRetry(retried, claimed, own) => Answering(retried, claimed, own)
  }

  /** History only: a retry's handler remembers the successor it has committed. */
  function WithChild(after: After, child: ExecId): After {
    if after.AnswerRetry? then after.(own := child) else after
  }

  function Move(s: State, i: nat, pc: Pc): State
    requires i < |s.threads|
  {
    s.(threads := s.threads[i := pc])
  }

  function Spawn(s: State, pc: Pc): State {
    s.(threads := s.threads + [pc])
  }

  function WithTable(s: State, t: Table): State {
    s.(table := t)
  }

  /** Admit: the entry and the wait-group unit are taken in the same mutex section. */
  function HoldIn(r: Runner, hook: HookId, owner: nat): Runner {
    r.(inFlight := r.inFlight[hook := Slot(0, owner)], wg := r.wg + 1)
  }

  /** Release, first half: the entry goes before the wait-group unit does. */
  function DropIn(r: Runner, hook: HookId): Runner {
    r.(inFlight := r.inFlight - {hook})
  }

  function CountIn(r: Runner, delta: int): Runner {
    r.(wg := r.wg + delta)
  }

  function SetSlotIn(r: Runner, hook: HookId, slot: Slot): Runner {
    r.(inFlight := r.inFlight[hook := slot])
  }

  function SlotsIn(r: Runner, delta: int): Runner {
    r.(slots := r.slots + delta)
  }

  function Count(s: State, delta: int): State {
    s.(runner := CountIn(s.runner, delta))
  }

  function Hold(s: State, hook: HookId, owner: nat): State {
    s.(runner := HoldIn(s.runner, hook, owner))
  }

  function Drop(s: State, hook: HookId): State {
    s.(runner := DropIn(s.runner, hook))
  }

  function SetSlot(s: State, hook: HookId, slot: Slot): State {
    s.(runner := SetSlotIn(s.runner, hook, slot))
  }

  function Slots(s: State, delta: int): State {
    s.(runner := SlotsIn(s.runner, delta))
  }

  predicate AdmitsIn(r: Runner, hook: HookId) {
    hook !in r.inFlight && |r.inFlight| < r.capacity
  }

  predicate CanAdmit(s: State, hook: HookId) {
    AdmitsIn(s.runner, hook)
  }

  // A clock reading `at` may be older than the moment its statement takes effect, and
  // `stored == false` stands for a statement that fails.

  // ----- Trigger -----

  predicate CanTrigger(s: State, pc: Pc, t: TriggerStep) {
    match t
    case GiveUp => pc.Loaded?
    case SyncInsert(at) => pc.Loaded? && s.conn.None? && at <= s.now
    case SyncExecute(result) => pc.SyncRun? && (result == Succeeded || result == Failed)
    case SyncPanic => pc.SyncRun?
    case SyncFinish(stored, at) => pc.SyncStore? && (stored ==> s.conn.None?)
    case Admit => pc.Loaded? && CanAdmit(s, pc.hook)
    case AsyncInsert(at) => pc.Admitted? && s.conn.None? && at <= s.now
    case AsyncInsertFails => pc.Admitted?
    case GiveBack => pc.GivingBack?
    case GiveBackCount => pc.GivingBackCount?
  }

  function DoTrigger(s: State, i: nat, t: TriggerStep): State
    requires i < |s.threads| && CanTrigger(s, s.threads[i], t)
  {
    var pc := s.threads[i];
    match t
    case GiveUp => Move(s, i, Gone)
    case SyncInsert(at) =>
      WithTable(Move(s, i, SyncRun(s.table.nextId)), InsertRoot(s.table, pc.hook, pc.target, Running, at))
    case SyncExecute(result) => Move(s, i, SyncStore(pc.exec, result))
    case SyncPanic => Move(s, i, Gone)
    case SyncFinish(stored, at) =>
      WithTable(Move(s, i, Dispatching(pc.exec, Leave)),
                if stored then FinishExecution(s.table, pc.exec, pc.result, at) else s.table)
    case Admit => Hold(Move(s, i, Admitted(pc.hook, pc.target)), pc.hook, i)
    case AsyncInsert(at) =>
      WithTable(Move(s, i, Naming(s.table.nextId, pc.hook, Leave)),
                InsertRoot(s.table, pc.hook, pc.target, Queued, at))
    case AsyncInsertFails => Move(s, i, GivingBack(pc.hook))
    case GiveBack => Drop(Move(s, i, GivingBackCount), pc.hook)
    case GiveBackCount => Count(Move(s, i, Gone), -1)
  }

  // ----- launchHook -----

  predicate CanLaunch(pc: Pc, l: LaunchStep) {
    match l
    case SetExecution => pc.Naming?
    case Register => pc.Registering?
    case TrackAndGo => pc.Tracking?
  }

  function DoLaunch(s: State, i: nat, l: LaunchStep): State
    requires i < |s.threads| && CanLaunch(s.threads[i], l)
  {
    var pc := s.threads[i];
    match l
    case SetExecution =>
      SetSlot(Move(s, i, Registering(pc.exec, pc.hook, pc.after)), pc.hook, Slot(pc.exec, i))
    case Register =>
      Move(s, i, Tracking(pc.exec, pc.hook, pc.after)).(
        cancels := s.cancels.(pending := s.cancels.pending + {pc.exec}))
    case TrackAndGo =>
      var s1 := Spawn(Move(s, i, AfterDispatch(pc.after)), Starting(pc.exec, pc.hook));
      Count(SetSlot(s1, pc.hook, Slot(pc.exec, |s.threads|)), 1)
  }

  predicate CanWork(s: State, pc: Pc, w: WorkStep) {
    match w
    case StartRun => pc.Starting? && s.runner.slots < s.runner.maxConcurrent
    case StartCanceled => pc.Starting? && pc.exec in s.cancels.closed
    case LogCanceled(stored, at) => pc.NotingCancel? && (stored ==> s.conn.None?)
    case MarkAsRunning(stored, at) =>
      // the clock is read after the row was inserted
      pc.Marking? && at <= s.now && (stored ==> s.conn.None?)
      && (pc.exec in s.table.rows ==> s.table.rows[pc.exec].startedAt <= at)
    case Execute(result) =>
      // the last select asks the switch once more, so a closed one never reads as success
      pc.Executing?
      && (result == Succeeded || result == Failed || result == Canceled)
      && (result == Succeeded ==> pc.exec !in s.cancels.closed)
      && (result == Canceled ==> pc.exec in s.cancels.closed)
    case Panic => pc.Starting? || pc.NotingCancel? || pc.Marking? || pc.Executing? || pc.Storing?
    case Store(stored, at) => pc.Storing? && (stored ==> s.conn.None?)
    case FinishSlot => pc.Freeing?
    case LogPanic(stored, at) => pc.NotingPanic? && (stored ==> s.conn.None?)
    case Unregister => pc.Unregistering?
    case Release => pc.Releasing?
    case ReleaseCount => pc.ReleasingCount?
    case EndHandoff => pc.EndingHandoff?
  }

  function DoWork(s: State, i: nat, w: WorkStep): State
    requires i < |s.threads| && CanWork(s, s.threads[i], w)
  {
    var pc := s.threads[i];
    match w
    case StartRun =>
      Slots(Move(s, i, Marking(pc.exec, pc.hook)), 1).(
        cancels := if pc.exec in s.cancels.closed then s.cancels.(early := s.cancels.early + {pc.exec}) else s.cancels)
    case StartCanceled =>
      Move(s, i, NotingCancel(pc.exec, pc.hook)).(
        cancels := s.cancels.(early := s.cancels.early + {pc.exec}))
    case LogCanceled(stored, at) =>
      WithTable(Move(s, i, Unregistering(pc.exec, pc.hook)),
                if stored then LogExecutionEnd(s.table, pc.exec, Canceled, at) else s.table)
    case MarkAsRunning(stored, at) =>
      WithTable(Move(s, i, Executing(pc.exec, pc.hook)),
                if stored then MarkRunning(s.table, pc.exec, at) else s.table)
    case Execute(result) => Move(s, i, Storing(pc.exec, pc.hook, result))
    case Panic =>
      if pc.Starting? || pc.NotingCancel?
      then Move(s, i, NotingPanic(pc.exec, pc.hook))
      else Move(s, i, Freeing(pc.exec, pc.hook, true))
    case Store(stored, at) =>
      WithTable(Move(s, i, Freeing(pc.exec, pc.hook, false)),
                if stored then FinishExecution(s.table, pc.exec, pc.result, at) else s.table)
    case FinishSlot =>
      Slots(Move(s, i, if pc.panicked then NotingPanic(pc.exec, pc.hook) else Unregistering(pc.exec, pc.hook)), -1)
    case LogPanic(stored, at) =>
      WithTable(Move(s, i, Unregistering(pc.exec, pc.hook)),
                if stored then LogExecutionEnd(s.table, pc.exec, Failed, at) else s.table)
    case Unregister =>
      Move(s, i, Releasing(pc.exec, pc.hook)).(
        cancels := s.cancels.(pending := s.cancels.pending - {pc.exec}))
    case Release => Drop(Move(s, i, ReleasingCount(pc.exec)), pc.hook)
    case ReleaseCount => Count(Move(s, i, Dispatching(pc.exec, ReportHandoff)), -1)
    case EndHandoff => Count(Move(s, i, Gone), -1)
  }

  // ----- dispatchSuccess -----

  predicate CanDispatch(s: State, pc: Pc, d: DispatchStep) {
    match d
    case Skips => pc.Dispatching? && s.conn.None? && PlanDispatch(s.table, s.hooks, pc.parent).Skip?
    case Fails => pc.Dispatching?
    case Admits =>
      pc.Dispatching? && s.conn.None?
      && PlanDispatch(s.table, s.hooks, pc.parent).Launch?
      && CanAdmit(s, PlanDispatch(s.table, s.hooks, pc.parent).target)
    case Commits(at) =>
      pc.InTransaction? && pc.begun <= at <= s.now
      && PlanDispatch(s.table, s.hooks, pc.parent).Launch?
    case Aborts => pc.InTransaction?
    case Abandon => pc.Abandoning?
    case AbandonCount => pc.AbandoningCount?
    case RecordFailure(stored) => pc.RecordingFailure? && (stored ==> s.conn.None?)
    case Answer(read) => pc.Answering? && (read ==> s.conn.None?)
  }

  function DoDispatch(s: State, i: nat, d: DispatchStep): State
    requires i < |s.threads| && CanDispatch(s, s.threads[i], d)
  {
    var pc := s.threads[i];
    match d
    case Skips => Move(s, i, AfterDispatch(pc.after))
    case Fails => Move(s, i, RecordingFailure(pc.parent, pc.after))
    case Admits =>
      var target := PlanDispatch(s.table, s.hooks, pc.parent).target;
      Hold(Move(s, i, InTransaction(pc.parent, target, s.now, pc.after)), target, i).(conn := Some(i))
    case Commits(at) =>
      WithTable(Move(s, i, Naming(s.table.nextId, pc.target, WithChild(pc.after, s.table.nextId))),
                CommitSuccessor(s.table, s.hooks, pc.parent, at)).(conn := None)
    case Aborts => Move(s, i, Abandoning(pc.parent, pc.target, pc.after))
    case Abandon => Drop(Move(s, i, AbandoningCount(pc.parent, pc.after)), pc.target)
    case AbandonCount => Count(Move(s, i, RecordingFailure(pc.parent, pc.after)), -1).(conn := None)
    case RecordFailure(stored) =>
      WithTable(Move(s, i, AfterDispatch(pc.after)),
                if stored then RecordHandoffFailure(s.table, pc.parent) else s.table)
    case Answer(read) => Move(s, i, Gone)
  }

  // ----- all steps -----

  predicate Enabled(s: State, e: Event) {
    match e
    case Trigger(i, t) => i < |s.threads| && CanTrigger(s, s.threads[i], t)
    case Launching(i, l) => i < |s.threads| && CanLaunch(s.threads[i], l)
    case Work(i, w) => i < |s.threads| && CanWork(s, s.threads[i], w)
    case Dispatch(i, d) => i < |s.threads| && CanDispatch(s, s.threads[i], d)
    case CloseCancel(i) => i < |s.threads| && s.threads[i].Closing?
    case Tick(to) => s.now <= to
    case CreateHook(id, next) =>
      s.conn.None? && id != NONE && id !in s.hooks && Validate(s.hooks, id, next).Accepted?
    case UpdateHook(id, next) => s.conn.None? && id in s.hooks && Validate(s.hooks, id, next).Accepted?
    case DeleteHook(id) =>
      s.conn.None? && id in s.hooks && (forall h :: h in s.hooks.Keys ==> s.hooks[h] != id)
    case Load(hook) => s.conn.None? && hook in s.hooks
    case RefuseTrigger(hook, at) => s.conn.None? && at <= s.now
    case Claim(parent, attempt) => s.conn.None? && JudgeRetry(s.table, parent, attempt).Claimed?
    case TakeCancel(exec) => exec in s.cancels.pending
    case CleanUp(cutoff) => s.conn.None?
    case Restart(swept, at) => at <= s.now
  }

  function Apply(s: State, e: Event): State
    requires Enabled(s, e)
  {
    match e
    case Trigger(i, t) => DoTrigger(s, i, t)
    case Launching(i, l) => DoLaunch(s, i, l)
    case Work(i, w) => DoWork(s, i, w)
    case Dispatch(i, d) => DoDispatch(s, i, d)
    case CloseCancel(i) =>
      Move(s, i, Gone).(cancels := s.cancels.(closed := s.cancels.closed + {s.threads[i].exec}))
    case Tick(to) => s.(now := to)
    case CreateHook(id, next) => s.(hooks := s.hooks[id := next], ever := s.ever + {id})
    case UpdateHook(id, next) => s.(hooks := s.hooks[id := next])
    case DeleteHook(id) => s.(hooks := s.hooks - {id})
    case Load(hook) => Spawn(s, Loaded(hook, s.hooks[hook]))
    case RefuseTrigger(hook, at) => WithTable(s, InsertRefusal(s.table, hook, at))
    case Claim(parent, attempt) =>
      WithTable(Spawn(s, Dispatching(parent, AnswerRetry(parent, attempt, 0))), ClaimRetry(s.table, parent, attempt))
    case TakeCancel(exec) =>
      Spawn(s, Closing(exec)).(cancels := s.cancels.(pending := s.cancels.pending - {exec}))
    case CleanUp(cutoff) => WithTable(s, CleanTable(s.table, cutoff))
    case Restart(swept, at) => Reborn(s, swept, at)
  }

  /** The process is gone with all its threads; the start-up sweep may fail, and then
      changes nothing. */
  function Reborn(s: State, swept: bool, at: int): State {
    s.(threads := [], conn := None,
       runner := s.runner.(inFlight := map[], slots := 0, wg := 0),
       cancels := s.cancels.(pending := {}, closed := {}),
       table := if swept then Sweep(s.table, at) else s.table)
  }

  // ----- runs -----

  /** A row from before the success columns existed: outside any chain. */
  predicate Legacy(r: Row, now: int) {
    && r.parent == 0 && r.path == [] && r.target == NONE
    && r.handoff == NoHandoff && r.child == 0 && r.attempt == 0
    && r.status != TimedOut && (r.finishedAt.None? <==> Active(r.status)) && r.startedAt <= now
  }

  /** An idle process over a table that holds nothing but legacy rows. */
  ghost predicate Init(s: State) {
    && WellFormed(s.hooks) && s.hooks.Keys == s.ever
    && s.table.nextId > 0
    && s.table.births.Keys == s.table.rows.Keys
    && (forall id :: id in s.table.rows ==>
          0 < id < s.table.nextId && Legacy(s.table.rows[id], s.now) && s.table.births[id] == Birth(0, 0, id))
    && s.conn.None? && s.threads == []
    && s.runner.maxConcurrent >= 1 && s.runner.capacity >= s.runner.maxConcurrent
    && s.runner.inFlight == map[] && s.runner.slots == 0 && s.runner.wg == 0
    && s.cancels == Cancels({}, {}, {})
  }

  /** The state after a sequence of events, if each of them was enabled in its turn. */
  ghost function Run(s: State, events: seq<Event>): Option<State>
    decreases |events|
  {
    if events == [] then Some(s)
    else if Enabled(s, events[0]) then Run(Apply(s, events[0]), events[1..])
    else None
  }
}
