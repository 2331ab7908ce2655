/** Which thread may write which row. An execution has at most one responsible thread,
    from the insert of its row to the end of its handoff; what that thread knows about the
    row is what makes the two statements that do not check the status safe. */
module ProtocolThreads {
  import opened HookGraph
  import opened Executions
  import opened Retention
  import opened Protocol

  /** The execution a thread is responsible for; 0 if none. */
  function Charge(pc: Pc): ExecId {
    match pc
    case SyncRun(exec) => exec
    case SyncStore(exec, _) => exec
    case Naming(exec, _, _) => exec
    case Registering(exec, _, _) => exec
    case Tracking(exec, _, _) => exec
    case Starting(exec, _) => exec
    case NotingCancel(exec, _) => exec
    case Marking(exec, _) => exec
    case Executing(exec, _) => exec
    case Storing(exec, _, _) => exec
    case Freeing(exec, _, _) => exec
    case NotingPanic(exec, _) => exec
    case Unregistering(exec, _) => exec
    case Releasing(exec, _) => exec
    case ReleasingCount(exec) => exec
    case Dispatching(parent, _) => parent
    case InTransaction(parent, _, _, _) => parent
    case Abandoning(parent, _, _) => parent
    case AbandoningCount(parent, _) => parent
    case RecordingFailure(parent, _) => parent
    case _ => 0
  }

  predicate HoldsTransaction(pc: Pc) {
    pc.InTransaction? || pc.Abandoning? || pc.AbandoningCount?
  }

  /** How far the execution is that a thread is responsible for: its row is still
      queued, it has not ended, or its result was handed to the store and the handoff,
      if there is one, is open. */
  datatype Phase = Idle | Before | During | Afterwards

  function PhaseOf(pc: Pc): Phase {
    match pc
    case Naming(_, _, _) => Before
    case Registering(_, _, _) => Before
    case Tracking(_, _, _) => Before
    case Starting(_, _) => Before
    case NotingCancel(_, _) => Before
    case Marking(_, _) => Before
    case SyncRun(_) => During
    case SyncStore(_, _) => During
    case Executing(_, _) => During
    case Storing(_, _, _) => During
    case NotingPanic(_, _) => During
    case Freeing(_, _, panicked) => if panicked then During else Afterwards
    case Unregistering(_, _) => Afterwards
    case Releasing(_, _) => Afterwards
    case ReleasingCount(_) => Afterwards
    case Dispatching(_, _) => Afterwards
    case InTransaction(_, _, _, _) => Afterwards
    case Abandoning(_, _, _) => Afterwards
    case AbandoningCount(_, _) => Afterwards
    case RecordingFailure(_, _) => Afterwards
    case _ => Idle
  }

  ghost predicate StartedBy(t: Table, at: int) {
    forall id :: id in t.rows ==> t.rows[id].startedAt <= at
  }

  /** What a thread knows about the row it is responsible for. */
  ghost predicate KnowsRow(phase: Phase, id: ExecId, t: Table) {
    match phase
    case Idle => id == 0
    case Before => 0 < id < t.nextId && id in t.rows && t.rows[id].status == Queued
    case During => 0 < id < t.nextId && id in t.rows && Active(t.rows[id].status)
    case Afterwards =>
      0 < id < t.nextId && (id in t.rows ==> t.rows[id].handoff == NoHandoff || t.rows[id].handoff == Pending)
  }

  /** The hook a worker runs, or the caller of launchHook is about to have run. */
  function HookOf(pc: Pc): Option<HookId> {
    match pc
    case Naming(_, hook, _) => Some(hook)
    case Registering(_, hook, _) => Some(hook)
    case Tracking(_, hook, _) => Some(hook)
    case Starting(_, hook) => Some(hook)
    case NotingCancel(_, hook) => Some(hook)
    case Marking(_, hook) => Some(hook)
    case Executing(_, hook) => Some(hook)
    case Storing(_, hook, _) => Some(hook)
    case NotingPanic(_, hook) => Some(hook)
    case Freeing(_, hook, panicked) => if panicked then Some(hook) else None
    case _ => None
  }

  ghost predicate KnowsHook(pc: Pc, t: Table) {
    HookOf(pc).Some? ==> Charge(pc) in t.rows && t.rows[Charge(pc)].hook == HookOf(pc).value
  }

  /** A thread that was told a result was told one that can be stored. */
  predicate KnowsResult(pc: Pc) {
    pc.SyncStore? || pc.Storing? ==> pc.result == Succeeded || Dead(pc.result)
  }

  ghost predicate KnowsTransaction(pc: Pc, i: nat, s: State) {
    && (HoldsTransaction(pc) ==> s.conn == Some(i))
    && (pc.InTransaction? ==>
          PlanDispatch(s.table, s.hooks, pc.parent) == Launch(pc.target)
          && pc.begun <= s.now && StartedBy(s.table, pc.begun))
  }

  ghost predicate ThreadOk(s: State, i: nat)
    requires i < |s.threads|
  {
    var pc := s.threads[i];
    && KnowsRow(PhaseOf(pc), Charge(pc), s.table) && KnowsHook(pc, s.table) && KnowsResult(pc) && KnowsTransaction(pc, i, s)
    && (pc.Loaded? || pc.Admitted? ==> pc.hook in s.ever)
  }

  ghost predicate Exclusive(ts: seq<Pc>) {
    forall i, j :: 0 <= i < j < |ts| && Charge(ts[i]) != 0 ==> Charge(ts[i]) != Charge(ts[j])
  }

  ghost predicate ThreadsOk(s: State) {
    && (forall i {:trigger ThreadOk(s, i)} :: 0 <= i < |s.threads| ==> ThreadOk(s, i))
    && Exclusive(s.threads)
  }

  ghost predicate BaseOk(s: State) {
    && TableOk(s.table, s.now, s.ever)
    && WellFormed(s.hooks) && s.hooks.Keys <= s.ever
    && ThreadsOk(s)
  }

  // ----- other threads do not notice -----

  /** `t'` differs from `t` at row `id` and at new ids only. */
  ghost predicate OnlyTouches(t: Table, t': Table, id: ExecId) {
    && t.nextId <= t'.nextId
    && (forall x :: x in t.rows && x != id ==> x in t'.rows && t'.rows[x] == t.rows[x])
    && (forall x :: x in t'.rows && x < t.nextId && x != id ==> x in t.rows)
  }

  lemma OthersDoNotNotice(pc: Pc, t: Table, t': Table, id: ExecId)
    requires KnowsRow(PhaseOf(pc), Charge(pc), t) && KnowsHook(pc, t)
    requires OnlyTouches(t, t', id) && Charge(pc) != id
    ensures KnowsRow(PhaseOf(pc), Charge(pc), t') && KnowsHook(pc, t')
  {
  }

  /** A step of thread `i` to `pc`, which may write row `id` and insert a row, keeps
      everything the other threads know; `pc` must be fine on the new table. */
  lemma MoveKeepsThreads(s: State, s': State, i: nat, pc: Pc, id: ExecId)
    requires ThreadsOk(s) && i < |s.threads|
    requires s'.threads == s.threads[i := pc]
    requires OnlyTouches(s.table, s'.table, id)
    requires s.conn.None? || s.conn == Some(i) || (s'.table == s.table && s'.conn == s.conn)
    requires s'.hooks == s.hooks && s'.ever == s.ever && s'.now == s.now
    requires id == 0 || Charge(s.threads[i]) == id
    requires Charge(pc) == 0 || Charge(pc) == Charge(s.threads[i]) || Charge(pc) == s.table.nextId
    requires ThreadOk(s', i)
    ensures ThreadsOk(s')
  {
    forall j | 0 <= j < |s'.threads|
      ensures ThreadOk(s', j)
    {
      if j != i {
        assert ThreadOk(s, j);
        assert Charge(s.threads[j]) != id || id == 0;
        if id == 0 && Charge(s.threads[j]) == 0 {
        } else {
          OthersDoNotNotice(s.threads[j], s.table, s'.table, id);
        }
      }
    }
    forall j, k | 0 <= j < k < |s'.threads| && Charge(s'.threads[j]) != 0
      ensures Charge(s'.threads[j]) != Charge(s'.threads[k])
    {
      assert ThreadOk(s, j) && ThreadOk(s, k);
    }
  }

  /** A new thread without a charge, or with one nobody has, keeps everything too. */
  lemma SpawnKeepsThreads(s: State, s': State, pc: Pc)
    requires ThreadsOk(s)
    requires s'.threads == s.threads + [pc]
    requires s' == s.(threads := s'.threads, cancels := s'.cancels, runner := s'.runner)
    requires Charge(pc) != 0 ==> forall j :: 0 <= j < |s.threads| ==> Charge(s.threads[j]) != Charge(pc)
    requires ThreadOk(s', |s.threads|)
    ensures ThreadsOk(s')
  {
    forall j | 0 <= j < |s'.threads|
      ensures ThreadOk(s', j)
    {
      if j < |s.threads| { assert ThreadOk(s, j); }
    }
  }

  // ----- every step keeps the base invariant -----

  /** A move that needs to know no more about the table than the thread knew before. */
  predicate Relaxes(pc: Pc, pc': Pc) {
    && (Charge(pc') == Charge(pc) || (Charge(pc') == 0 && PhaseOf(pc').Idle?))
    && (PhaseOf(pc') == PhaseOf(pc) || PhaseOf(pc').Idle? || (PhaseOf(pc).Before? && PhaseOf(pc').During?))
    && (PhaseOf(pc').Idle? ==> Charge(pc') == 0)
    && (HookOf(pc').None? || HookOf(pc') == HookOf(pc))
    && KnowsResult(pc')
    && !pc'.InTransaction? && (HoldsTransaction(pc') ==> HoldsTransaction(pc))
    && (pc'.Admitted? ==> pc.Loaded? && pc.hook == pc'.hook) && !pc'.Loaded?
  }

  lemma RelaxedMoveKnows(s: State, s': State, i: nat)
    requires i < |s.threads| && i < |s'.threads| && ThreadOk(s, i)
    requires Relaxes(s.threads[i], s'.threads[i])
    requires s'.table == s.table && s'.ever == s.ever
    requires HoldsTransaction(s'.threads[i]) ==> s'.conn == s.conn
    ensures ThreadOk(s', i)
  {
  }

  /** A step that leaves the table alone and moves on within the same charge. */
  lemma QuietMove(s: State, s': State, i: nat, pc: Pc)
    requires BaseOk(s) && i < |s.threads|
    requires s'.threads == s.threads[i := pc]
    requires s'.table == s.table && s'.hooks == s.hooks && s'.ever == s.ever && s'.now == s.now
    requires s'.conn == s.conn || s.conn.None? || s.conn == Some(i)
    requires Charge(pc) == 0 || Charge(pc) == Charge(s.threads[i])
    requires ThreadOk(s', i)
    ensures BaseOk(s')
  {
    MoveKeepsThreads(s, s', i, pc, 0);
  }

  /** A step that writes the row the thread is responsible for, or inserts one. */
  lemma WritingMove(s: State, s': State, i: nat, pc: Pc)
    requires BaseOk(s) && i < |s.threads|
    requires s'.threads == s.threads[i := pc]
    requires s'.hooks == s.hooks && s'.ever == s.ever && s'.now == s.now
    requires TableOk(s'.table, s.now, s.ever) && OnlyTouches(s.table, s'.table, Charge(s.threads[i]))
    requires s.conn.None? || s.conn == Some(i)
    requires Charge(pc) == 0 || Charge(pc) == Charge(s.threads[i]) || Charge(pc) == s.table.nextId
    requires ThreadOk(s', i)
    ensures BaseOk(s')
  {
    MoveKeepsThreads(s, s', i, pc, Charge(s.threads[i]));
  }

  lemma InsertKeepsBase(s: State, i: nat, t: TriggerStep)
    requires BaseOk(s) && i < |s.threads| && CanTrigger(s, s.threads[i], t)
    requires t.SyncInsert? || t.AsyncInsert?
    ensures BaseOk(DoTrigger(s, i, t))
  {
    var pc := s.threads[i];
    var s' := DoTrigger(s, i, t);
    assert ThreadOk(s, i);
    var status := if t.SyncInsert? then Running else Queued;
    InsertRootKeepsTable(s.table, pc.hook, pc.target, status, t.at, s.now, s.ever);
    WritingMove(s, s', i, s'.threads[i]);
  }

  lemma TriggerKeepsBase(s: State, i: nat, t: TriggerStep)
    requires BaseOk(s) && i < |s.threads| && CanTrigger(s, s.threads[i], t)
    ensures BaseOk(DoTrigger(s, i, t))
  {
    var pc := s.threads[i];
    var s' := DoTrigger(s, i, t);
    assert ThreadOk(s, i);
    if t.SyncInsert? || t.AsyncInsert? {
      InsertKeepsBase(s, i, t);
    } else if t.SyncFinish? {
      FinishKeepsBase(s, s', i, t.stored, t.at);
    } else {
      QuietTriggerRelaxes(s, i, t);
      RelaxedMoveKnows(s, s', i);
      QuietMove(s, s', i, s'.threads[i]);
    }
  }

  lemma QuietTriggerRelaxes(s: State, i: nat, t: TriggerStep)
    requires i < |s.threads| && CanTrigger(s, s.threads[i], t)
    requires !t.SyncInsert? && !t.AsyncInsert? && !t.SyncFinish?
    ensures Relaxes(s.threads[i], DoTrigger(s, i, t).threads[i])
    ensures DoTrigger(s, i, t).table == s.table && DoTrigger(s, i, t).conn == s.conn
  {
  }

  /** finishHookExecution leaves a handoff that is empty or pending, whether or not the
      statement fails. */
  lemma FinishKeepsBase(s: State, s': State, i: nat, stored: bool, at: int)
    requires BaseOk(s) && i < |s.threads| && (stored ==> s.conn.None?)
    requires s.threads[i].SyncStore? || s.threads[i].Storing?
    requires |s'.threads| == |s.threads| && s'.threads == s.threads[i := s'.threads[i]]
    requires s' == s.(threads := s'.threads, table := s'.table)
    requires s'.table == if stored then FinishExecution(s.table, s.threads[i].exec, s.threads[i].result, at) else s.table
    requires s'.threads[i].Dispatching? || (s'.threads[i].Freeing? && !s'.threads[i].panicked)
    requires Charge(s'.threads[i]) == s.threads[i].exec
    ensures BaseOk(s')
  {
    var pc := s.threads[i];
    assert ThreadOk(s, i);
    assert RowOk(pc.exec, s.table.rows[pc.exec], s.now, s.ever);
    if stored {
      FinishExecutionKeepsTable(s.table, pc.exec, pc.result, at, s.now, s.ever);
      WritingMove(s, s', i, s'.threads[i]);
    } else {
      QuietMove(s, s', i, s'.threads[i]);
    }
  }

  lemma LaunchRelaxes(s: State, i: nat, l: LaunchStep)
    requires i < |s.threads| && CanLaunch(s.threads[i], l)
    ensures Relaxes(s.threads[i], DoLaunch(s, i, l).threads[i])
    ensures DoLaunch(s, i, l).table == s.table && DoLaunch(s, i, l).conn == s.conn
  {
  }

  lemma GoKnows(s: State, i: nat)
    requires i < |s.threads| && ThreadOk(s, i) && s.threads[i].Tracking?
    ensures ThreadOk(DoLaunch(s, i, TrackAndGo), |s.threads|)
  {
  }

  lemma LaunchKeepsBase(s: State, i: nat, l: LaunchStep)
    requires BaseOk(s) && i < |s.threads| && CanLaunch(s.threads[i], l)
    ensures BaseOk(DoLaunch(s, i, l))
  {
    var pc := s.threads[i];
    var s' := DoLaunch(s, i, l);
    assert ThreadOk(s, i);
    LaunchRelaxes(s, i, l);
    RelaxedMoveKnows(s, s', i);
    if l.TrackAndGo? {
      GoKnows(s, i);
      var s1 := Move(s, i, AfterDispatch(pc.after));
      QuietMove(s, s1, i, s1.threads[i]);
      SpawnKeepsThreads(s1, s', Starting(pc.exec, pc.hook));
    } else {
      QuietMove(s, s', i, s'.threads[i]);
    }
  }

  lemma LogEndKeepsBase(s: State, s': State, i: nat, stored: bool, status: Status, at: int)
    requires BaseOk(s) && i < |s.threads| && (stored ==> s.conn.None?)
    requires s.threads[i].NotingCancel? || s.threads[i].NotingPanic?
    requires Dead(status)
    requires s'.threads == s.threads[i := Unregistering(s.threads[i].exec, s.threads[i].hook)]
    requires s' == s.(threads := s'.threads, table := s'.table)
    requires s'.table == if stored then LogExecutionEnd(s.table, s.threads[i].exec, status, at) else s.table
    ensures BaseOk(s')
  {
    var pc := s.threads[i];
    assert ThreadOk(s, i);
    assert RowOk(pc.exec, s.table.rows[pc.exec], s.now, s.ever);
    if stored {
      LogEndIsWritten(s, s', i, status, at);
    } else {
      QuietMove(s, s', i, s'.threads[i]);
    }
  }

  lemma LogEndIsWritten(s: State, s': State, i: nat, status: Status, at: int)
    requires BaseOk(s) && i < |s.threads| && s.conn.None? && Dead(status)
    requires s.threads[i].NotingCancel? || s.threads[i].NotingPanic?
    requires s' == s.(threads := s.threads[i := Unregistering(s.threads[i].exec, s.threads[i].hook)],
                      table := LogExecutionEnd(s.table, s.threads[i].exec, status, at))
    ensures BaseOk(s')
  {
    var pc := s.threads[i];
    assert ThreadOk(s, i);
    assert RowOk(pc.exec, s.table.rows[pc.exec], s.now, s.ever);
    LogExecutionEndKeepsTable(s.table, pc.exec, status, at, s.now, s.ever);
    LogEndTouches(s.table, pc.exec, status, at);
    WritingMove(s, s', i, s'.threads[i]);
  }

  lemma LogEndTouches(t: Table, id: ExecId, status: Status, at: int)
    ensures OnlyTouches(t, LogExecutionEnd(t, id, status, at), id)
  {
  }

  lemma MarkKeepsBase(s: State, i: nat, stored: bool, at: int)
    requires BaseOk(s) && i < |s.threads| && CanWork(s, s.threads[i], MarkAsRunning(stored, at))
    ensures BaseOk(DoWork(s, i, MarkAsRunning(stored, at)))
  {
    var pc := s.threads[i];
    var s' := DoWork(s, i, MarkAsRunning(stored, at));
    assert ThreadOk(s, i);
    if stored {
      MarkRunningKeepsTable(s.table, pc.exec, at, s.now, s.ever);
      WritingMove(s, s', i, s'.threads[i]);
    } else {
      QuietMove(s, s', i, s'.threads[i]);
    }
  }

  lemma QuietWorkRelaxes(s: State, i: nat, w: WorkStep)
    requires i < |s.threads| && CanWork(s, s.threads[i], w)
    requires !w.LogCanceled? && !w.LogPanic? && !w.Store? && !w.MarkAsRunning?
    ensures Relaxes(s.threads[i], DoWork(s, i, w).threads[i])
    ensures DoWork(s, i, w).table == s.table && DoWork(s, i, w).conn == s.conn
  {
    if w.StartRun? || w.StartCanceled? || w.Execute? || w.Panic? || w.FinishSlot? { RunRelaxes(s, i, w); }
  }

  lemma RunRelaxes(s: State, i: nat, w: WorkStep)
    requires i < |s.threads| && CanWork(s, s.threads[i], w)
    requires w.StartRun? || w.StartCanceled? || w.Execute? || w.Panic? || w.FinishSlot?
    ensures Relaxes(s.threads[i], DoWork(s, i, w).threads[i])
    ensures DoWork(s, i, w).table == s.table && DoWork(s, i, w).conn == s.conn
  {
  }

  lemma QuietWorkKeepsBase(s: State, i: nat, w: WorkStep)
    requires BaseOk(s) && i < |s.threads| && CanWork(s, s.threads[i], w)
    requires !w.LogCanceled? && !w.LogPanic? && !w.Store? && !w.MarkAsRunning?
    ensures BaseOk(DoWork(s, i, w))
  {
    var s' := DoWork(s, i, w);
    assert ThreadOk(s, i);
    QuietWorkRelaxes(s, i, w);
    RelaxedMoveKnows(s, s', i);
    QuietMove(s, s', i, s'.threads[i]);
  }

  lemma WorkKeepsBase(s: State, i: nat, w: WorkStep)
    requires BaseOk(s) && i < |s.threads| && CanWork(s, s.threads[i], w)
    ensures BaseOk(DoWork(s, i, w))
  {
    match w
    case LogCanceled(stored, at) => LogEndKeepsBase(s, DoWork(s, i, w), i, stored, Canceled, at);
    case LogPanic(stored, at) => LogEndKeepsBase(s, DoWork(s, i, w), i, stored, Failed, at);
    case Store(stored, at) => FinishKeepsBase(s, DoWork(s, i, w), i, stored, at);
    case MarkAsRunning(stored, at) => MarkKeepsBase(s, i, stored, at);
    case _ => QuietWorkKeepsBase(s, i, w);
  }

  lemma TableOkAt(t: Table, now: int, ever: set<HookId>, at: int)
    requires TableOk(t, now, ever) && StartedBy(t, at)
    ensures TableOk(t, at, ever)
  {
    forall id | id in t.rows
      ensures RowOk(id, t.rows[id], at, ever)
    {
      assert RowOk(id, t.rows[id], now, ever);
    }
  }

  lemma CommitKnows(s: State, i: nat, at: int)
    requires i < |s.threads| && ThreadOk(s, i) && CanDispatch(s, s.threads[i], Commits(at))
    requires s.threads[i].parent < s.table.nextId && s.table.nextId !in s.table.rows && 0 < s.table.nextId
    ensures ThreadOk(DoDispatch(s, i, Commits(at)), i)
    ensures Charge(DoDispatch(s, i, Commits(at)).threads[i]) == s.table.nextId
    ensures OnlyTouches(s.table, DoDispatch(s, i, Commits(at)).table, s.threads[i].parent)
    ensures var s' := DoDispatch(s, i, Commits(at));
            && s'.threads == s.threads[i := s'.threads[i]] && s'.hooks == s.hooks && s'.ever == s.ever && s'.now == s.now
            && s'.table == CommitSuccessor(s.table, s.hooks, s.threads[i].parent, at)
            && s.conn == Some(i) && Charge(s.threads[i]) == s.threads[i].parent
            && StartedBy(s.table, s.threads[i].begun)
  {
  }

  /** The row is written with a clock reading from within the transaction. */
  lemma CommitKeepsTable(t: Table, hooks: Graph, parent: ExecId, begun: int, at: int, now: int, ever: set<HookId>)
    requires TableOk(t, now, ever) && StartedBy(t, begun) && begun <= at <= now
    requires PlanDispatch(t, hooks, parent).Launch? && hooks.Keys <= ever
    ensures TableOk(CommitSuccessor(t, hooks, parent, at), now, ever)
  {
    TableOkAt(t, now, ever, at);
    CommitSuccessorKeepsTable(t, hooks, parent, at, ever);
    LaterIsFine(CommitSuccessor(t, hooks, parent, at), at, ever, now, ever);
  }

  lemma CommitKeepsBase(s: State, i: nat, at: int)
    requires BaseOk(s) && i < |s.threads| && CanDispatch(s, s.threads[i], Commits(at))
    ensures BaseOk(DoDispatch(s, i, Commits(at)))
  {
    var s' := DoDispatch(s, i, Commits(at));
    assert ThreadOk(s, i);
    CommitKnows(s, i, at);
    CommitKeepsTable(s.table, s.hooks, s.threads[i].parent, s.threads[i].begun, at, s.now, s.ever);
    WritingMove(s, s', i, s'.threads[i]);
  }

  lemma AdmitsKeepsBase(s: State, i: nat)
    requires BaseOk(s) && i < |s.threads| && CanDispatch(s, s.threads[i], Admits)
    ensures BaseOk(DoDispatch(s, i, Admits))
  {
    var s' := DoDispatch(s, i, Admits);
    assert ThreadOk(s, i);
    forall id | id in s.table.rows
      ensures s.table.rows[id].startedAt <= s.now
    {
      assert RowOk(id, s.table.rows[id], s.now, s.ever);
    }
    QuietMove(s, s', i, s'.threads[i]);
  }

  lemma RecordFailureKnows(s: State, i: nat, stored: bool)
    requires i < |s.threads| && ThreadOk(s, i) && CanDispatch(s, s.threads[i], RecordFailure(stored))
    ensures ThreadOk(DoDispatch(s, i, RecordFailure(stored)), i)
    ensures Charge(DoDispatch(s, i, RecordFailure(stored)).threads[i]) == 0
    ensures OnlyTouches(s.table, DoDispatch(s, i, RecordFailure(stored)).table, s.threads[i].parent)
  {
  }

  lemma RecordFailureKeepsBase(s: State, i: nat, stored: bool)
    requires BaseOk(s) && i < |s.threads| && CanDispatch(s, s.threads[i], RecordFailure(stored))
    ensures BaseOk(DoDispatch(s, i, RecordFailure(stored)))
  {
    var s' := DoDispatch(s, i, RecordFailure(stored));
    assert ThreadOk(s, i);
    RecordFailureKnows(s, i, stored);
    if stored {
      RecordHandoffFailureKeepsTable(s.table, s.threads[i].parent, s.now, s.ever);
      WritingMove(s, s', i, s'.threads[i]);
    } else {
      QuietMove(s, s', i, s'.threads[i]);
    }
  }

  lemma QuietDispatchRelaxes(s: State, i: nat, d: DispatchStep)
    requires i < |s.threads| && CanDispatch(s, s.threads[i], d)
    requires !d.Admits? && !d.Commits? && !d.RecordFailure?
    ensures Relaxes(s.threads[i], DoDispatch(s, i, d).threads[i])
    ensures DoDispatch(s, i, d).table == s.table
    ensures HoldsTransaction(DoDispatch(s, i, d).threads[i]) ==> DoDispatch(s, i, d).conn == s.conn
  {
  }

  lemma QuietDispatchKeepsBase(s: State, i: nat, d: DispatchStep)
    requires BaseOk(s) && i < |s.threads| && CanDispatch(s, s.threads[i], d)
    requires !d.Admits? && !d.Commits? && !d.RecordFailure?
    ensures BaseOk(DoDispatch(s, i, d))
  {
    var s' := DoDispatch(s, i, d);
    assert ThreadOk(s, i);
    QuietDispatchRelaxes(s, i, d);
    RelaxedMoveKnows(s, s', i);
    QuietMove(s, s', i, s'.threads[i]);
  }

  lemma DispatchKeepsBase(s: State, i: nat, d: DispatchStep)
    requires BaseOk(s) && i < |s.threads| && CanDispatch(s, s.threads[i], d)
    ensures BaseOk(DoDispatch(s, i, d))
  {
    match d
    case Admits => AdmitsKeepsBase(s, i);
    case Commits(at) => CommitKeepsBase(s, i, at);
    case RecordFailure(stored) => RecordFailureKeepsBase(s, i, stored);
    case _ => QuietDispatchKeepsBase(s, i, d);
  }

  // ----- steps of no thread, or of a new one -----

  lemma TickKeepsBase(s: State, to: int)
    requires BaseOk(s) && s.now <= to
    ensures BaseOk(s.(now := to))
  {
    var s' := s.(now := to);
    LaterIsFine(s.table, s.now, s.ever, to, s.ever);
    forall j | 0 <= j < |s'.threads|
      ensures ThreadOk(s', j)
    {
      assert ThreadOk(s, j);
    }
  }

  lemma HookEditKeepsBase(s: State, hooks: Graph, ever: set<HookId>)
    requires BaseOk(s) && s.conn.None?
    requires WellFormed(hooks) && hooks.Keys <= ever && s.ever <= ever
    ensures BaseOk(s.(hooks := hooks, ever := ever))
  {
    var s' := s.(hooks := hooks, ever := ever);
    LaterIsFine(s.table, s.now, s.ever, s.now, ever);
    forall j | 0 <= j < |s'.threads|
      ensures ThreadOk(s', j)
    {
      assert ThreadOk(s, j);
    }
  }

  lemma HookStepKeepsBase(s: State, e: Event)
    requires BaseOk(s) && Enabled(s, e) && (e.CreateHook? || e.UpdateHook? || e.DeleteHook?)
    ensures BaseOk(Apply(s, e))
  {
    match e
    case CreateHook(id, next) =>
      AcceptsExactlyWellFormedEdits(s.hooks, id, next);
      HookEditKeepsBase(s, s.hooks[id := next], s.ever + {id});
    case UpdateHook(id, next) =>
      AcceptsExactlyWellFormedEdits(s.hooks, id, next);
      HookEditKeepsBase(s, s.hooks[id := next], s.ever);
    case DeleteHook(id) =>
      DeletableIffUnreferenced(s.hooks, id);
      HookEditKeepsBase(s, s.hooks - {id}, s.ever);
  }

  lemma RefusalKeepsBase(s: State, hook: HookId, at: int)
    requires BaseOk(s) && Enabled(s, RefuseTrigger(hook, at))
    ensures BaseOk(Apply(s, RefuseTrigger(hook, at)))
  {
    InsertRefusalKeepsTable(s.table, hook, at, s.now, s.ever);
    TableStepKeepsThreads(s, InsertRefusal(s.table, hook, at));
  }

  /** A table step of nobody's that spares the rows of running threads. */
  lemma TableStepKeepsThreads(s: State, t: Table)
    requires ThreadsOk(s) && s.conn.None? && s.table.nextId <= t.nextId
    requires forall x :: x in s.table.rows && (Active(s.table.rows[x].status) || s.table.rows[x].handoff == Pending)
               ==> x in t.rows && t.rows[x] == s.table.rows[x]
    requires forall x :: x in t.rows && x < s.table.nextId ==> x in s.table.rows && t.rows[x] == s.table.rows[x]
    ensures ThreadsOk(s.(table := t))
  {
    var s' := s.(table := t);
    forall j | 0 <= j < |s'.threads|
      ensures ThreadOk(s', j)
    {
      assert ThreadOk(s, j);
    }
  }

  lemma CleanUpKeepsBase(s: State, cutoff: int)
    requires BaseOk(s) && s.conn.None?
    ensures BaseOk(s.(table := CleanTable(s.table, cutoff)))
  {
    CleanTableKeepsTable(s.table, cutoff, s.now, s.ever);
    forall x | x in s.table.rows && (Active(s.table.rows[x].status) || s.table.rows[x].handoff == Pending)
      ensures x in CleanTable(s.table, cutoff).rows
    {
      assert RowOk(x, s.table.rows[x], s.now, s.ever);
      CleanTableSparesAnchors(s.table, cutoff, x);
    }
    TableStepKeepsThreads(s, CleanTable(s.table, cutoff));
  }

  /** No thread is responsible for a row whose retry is granted. */
  lemma ClaimedRowIsFree(s: State, parent: ExecId, attempt: int, j: nat)
    requires BaseOk(s) && JudgeRetry(s.table, parent, attempt).Claimed? && j < |s.threads|
    ensures Charge(s.threads[j]) != parent
  {
    assert ThreadOk(s, j);
  }

  lemma ClaimKeepsThreads(s: State, parent: ExecId, attempt: int)
    requires BaseOk(s) && Enabled(s, Claim(parent, attempt))
    ensures ThreadsOk(s.(table := ClaimRetry(s.table, parent, attempt)))
    ensures forall j :: 0 <= j < |s.threads| ==> Charge(s.threads[j]) != parent
  {
    var t := ClaimRetry(s.table, parent, attempt);
    var s1 := s.(table := t);
    forall j | 0 <= j < |s.threads|
      ensures Charge(s.threads[j]) != parent && ThreadOk(s1, j)
    {
      assert ThreadOk(s, j);
      ClaimedRowIsFree(s, parent, attempt, j);
      OthersDoNotNotice(s.threads[j], s.table, t, parent);
    }
  }

  lemma ClaimKnows(s: State, parent: ExecId, attempt: int)
    requires Enabled(s, Claim(parent, attempt)) && 0 < parent < s.table.nextId
    ensures ThreadOk(Apply(s, Claim(parent, attempt)), |s.threads|)
  {
  }

  lemma ClaimKeepsBase(s: State, parent: ExecId, attempt: int)
    requires BaseOk(s) && Enabled(s, Claim(parent, attempt))
    ensures BaseOk(Apply(s, Claim(parent, attempt)))
  {
    ClaimRetryKeepsTable(s.table, parent, attempt, s.now, s.ever);
    ClaimKeepsThreads(s, parent, attempt);
    var s1 := s.(table := ClaimRetry(s.table, parent, attempt));
    var s' := Apply(s, Claim(parent, attempt));
    assert 0 < parent < s.table.nextId;
    ClaimKnows(s, parent, attempt);
    SpawnKeepsThreads(s1, s', Dispatching(parent, AnswerRetry(parent, attempt, 0)));
  }

  lemma RestartKeepsBase(s: State, swept: bool, at: int)
    requires BaseOk(s)
    ensures BaseOk(Reborn(s, swept, at))
  {
    if swept { SweepKeepsTable(s.table, at, s.now, s.ever); }
  }

  lemma StepKeepsBase(s: State, e: Event)
    requires BaseOk(s) && Enabled(s, e)
    ensures BaseOk(Apply(s, e))
  {
    match e
    case Trigger(i, t) => TriggerKeepsBase(s, i, t);
    case Launching(i, l) => LaunchKeepsBase(s, i, l);
    case Work(i, w) => WorkKeepsBase(s, i, w);
    case Dispatch(i, d) => DispatchKeepsBase(s, i, d);
    case CloseCancel(i) => CloseKeepsBase(s, i);
    case Tick(to) => TickKeepsBase(s, to);
    case CreateHook(_, _) => HookStepKeepsBase(s, e);
    case UpdateHook(_, _) => HookStepKeepsBase(s, e);
    case DeleteHook(_) => HookStepKeepsBase(s, e);
    case Load(hook) => SpawnIdleKeepsBase(s, Apply(s, e), Loaded(hook, s.hooks[hook]));
    case RefuseTrigger(hook, at) => RefusalKeepsBase(s, hook, at);
    case Claim(parent, attempt) => ClaimKeepsBase(s, parent, attempt);
    case TakeCancel(exec) => SpawnIdleKeepsBase(s, Apply(s, e), Closing(exec));
    case CleanUp(cutoff) => CleanUpKeepsBase(s, cutoff);
    case Restart(swept, at) => RestartKeepsBase(s, swept, at);
  }

  lemma CloseKeepsBase(s: State, i: nat)
    requires BaseOk(s) && i < |s.threads| && s.threads[i].Closing?
    ensures BaseOk(Apply(s, CloseCancel(i)))
  {
    assert ThreadOk(s, i);
    QuietMove(s, Apply(s, CloseCancel(i)), i, Gone);
  }

  lemma SpawnIdleKeepsBase(s: State, s': State, pc: Pc)
    requires BaseOk(s)
    requires (pc.Loaded? && pc.hook in s.ever) || pc.Closing?
    requires s'.threads == s.threads + [pc]
    requires s' == s.(threads := s'.threads, cancels := s'.cancels)
    ensures BaseOk(s')
  {
    assert ThreadOk(s', |s.threads|);
    SpawnKeepsThreads(s, s', pc);
  }
}
