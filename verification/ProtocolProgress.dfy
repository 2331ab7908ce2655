/** The protocol winds down: the steps threads can take are bounded in number, some
    thread can always take one without any statement failing, and when none is left every
    admission, running slot and wait-group unit has been given back. */
module ProtocolProgress {
  import opened HookGraph
  import opened Executions
  import opened Protocol
  import opened ProtocolThreads
  import opened ProtocolRunner
  import opened ProtocolCancels
  import opened ProtocolTheorems

  // ----- the measure -----

  /** How many hook ids the chain of `id` has not visited yet. */
  function Unvisited(t: Table, ever: set<HookId>, id: ExecId): int {
    if id in t.rows then |ever| - |t.rows[id].path| else 0
  }

  /** The steps left within the execution at hand. */
  function Stage(pc: Pc): nat {
    match pc
    case Gone => 0
    case Loaded(_, _) => 5
    case Admitted(_, _) => 4
    case SyncRun(_) => 9
    case SyncStore(_, _) => 8
    case GivingBack(_) => 2
    case GivingBackCount => 1
    case Naming(_, _, _) => 20
    case Registering(_, _, _) => 19
    case Tracking(_, _, _) => 18
    case Starting(_, _) => 16
    case NotingCancel(_, _) => 15
    case Marking(_, _) => 15
    case Executing(_, _) => 14
    case Storing(_, _, _) => 13
    case Freeing(_, _, _) => 12
    case NotingPanic(_, _) => 11
    case Unregistering(_, _) => 10
    case Releasing(_, _) => 9
    case ReleasingCount(_) => 8
    case Dispatching(_, _) => 7
    case InTransaction(_, _, _, _) => 6
    case Abandoning(_, _, _) => 5
    case AbandoningCount(_, _) => 4
    case RecordingFailure(_, _) => 3
    case EndingHandoff => 1
    case Answering(_, _, _) => 1
    case Closing(_) => 1
  }

  /** Whether successors of the execution at hand may still follow. */
  predicate MayContinue(pc: Pc) {
    Charge(pc) != 0 && !pc.Abandoning? && !pc.AbandoningCount? && !pc.RecordingFailure?
  }

  /** Steps a thread can still cause, successors included: each later execution of its
      chain has one hook less left to visit. */
  function Weight(pc: Pc, t: Table, ever: set<HookId>): int {
    Stage(pc) + 20 * (if pc.Loaded? || pc.Admitted? then |ever|
                      else if MayContinue(pc) then Unvisited(t, ever, Charge(pc)) else 0)
  }

  function TotalWeight(ts: seq<Pc>, t: Table, ever: set<HookId>): int {
    if ts == [] then 0 else TotalWeight(ts[..|ts| - 1], t, ever) + Weight(ts[|ts| - 1], t, ever)
  }

  function Potential(s: State): int {
    TotalWeight(s.threads, s.table, s.ever)
  }

  /** The chain of an existing row has visited no more ids than there have been. */
  lemma UnvisitedIsNat(s: State, id: ExecId)
    requires Ok(s)
    ensures Unvisited(s.table, s.ever, id) >= 0
  {
    if id in s.table.rows {
      assert RowOk(id, s.table.rows[id], s.now, s.ever);
      DistinctFits(s.table.rows[id].path, s.ever);
    }
  }

  lemma WeightIsNat(s: State, pc: Pc)
    requires Ok(s)
    ensures Weight(pc, s.table, s.ever) >= 0
  {
    UnvisitedIsNat(s, Charge(pc));
  }

  lemma {:induction false} TotalIsNat(s: State, ts: seq<Pc>)
    requires Ok(s)
    ensures TotalWeight(ts, s.table, s.ever) >= 0
    decreases |ts|
  {
    if ts != [] {
      WeightIsNat(s, ts[|ts| - 1]);
      TotalIsNat(s, ts[..|ts| - 1]);
    }
  }

  /** Paths of existing rows stay; rows may go. */
  ghost predicate PathsStay(t: Table, t': Table) {
    && t.nextId <= t'.nextId
    && (forall id :: id in t'.rows && id < t.nextId ==> id in t.rows && t'.rows[id].path == t.rows[id].path)
  }

  lemma AgingKeepsPaths(t: Table, t': Table, gone: bool)
    requires RowsAge(t, t', gone)
    ensures PathsStay(t, t')
  {
  }

  lemma OthersWeighNoMore(s: State, t': Table, pc: Pc)
    requires Ok(s) && PathsStay(s.table, t') && Charge(pc) < s.table.nextId
    ensures Weight(pc, t', s.ever) <= Weight(pc, s.table, s.ever)
  {
    UnvisitedIsNat(s, Charge(pc));
  }

  /** All threads but `i` weigh no more on the new table; thread `i` becomes `pc`. */
  lemma {:induction false} TotalAfterStep(s: State, t': Table, ts: seq<Pc>, i: nat, pc: Pc)
    requires Ok(s) && PathsStay(s.table, t') && i < |ts|
    requires forall j :: 0 <= j < |ts| ==> Charge(ts[j]) < s.table.nextId
    ensures TotalWeight(ts[i := pc], t', s.ever)
            <= TotalWeight(ts, s.table, s.ever) - Weight(ts[i], s.table, s.ever) + Weight(pc, t', s.ever)
    decreases |ts|
  {
    var n := |ts| - 1;
    if i == n {
      assert ts[i := pc][..n] == ts[..n];
      TotalOnNewTable(s, t', ts[..n]);
    } else {
      assert ts[i := pc][..n] == ts[..n][i := pc];
      TotalAfterStep(s, t', ts[..n], i, pc);
      OthersWeighNoMore(s, t', ts[n]);
    }
  }

  lemma {:induction false} TotalOnNewTable(s: State, t': Table, ts: seq<Pc>)
    requires Ok(s) && PathsStay(s.table, t')
    requires forall j :: 0 <= j < |ts| ==> Charge(ts[j]) < s.table.nextId
    ensures TotalWeight(ts, t', s.ever) <= TotalWeight(ts, s.table, s.ever)
    decreases |ts|
  {
    if ts != [] {
      OthersWeighNoMore(s, t', ts[|ts| - 1]);
      TotalOnNewTable(s, t', ts[..|ts| - 1]);
    }
  }

  lemma ChargesAreOld(s: State)
    requires Ok(s)
    ensures forall j :: 0 <= j < |s.threads| ==> Charge(s.threads[j]) < s.table.nextId
  {
    forall j | 0 <= j < |s.threads|
      ensures Charge(s.threads[j]) < s.table.nextId
    {
      assert ThreadOk(s, j);
    }
  }

  // ----- every step of a thread costs -----

  predicate IsThreadStep(e: Event) {
    e.Trigger? || e.Launching? || e.Work? || e.Dispatch? || e.CloseCancel?
  }

  /** A step within one execution. */
  predicate Descends(pc: Pc, pc': Pc) {
    && Stage(pc') < Stage(pc) && !pc'.Loaded?
    && (pc'.Admitted? ==> pc.Loaded?)
    && (MayContinue(pc') ==> MayContinue(pc) && Charge(pc') == Charge(pc))
  }

  lemma DescentCosts(s: State, t': Table, pc: Pc, pc': Pc)
    requires Ok(s) && PathsStay(s.table, t') && Charge(pc) < s.table.nextId
    requires Descends(pc, pc')
    ensures Weight(pc', t', s.ever) < Weight(pc, s.table, s.ever)
  {
    UnvisitedIsNat(s, Charge(pc));
  }

  lemma QuietTriggerDescends(s: State, i: nat, t: TriggerStep)
    requires i < |s.threads| && CanTrigger(s, s.threads[i], t) && !t.SyncInsert? && !t.AsyncInsert?
    ensures Descends(s.threads[i], DoTrigger(s, i, t).threads[i])
  {
  }

  /** A new chain has visited the hook that was triggered. */
  lemma InsertCosts(s: State, i: nat, t: TriggerStep)
    requires i < |s.threads| && CanTrigger(s, s.threads[i], t) && (t.SyncInsert? || t.AsyncInsert?)
    requires s.table.nextId > 0
    ensures Weight(DoTrigger(s, i, t).threads[i], DoTrigger(s, i, t).table, s.ever) < Weight(s.threads[i], s.table, s.ever)
  {
    assert |DoTrigger(s, i, t).table.rows[s.table.nextId].path| == 1;
  }

  lemma LaunchDescends(s: State, i: nat, l: LaunchStep)
    requires i < |s.threads| && CanLaunch(s.threads[i], l)
    ensures Descends(s.threads[i], DoLaunch(s, i, l).threads[i])
  {
  }

  lemma WorkDescends(s: State, i: nat, w: WorkStep)
    requires i < |s.threads| && CanWork(s, s.threads[i], w)
    ensures Descends(s.threads[i], DoWork(s, i, w).threads[i])
  {
    if w.StartRun? || w.StartCanceled? || w.Execute? || w.Panic? || w.FinishSlot? { RunDescends(s, i, w); }
  }

  lemma RunDescends(s: State, i: nat, w: WorkStep)
    requires i < |s.threads| && CanWork(s, s.threads[i], w)
    requires w.StartRun? || w.StartCanceled? || w.Execute? || w.Panic? || w.FinishSlot?
    ensures Descends(s.threads[i], DoWork(s, i, w).threads[i])
  {
  }

  lemma PlanDescends(s: State, i: nat, d: DispatchStep)
    requires i < |s.threads| && CanDispatch(s, s.threads[i], d) && (d.Skips? || d.Fails? || d.Admits?)
    ensures Descends(s.threads[i], DoDispatch(s, i, d).threads[i])
  {
  }

  lemma AbortDescends(s: State, i: nat, d: DispatchStep)
    requires i < |s.threads| && CanDispatch(s, s.threads[i], d)
    requires d.Aborts? || d.Abandon? || d.AbandonCount? || d.RecordFailure? || d.Answer?
    ensures Descends(s.threads[i], DoDispatch(s, i, d).threads[i])
  {
  }

  /** The successor's chain has visited one hook more than the parent's. */
  lemma CommitCosts(s: State, i: nat, at: int)
    requires i < |s.threads| && CanDispatch(s, s.threads[i], Commits(at))
    requires 0 < s.threads[i].parent < s.table.nextId
    ensures var s' := DoDispatch(s, i, Commits(at));
            Weight(s'.threads[i], s'.table, s.ever) < Weight(s.threads[i], s.table, s.ever)
  {
    var s' := DoDispatch(s, i, Commits(at));
    assert s'.threads[i].Naming? && s'.threads[i].exec == s.table.nextId;
    assert |s'.table.rows[s.table.nextId].path| == |s.table.rows[s.threads[i].parent].path| + 1;
  }

  // ----- the measure over whole runs -----

  /** A step that moves one thread and starts none. */
  lemma MoveCosts(s: State, s': State, i: nat)
    requires Ok(s) && PathsStay(s.table, s'.table) && s'.ever == s.ever
    requires i < |s.threads| == |s'.threads| && s'.threads == s.threads[i := s'.threads[i]]
    requires Weight(s'.threads[i], s'.table, s.ever) < Weight(s.threads[i], s.table, s.ever)
    ensures Potential(s') < Potential(s)
  {
    ChargesAreOld(s);
    TotalAfterStep(s, s'.table, s.threads, i, s'.threads[i]);
  }

  lemma DescentMoveCosts(s: State, s': State, i: nat)
    requires Ok(s) && PathsStay(s.table, s'.table) && s'.ever == s.ever
    requires i < |s.threads| == |s'.threads| && s'.threads == s.threads[i := s'.threads[i]]
    requires Descends(s.threads[i], s'.threads[i])
    ensures Potential(s') < Potential(s)
  {
    ChargesAreOld(s);
    DescentCosts(s, s'.table, s.threads[i], s'.threads[i]);
    MoveCosts(s, s', i);
  }

  /** Starting a worker splits the work that is left. */
  lemma TrackAndGoCosts(s: State, i: nat)
    requires Ok(s) && i < |s.threads| && s.threads[i].Tracking?
    ensures Potential(DoLaunch(s, i, TrackAndGo)) < Potential(s)
  {
    var pc := s.threads[i];
    var worker, after := Starting(pc.exec, pc.hook), AfterDispatch(pc.after);
    ChargesAreOld(s);
    TotalAfterStep(s, s.table, s.threads, i, after);
    TotalWithSpawned(s.threads[i := after], worker, s.table, s.ever);
    SplitWeighsLess(pc, s.table, s.ever);
  }

  lemma SplitWeighsLess(pc: Pc, t: Table, ever: set<HookId>)
    requires pc.Tracking?
    ensures Weight(AfterDispatch(pc.after), t, ever) + Weight(Starting(pc.exec, pc.hook), t, ever) < Weight(pc, t, ever)
  {
  }

  lemma TotalWithSpawned(ts: seq<Pc>, pc: Pc, t: Table, ever: set<HookId>)
    ensures TotalWeight(ts + [pc], t, ever) == TotalWeight(ts, t, ever) + Weight(pc, t, ever)
  {
    assert (ts + [pc])[..|ts|] == ts;
  }

  lemma TriggerMoves(s: State, i: nat, t: TriggerStep)
    requires i < |s.threads| && CanTrigger(s, s.threads[i], t)
    ensures DoTrigger(s, i, t).threads == s.threads[i := DoTrigger(s, i, t).threads[i]]
    ensures DoTrigger(s, i, t).ever == s.ever
  {
  }

  lemma WorkMoves(s: State, i: nat, w: WorkStep)
    requires i < |s.threads| && CanWork(s, s.threads[i], w)
    ensures DoWork(s, i, w).threads == s.threads[i := DoWork(s, i, w).threads[i]]
    ensures DoWork(s, i, w).ever == s.ever
  {
  }

  lemma DispatchMoves(s: State, i: nat, d: DispatchStep)
    requires i < |s.threads| && CanDispatch(s, s.threads[i], d)
    ensures DoDispatch(s, i, d).threads == s.threads[i := DoDispatch(s, i, d).threads[i]]
    ensures DoDispatch(s, i, d).ever == s.ever
  {
  }

  lemma StepKeepsPaths(s: State, e: Event)
    requires Ok(s) && Enabled(s, e)
    ensures PathsStay(s.table, Apply(s, e).table)
  {
    StepAges(s, e);
    AgingKeepsPaths(s.table, Apply(s, e).table, e.CleanUp?);
  }

  lemma TriggerStepCosts(s: State, i: nat, t: TriggerStep)
    requires Ok(s) && i < |s.threads| && CanTrigger(s, s.threads[i], t)
    requires PathsStay(s.table, DoTrigger(s, i, t).table)
    ensures Potential(DoTrigger(s, i, t)) < Potential(s)
  {
    TriggerMoves(s, i, t);
    if t.SyncInsert? || t.AsyncInsert? {
      InsertCosts(s, i, t);
      MoveCosts(s, DoTrigger(s, i, t), i);
    } else {
      QuietTriggerDescends(s, i, t);
      DescentMoveCosts(s, DoTrigger(s, i, t), i);
    }
  }

  lemma LaunchStepCosts(s: State, i: nat, l: LaunchStep)
    requires Ok(s) && i < |s.threads| && CanLaunch(s.threads[i], l)
    ensures Potential(DoLaunch(s, i, l)) < Potential(s)
  {
    if l.TrackAndGo? {
      TrackAndGoCosts(s, i);
    } else {
      LaunchDescends(s, i, l);
      DescentMoveCosts(s, DoLaunch(s, i, l), i);
    }
  }

  lemma DispatchStepCosts(s: State, i: nat, d: DispatchStep)
    requires Ok(s) && i < |s.threads| && CanDispatch(s, s.threads[i], d)
    requires PathsStay(s.table, DoDispatch(s, i, d).table)
    ensures Potential(DoDispatch(s, i, d)) < Potential(s)
  {
    DispatchMoves(s, i, d);
    if d.Commits? {
      assert ThreadOk(s, i);
      CommitCosts(s, i, d.at);
      MoveCosts(s, DoDispatch(s, i, d), i);
    } else {
      if d.Skips? || d.Fails? || d.Admits? { PlanDescends(s, i, d); } else { AbortDescends(s, i, d); }
      DescentMoveCosts(s, DoDispatch(s, i, d), i);
    }
  }

  lemma WorkStepCosts(s: State, i: nat, w: WorkStep)
    requires Ok(s) && i < |s.threads| && CanWork(s, s.threads[i], w)
    requires PathsStay(s.table, DoWork(s, i, w).table)
    ensures Potential(DoWork(s, i, w)) < Potential(s)
  {
    WorkMoves(s, i, w);
    WorkDescends(s, i, w);
    DescentMoveCosts(s, DoWork(s, i, w), i);
  }

  lemma ThreadStepCosts(s: State, e: Event)
    requires Ok(s) && Enabled(s, e) && IsThreadStep(e)
    ensures Potential(Apply(s, e)) < Potential(s)
  {
    StepKeepsPaths(s, e);
    match e
    case Trigger(i, t) => TriggerStepCosts(s, i, t);
    case Launching(i, l) => LaunchStepCosts(s, i, l);
    case Work(i, w) => WorkStepCosts(s, i, w);
    case Dispatch(i, d) => DispatchStepCosts(s, i, d);
    case CloseCancel(i) => DescentMoveCosts(s, Apply(s, e), i);
  }

  /** Steps around the threads that start no work and add no hook. */
  predicate IsNeutral(e: Event) {
    e.Tick? || e.UpdateHook? || e.DeleteHook? || e.RefuseTrigger? || e.CleanUp?
  }

  lemma NeutralStepIsFree(s: State, e: Event)
    requires Ok(s) && Enabled(s, e) && IsNeutral(e)
    ensures Potential(Apply(s, e)) <= Potential(s)
  {
    StepKeepsPaths(s, e);
    ChargesAreOld(s);
    TotalOnNewTable(s, Apply(s, e).table, s.threads);
  }

  function ThreadSteps(events: seq<Event>): nat
    decreases |events|
  {
    if events == [] then 0 else (if IsThreadStep(events[0]) then 1 else 0) + ThreadSteps(events[1..])
  }

  /** Whatever is under way ends: without new triggers, retries, cancels or hooks, no run
      has more thread steps than the potential of its first state, whatever fails in it. */
  lemma {:induction false} WorkIsBounded(s: State, events: seq<Event>, s': State)
    requires Ok(s) && Reaches(s, events, s')
    requires forall k :: 0 <= k < |events| ==> IsThreadStep(events[k]) || IsNeutral(events[k])
    ensures ThreadSteps(events) + Potential(s') <= Potential(s) && Potential(s') >= 0
    decreases |events|
  {
    TotalIsNat(s, s.threads);
    if events != [] {
      var e := events[0];
      StepKeepsOk(s, e);
      if IsThreadStep(e) { ThreadStepCosts(s, e); } else { NeutralStepIsFree(s, e); }
      assert forall k :: 0 <= k < |events[1..]| ==> events[1..][k] == events[k + 1];
      WorkIsBounded(Apply(s, e), events[1..], s');
    }
  }

  // ----- some thread can always go on -----

  /** The connection is held by the thread that has the transaction open, and there is at
      least one running slot. */
  ghost predicate ConnOk(s: State) {
    && s.runner.maxConcurrent >= 1
    && (s.conn.Some? ==> s.conn.value < |s.threads| && HoldsTransaction(s.threads[s.conn.value]))
  }

  lemma TriggerKeepsConn(s: State, i: nat, t: TriggerStep)
    requires ConnOk(s) && i < |s.threads| && CanTrigger(s, s.threads[i], t)
    ensures ConnOk(DoTrigger(s, i, t))
  {
  }

  lemma WorkKeepsConn(s: State, i: nat, w: WorkStep)
    requires ConnOk(s) && i < |s.threads| && CanWork(s, s.threads[i], w)
    ensures ConnOk(DoWork(s, i, w))
  {
  }

  lemma DispatchKeepsConn(s: State, i: nat, d: DispatchStep)
    requires ConnOk(s) && i < |s.threads| && CanDispatch(s, s.threads[i], d) && ThreadOk(s, i)
    ensures ConnOk(DoDispatch(s, i, d))
  {
  }

  lemma StepKeepsConn(s: State, e: Event)
    requires Ok(s) && ConnOk(s) && Enabled(s, e)
    ensures ConnOk(Apply(s, e))
  {
    match e
    case Trigger(i, t) => TriggerKeepsConn(s, i, t);
    case Work(i, w) => WorkKeepsConn(s, i, w);
    case Dispatch(i, d) => assert ThreadOk(s, i); DispatchKeepsConn(s, i, d);
    case _ =>
  }

  lemma {:induction false} RunKeepsConn(s: State, events: seq<Event>, s': State)
    requires Ok(s) && ConnOk(s) && Reaches(s, events, s')
    ensures ConnOk(s')
    decreases |events|
  {
    if events != [] {
      StepKeepsOk(s, events[0]);
      StepKeepsConn(s, events[0]);
      RunKeepsConn(Apply(s, events[0]), events[1..], s');
    }
  }

  lemma ReachableConn(s: State)
    requires Reachable(s)
    ensures ConnOk(s)
  {
    var s0, events :| Init(s0) && Reaches(s0, events, s);
    InitOk(s0);
    RunKeepsConn(s0, events, s);
  }

  /** A thread step in which no statement fails and nothing panics; a dispatch may still
      be refused, for the reasons the code knows. */
  predicate IsSmooth(s: State, e: Event) {
    match e
    case Trigger(_, t) =>
      !t.GiveUp? && !t.SyncPanic? && !t.AsyncInsertFails? && (t.SyncFinish? ==> t.stored)
    case Launching(_, _) => true
    case Work(_, w) =>
      !w.Panic?
      && (w.LogCanceled? ==> w.stored) && (w.MarkAsRunning? ==> w.stored)
      && (w.Store? ==> w.stored) && (w.LogPanic? ==> w.stored)
    case Dispatch(i, d) =>
      && !d.Aborts? && (d.RecordFailure? ==> d.stored) && (d.Answer? ==> d.read)
      && (d.Fails? ==>
            i < |s.threads| && s.threads[i].Dispatching?
            && var plan := PlanDispatch(s.table, s.hooks, s.threads[i].parent);
            plan.Refuse? || (plan.Launch? && !CanAdmit(s, plan.target)))
    case CloseCancel(_) => true
    case _ => false
  }

  /** The next smooth step of a thread, given a free connection and, for a worker that
      waits, a free slot. */
  function NextStep(s: State, i: nat): Event
    requires i < |s.threads|
  {
    match s.threads[i]
    case Loaded(_, _) => Trigger(i, SyncInsert(s.now))
    case SyncRun(_) => Trigger(i, SyncExecute(Failed))
    case SyncStore(_, _) => Trigger(i, SyncFinish(true, s.now))
    case Admitted(_, _) => Trigger(i, AsyncInsert(s.now))
    case GivingBack(_) => Trigger(i, GiveBack)
    case GivingBackCount => Trigger(i, GiveBackCount)
    case Naming(_, _, _) => Launching(i, SetExecution)
    case Registering(_, _, _) => Launching(i, Register)
    case Tracking(_, _, _) => Launching(i, TrackAndGo)
    case Starting(_, _) => Work(i, StartRun)
    case NotingCancel(_, _) => Work(i, LogCanceled(true, s.now))
    case Marking(_, _) => Work(i, MarkAsRunning(true, s.now))
    case Executing(_, _) => Work(i, Execute(Failed))
    case Storing(_, _, _) => Work(i, WorkStep.Store(true, s.now))
    case Freeing(_, _, _) => Work(i, FinishSlot)
    case NotingPanic(_, _) => Work(i, LogPanic(true, s.now))
    case Unregistering(_, _) => Work(i, Unregister)
    case Releasing(_, _) => Work(i, Release)
    case ReleasingCount(_) => Work(i, ReleaseCount)
    case EndingHandoff => Work(i, EndHandoff)
    case Dispatching(parent, _) =>
      var plan := PlanDispatch(s.table, s.hooks, parent);
      if plan.Skip? then Dispatch(i, Skips)
      else if plan.Launch? && CanAdmit(s, plan.target) then Dispatch(i, Admits)
      else Dispatch(i, Fails)
    case InTransaction(_, _, _, _) => Dispatch(i, Commits(s.now))
    case Abandoning(_, _, _) => Dispatch(i, Abandon)
    case AbandoningCount(_, _) => Dispatch(i, AbandonCount)
    case RecordingFailure(_, _) => Dispatch(i, RecordFailure(true))
    case Answering(_, _, _) => Dispatch(i, Answer(true))
    case Closing(_) => CloseCancel(i)
    case Gone => Tick(s.now)
  }

  predicate WaitsForSlot(s: State, pc: Pc) {
    pc.Starting? && s.runner.slots >= s.runner.maxConcurrent
  }

  lemma HolderGoesOn(s: State, i: nat)
    requires i < |s.threads| && ThreadOk(s, i) && HoldsTransaction(s.threads[i])
    ensures Enabled(s, NextStep(s, i)) && IsSmooth(s, NextStep(s, i)) && IsThreadStep(NextStep(s, i))
  {
  }

  lemma FreeThreadGoesOn(s: State, i: nat)
    requires i < |s.threads| && ThreadOk(s, i) && s.conn.None?
    requires s.threads[i] != Gone && !HoldsTransaction(s.threads[i]) && !WaitsForSlot(s, s.threads[i])
    requires forall id :: id in s.table.rows ==> s.table.rows[id].startedAt <= s.now
    ensures Enabled(s, NextStep(s, i)) && IsSmooth(s, NextStep(s, i)) && IsThreadStep(NextStep(s, i))
  {
  }

  lemma {:induction false} SomeOwner(k: Kind, ts: seq<Pc>) returns (i: nat)
    requires Total(k, ts) > 0
    ensures i < |ts| && Owns(k, ts[i])
    decreases |ts|
  {
    if Owns(k, ts[|ts| - 1]) {
      i := |ts| - 1;
    } else {
      i := SomeOwner(k, ts[..|ts| - 1]);
    }
  }

  /** Nothing ever gets stuck: while a thread is left, some thread has a smooth step. */
  lemma SomeThreadGoesOn(s: State, i: nat) returns (k: nat)
    requires Reachable(s)
    requires i < |s.threads| && s.threads[i] != Gone
    ensures k < |s.threads| && IsThreadStep(NextStep(s, k))
    ensures Enabled(s, NextStep(s, k)) && IsSmooth(s, NextStep(s, k))
  {
    ReachableIsOk(s);
    ReachableConn(s);
    forall id | id in s.table.rows
      ensures s.table.rows[id].startedAt <= s.now
    {
      assert RowOk(id, s.table.rows[id], s.now, s.ever);
    }
    if s.conn.Some? {
      k := s.conn.value;
      assert ThreadOk(s, k);
      HolderGoesOn(s, k);
    } else {
      k := i;
      if WaitsForSlot(s, s.threads[i]) {
        k := SomeOwner(RunSlot, s.threads);
      }
      assert ThreadOk(s, k);
      FreeThreadGoesOn(s, k);
    }
  }

  /** When no thread is left everything has been given back: every admission on every
      path, the running slots, and all units of the wait group. */
  lemma NothingLeaks(s: State)
    requires Reachable(s)
    requires forall i :: 0 <= i < |s.threads| ==> s.threads[i] == Gone
    ensures s.runner.inFlight == map[] && s.runner.slots == 0 && s.runner.wg == 0
  {
    ReachableIsOk(s);
    NobodyOwns(Admission, s.threads);
    NobodyOwns(Settling, s.threads);
    NobodyOwns(Handoff, s.threads);
    NobodyOwns(RunSlot, s.threads);
    assert |s.runner.inFlight.Keys| == 0;
  }

  lemma {:induction false} NobodyOwns(k: Kind, ts: seq<Pc>)
    requires forall i :: 0 <= i < |ts| ==> ts[i] == Gone
    ensures Total(k, ts) == 0
    decreases |ts|
  {
    if ts != [] { NobodyOwns(k, ts[..|ts| - 1]); }
  }
}
