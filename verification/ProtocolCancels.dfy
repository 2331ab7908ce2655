/** The cancel registry over all interleavings: no switch is closed twice, and an
    execution whose switch was closed before Start returned never succeeds. */
module ProtocolCancels {
  import opened HookGraph
  import opened Executions
  import opened Retention
  import opened Protocol
  import opened ProtocolThreads

  function CloseTarget(pc: Pc): ExecId {
    if pc.Closing? then pc.exec else 0
  }

  predicate Unregistered(pc: Pc) { pc.Naming? || pc.Registering? }

  /** What a thread's position says about the switch of its execution. */
  ghost predicate SwitchOk(pc: Pc, c: Cancels, nextId: ExecId) {
    && (pc.Closing? ==> pc.exec !in c.pending && pc.exec !in c.closed && 0 < pc.exec < nextId)
    && (Unregistered(pc) ==> pc.exec !in c.pending && pc.exec !in c.closed)
    && (PhaseOf(pc) == Before && !pc.NotingCancel? && !pc.Marking? ==> Charge(pc) !in c.early)
    && (pc.SyncRun? || pc.SyncStore? ==> pc.exec !in c.early)
    && (pc.Marking? || pc.Executing? ==> pc.exec in c.early ==> pc.exec in c.closed)
    && (pc.Storing? && pc.result == Succeeded ==> pc.exec !in c.early)
  }

  ghost predicate SwitchesOk(ts: seq<Pc>, c: Cancels, nextId: ExecId) {
    forall i {:trigger SwitchOk(ts[i], c, nextId)} :: 0 <= i < |ts| ==> SwitchOk(ts[i], c, nextId)
  }

  /** Nobody else is about to close the same switch, nor one that is not registered yet. */
  ghost predicate ClosersOk(ts: seq<Pc>) {
    && (forall i, j :: 0 <= i < j < |ts| && CloseTarget(ts[i]) != 0 ==> CloseTarget(ts[i]) != CloseTarget(ts[j]))
    && (forall i, j :: 0 <= i < |ts| && 0 <= j < |ts| && Unregistered(ts[i]) ==> CloseTarget(ts[j]) != Charge(ts[i]))
  }

  /** An execution canceled early is not a success and has never had a successor. */
  ghost predicate EarlyOk(t: Table, early: set<ExecId>) {
    && (forall id :: id in early && id in t.rows ==> t.rows[id].status != Succeeded)
    && (forall c :: c in t.births ==> t.births[c].parent !in early)
  }

  ghost predicate IdsOk(c: Cancels, nextId: ExecId) {
    && (forall e :: e in c.pending || e in c.closed || e in c.early ==> 0 < e < nextId)
    && c.pending !! c.closed
  }

  ghost predicate CancelsOk(s: State) {
    && IdsOk(s.cancels, s.table.nextId)
    && SwitchesOk(s.threads, s.cancels, s.table.nextId)
    && ClosersOk(s.threads)
    && EarlyOk(s.table, s.cancels.early)
  }

  // ----- table steps -----

  /** No status becomes `Succeeded` for an early execution, and none gets a successor. */
  ghost predicate Harmless(t: Table, t': Table, early: set<ExecId>) {
    && (forall id :: id in t'.rows && id in early && t'.rows[id].status == Succeeded
          ==> id in t.rows && t.rows[id].status == Succeeded)
    && (forall c :: c in t'.births && c !in t.births ==> t'.births[c].parent !in early)
    && (forall c :: c in t.births ==> c in t'.births && t'.births[c] == t.births[c])
    && t.nextId <= t'.nextId
  }

  // ----- moves -----

  /** A move that leaves the registry alone. */
  lemma MoveKeepsCancels(s: State, s': State, i: nat)
    requires CancelsOk(s) && s.table.nextId > 0 && i < |s.threads| == |s'.threads|
    requires s'.threads == s.threads[i := s'.threads[i]] && s'.cancels == s.cancels
    requires Harmless(s.table, s'.table, s.cancels.early)
    requires SwitchOk(s'.threads[i], s.cancels, s'.table.nextId)
    requires CloseTarget(s'.threads[i]) == 0
    requires Unregistered(s'.threads[i]) ==>
               Charge(s'.threads[i]) >= s.table.nextId
               || (Unregistered(s.threads[i]) && Charge(s.threads[i]) == Charge(s'.threads[i]))
    ensures CancelsOk(s')
  {
    forall j | 0 <= j < |s'.threads|
      ensures SwitchOk(s'.threads[j], s'.cancels, s'.table.nextId)
    {
      assert SwitchOk(s.threads[j], s.cancels, s.table.nextId);
    }
    forall j, k | 0 <= j < |s'.threads| && 0 <= k < |s'.threads| && Unregistered(s'.threads[j])
      ensures CloseTarget(s'.threads[k]) != Charge(s'.threads[j])
    {
      assert SwitchOk(s.threads[k], s.cancels, s.table.nextId);
      assert CloseTarget(s'.threads[j]) == 0;
      if j != i {
        assert CloseTarget(s.threads[j]) != Charge(s.threads[j]);
        assert CloseTarget(s.threads[k]) != Charge(s.threads[j]);
      } else if Charge(s'.threads[j]) < s.table.nextId {
        assert CloseTarget(s.threads[j]) != Charge(s.threads[j]);
      }
    }
  }

  /** A new thread that closes nothing. */
  lemma SpawnKeepsCancels(s: State, s': State, pc: Pc)
    requires CancelsOk(s) && s'.threads == s.threads + [pc] && s'.cancels == s.cancels
    requires Harmless(s.table, s'.table, s.cancels.early)
    requires SwitchOk(pc, s.cancels, s'.table.nextId) && CloseTarget(pc) == 0 && !Unregistered(pc)
    ensures CancelsOk(s')
  {
    forall j | 0 <= j < |s'.threads|
      ensures SwitchOk(s'.threads[j], s'.cancels, s'.table.nextId)
    {
      if j < |s.threads| { assert SwitchOk(s.threads[j], s.cancels, s.table.nextId); }
    }
  }

  // ----- steps -----

  lemma TriggerIsHarmless(s: State, i: nat, t: TriggerStep)
    requires i < |s.threads| && CanTrigger(s, s.threads[i], t)
    requires SwitchOk(s.threads[i], s.cancels, s.table.nextId) && IdsOk(s.cancels, s.table.nextId)
    requires s.table.nextId !in s.table.births && s.table.nextId > 0
    requires HistoryOk(s.table)
    ensures Harmless(s.table, DoTrigger(s, i, t).table, s.cancels.early)
  {
  }

  lemma TriggerSwitch(s: State, i: nat, t: TriggerStep)
    requires i < |s.threads| && CanTrigger(s, s.threads[i], t)
    requires SwitchOk(s.threads[i], s.cancels, s.table.nextId) && IdsOk(s.cancels, s.table.nextId)
    ensures SwitchOk(DoTrigger(s, i, t).threads[i], s.cancels, DoTrigger(s, i, t).table.nextId)
    ensures CloseTarget(DoTrigger(s, i, t).threads[i]) == 0
    ensures Unregistered(DoTrigger(s, i, t).threads[i]) ==> Charge(DoTrigger(s, i, t).threads[i]) == s.table.nextId
    ensures DoTrigger(s, i, t).cancels == s.cancels
    ensures DoTrigger(s, i, t).threads == s.threads[i := DoTrigger(s, i, t).threads[i]]
  {
  }

  lemma TriggerKeepsCancels(s: State, i: nat, t: TriggerStep)
    requires CancelsOk(s) && BaseOk(s) && i < |s.threads| && CanTrigger(s, s.threads[i], t)
    ensures CancelsOk(DoTrigger(s, i, t))
  {
    assert SwitchOk(s.threads[i], s.cancels, s.table.nextId);
    TriggerIsHarmless(s, i, t);
    TriggerSwitch(s, i, t);
    MoveKeepsCancels(s, DoTrigger(s, i, t), i);
  }

  lemma RegisterKeepsCancels(s: State, i: nat)
    requires CancelsOk(s) && ThreadsOk(s) && i < |s.threads| && s.threads[i].Registering?
    ensures CancelsOk(DoLaunch(s, i, Register))
  {
    var s' := DoLaunch(s, i, Register);
    assert SwitchOk(s.threads[i], s.cancels, s.table.nextId) && ThreadOk(s, i);
    forall j | 0 <= j < |s'.threads|
      ensures SwitchOk(s'.threads[j], s'.cancels, s'.table.nextId)
    {
      assert SwitchOk(s.threads[j], s.cancels, s.table.nextId);
    }
  }

  lemma TrackAndGoKeepsCancels(s: State, i: nat)
    requires CancelsOk(s) && BaseOk(s) && i < |s.threads| && s.threads[i].Tracking?
    ensures CancelsOk(DoLaunch(s, i, TrackAndGo))
  {
    var pc := s.threads[i];
    var s' := DoLaunch(s, i, TrackAndGo);
    assert SwitchOk(pc, s.cancels, s.table.nextId);
    var s1 := Move(s, i, AfterDispatch(pc.after));
    MoveKeepsCancels(s, s1, i);
    SpawnKeepsCancels(s1, s', Starting(pc.exec, pc.hook));
  }

  lemma LaunchKeepsCancels(s: State, i: nat, l: LaunchStep)
    requires CancelsOk(s) && BaseOk(s) && i < |s.threads| && CanLaunch(s.threads[i], l)
    ensures CancelsOk(DoLaunch(s, i, l))
  {
    match l
    case SetExecution =>
      assert SwitchOk(s.threads[i], s.cancels, s.table.nextId);
      MoveKeepsCancels(s, DoLaunch(s, i, l), i);
    case Register => RegisterKeepsCancels(s, i);
    case TrackAndGo => TrackAndGoKeepsCancels(s, i);
  }

  /** A queued execution that turns out to be canceled is no success and has no successor. */
  lemma StartKeepsEarly(s: State, e: ExecId)
    requires BaseOk(s) && EarlyOk(s.table, s.cancels.early)
    requires e in s.table.rows && s.table.rows[e].status == Queued
    ensures EarlyOk(s.table, s.cancels.early + {e})
  {
    assert RowOk(e, s.table.rows[e], s.now, s.ever);
    forall c | c in s.table.births
      ensures s.table.births[c].parent != e
    {
      if s.table.births[c].parent in s.table.rows { assert GenerationOk(s.table, c); }
    }
  }

  lemma StartKeepsSwitches(s: State, s': State, i: nat)
    requires CancelsOk(s) && ThreadsOk(s) && i < |s.threads| && s.threads[i].Starting?
    requires s.threads[i].exec in s.cancels.closed
    requires |s'.threads| == |s.threads| && s'.threads == s.threads[i := s'.threads[i]]
    requires (s'.threads[i].Marking? || s'.threads[i].NotingCancel?) && s'.threads[i].exec == s.threads[i].exec
    requires s'.cancels == s.cancels.(early := s.cancels.early + {s.threads[i].exec})
    requires s'.table == s.table
    ensures SwitchesOk(s'.threads, s'.cancels, s'.table.nextId) && ClosersOk(s'.threads)
    ensures IdsOk(s'.cancels, s'.table.nextId)
  {
    assert ThreadOk(s, i);
    forall j | 0 <= j < |s'.threads|
      ensures SwitchOk(s'.threads[j], s'.cancels, s'.table.nextId)
    {
      assert SwitchOk(s.threads[j], s.cancels, s.table.nextId) && ThreadOk(s, j);
    }
  }

  lemma StartKeepsCancels(s: State, i: nat, w: WorkStep)
    requires CancelsOk(s) && BaseOk(s) && i < |s.threads| && CanWork(s, s.threads[i], w)
    requires w.StartRun? || w.StartCanceled?
    ensures CancelsOk(DoWork(s, i, w))
  {
    var s' := DoWork(s, i, w);
    assert SwitchOk(s.threads[i], s.cancels, s.table.nextId) && ThreadOk(s, i);
    if s.threads[i].exec in s.cancels.closed {
      StartKeepsSwitches(s, s', i);
      StartKeepsEarly(s, s.threads[i].exec);
    } else {
      MoveKeepsCancels(s, s', i);
    }
  }

  lemma UnregisterKeepsCancels(s: State, i: nat)
    requires CancelsOk(s) && ThreadsOk(s) && i < |s.threads| && s.threads[i].Unregistering?
    ensures CancelsOk(DoWork(s, i, Unregister))
  {
    var s' := DoWork(s, i, Unregister);
    forall j | 0 <= j < |s'.threads|
      ensures SwitchOk(s'.threads[j], s'.cancels, s'.table.nextId)
    {
      assert SwitchOk(s.threads[j], s.cancels, s.table.nextId);
    }
  }

  lemma WorkIsHarmless(s: State, i: nat, w: WorkStep)
    requires i < |s.threads| && CanWork(s, s.threads[i], w)
    requires SwitchOk(s.threads[i], s.cancels, s.table.nextId)
    requires !w.StartRun? && !w.StartCanceled? && !w.Unregister?
    ensures Harmless(s.table, DoWork(s, i, w).table, s.cancels.early)
    ensures DoWork(s, i, w).table.nextId == s.table.nextId
  {
  }

  lemma WorkSwitch(s: State, i: nat, w: WorkStep)
    requires i < |s.threads| && CanWork(s, s.threads[i], w)
    requires SwitchOk(s.threads[i], s.cancels, s.table.nextId)
    requires !w.StartRun? && !w.StartCanceled? && !w.Unregister?
    ensures SwitchOk(DoWork(s, i, w).threads[i], s.cancels, s.table.nextId)
    ensures CloseTarget(DoWork(s, i, w).threads[i]) == 0 && !Unregistered(DoWork(s, i, w).threads[i])
    ensures DoWork(s, i, w).cancels == s.cancels
    ensures DoWork(s, i, w).threads == s.threads[i := DoWork(s, i, w).threads[i]]
  {
    if w.Execute? || w.Panic? || w.Store? || w.MarkAsRunning? { RunSwitch(s, i, w); }
  }

  lemma RunSwitch(s: State, i: nat, w: WorkStep)
    requires i < |s.threads| && CanWork(s, s.threads[i], w)
    requires SwitchOk(s.threads[i], s.cancels, s.table.nextId)
    requires w.Execute? || w.Panic? || w.Store? || w.MarkAsRunning?
    ensures SwitchOk(DoWork(s, i, w).threads[i], s.cancels, s.table.nextId)
    ensures CloseTarget(DoWork(s, i, w).threads[i]) == 0 && !Unregistered(DoWork(s, i, w).threads[i])
    ensures DoWork(s, i, w).cancels == s.cancels
    ensures DoWork(s, i, w).threads == s.threads[i := DoWork(s, i, w).threads[i]]
  {
  }

  lemma WorkKeepsCancels(s: State, i: nat, w: WorkStep)
    requires CancelsOk(s) && BaseOk(s) && i < |s.threads| && CanWork(s, s.threads[i], w)
    ensures CancelsOk(DoWork(s, i, w))
  {
    if w.StartRun? || w.StartCanceled? {
      StartKeepsCancels(s, i, w);
    } else if w.Unregister? {
      UnregisterKeepsCancels(s, i);
    } else {
      assert SwitchOk(s.threads[i], s.cancels, s.table.nextId);
      WorkIsHarmless(s, i, w);
      WorkSwitch(s, i, w);
      MoveKeepsCancels(s, DoWork(s, i, w), i);
    }
  }

  lemma DispatchIsHarmless(s: State, i: nat, d: DispatchStep)
    requires i < |s.threads| && CanDispatch(s, s.threads[i], d)
    requires EarlyOk(s.table, s.cancels.early) && IdsOk(s.cancels, s.table.nextId) && HistoryOk(s.table)
    ensures Harmless(s.table, DoDispatch(s, i, d).table, s.cancels.early)
  {
  }

  lemma DispatchSwitch(s: State, i: nat, d: DispatchStep)
    requires i < |s.threads| && CanDispatch(s, s.threads[i], d)
    requires SwitchOk(s.threads[i], s.cancels, s.table.nextId) && IdsOk(s.cancels, s.table.nextId)
    ensures SwitchOk(DoDispatch(s, i, d).threads[i], s.cancels, DoDispatch(s, i, d).table.nextId)
    ensures CloseTarget(DoDispatch(s, i, d).threads[i]) == 0
    ensures Unregistered(DoDispatch(s, i, d).threads[i]) ==> Charge(DoDispatch(s, i, d).threads[i]) == s.table.nextId
    ensures DoDispatch(s, i, d).cancels == s.cancels
    ensures DoDispatch(s, i, d).threads == s.threads[i := DoDispatch(s, i, d).threads[i]]
  {
    if d.Commits? { CommitSwitch(s, i, d.at); } else { QuietDispatchSwitch(s, i, d); }
  }

  lemma CommitSwitch(s: State, i: nat, at: int)
    requires i < |s.threads| && CanDispatch(s, s.threads[i], Commits(at)) && IdsOk(s.cancels, s.table.nextId)
    ensures var s' := DoDispatch(s, i, Commits(at));
            && SwitchOk(s'.threads[i], s.cancels, s'.table.nextId) && CloseTarget(s'.threads[i]) == 0
            && Charge(s'.threads[i]) == s.table.nextId
            && s'.cancels == s.cancels && s'.threads == s.threads[i := s'.threads[i]]
  {
  }

  lemma QuietDispatchSwitch(s: State, i: nat, d: DispatchStep)
    requires i < |s.threads| && CanDispatch(s, s.threads[i], d) && !d.Commits?
    ensures var s' := DoDispatch(s, i, d);
            && SwitchOk(s'.threads[i], s.cancels, s'.table.nextId) && CloseTarget(s'.threads[i]) == 0
            && !Unregistered(s'.threads[i])
            && s'.cancels == s.cancels && s'.threads == s.threads[i := s'.threads[i]]
  {
  }

  lemma DispatchKeepsCancels(s: State, i: nat, d: DispatchStep)
    requires CancelsOk(s) && BaseOk(s) && i < |s.threads| && CanDispatch(s, s.threads[i], d)
    ensures CancelsOk(DoDispatch(s, i, d))
  {
    assert SwitchOk(s.threads[i], s.cancels, s.table.nextId);
    DispatchIsHarmless(s, i, d);
    DispatchSwitch(s, i, d);
    MoveKeepsCancels(s, DoDispatch(s, i, d), i);
  }

  /** Taking the channel and closing it are two steps; nobody else can come between. */
  lemma TakeKeepsCancels(s: State, e: ExecId)
    requires CancelsOk(s) && e in s.cancels.pending
    ensures CancelsOk(Apply(s, TakeCancel(e)))
  {
    var s' := Apply(s, TakeCancel(e));
    forall j | 0 <= j < |s'.threads|
      ensures SwitchOk(s'.threads[j], s'.cancels, s'.table.nextId)
    {
      if j < |s.threads| { assert SwitchOk(s.threads[j], s.cancels, s.table.nextId); }
    }
    forall j | 0 <= j < |s.threads|
      ensures CloseTarget(s.threads[j]) != e && (Unregistered(s.threads[j]) ==> Charge(s.threads[j]) != e)
    {
      assert SwitchOk(s.threads[j], s.cancels, s.table.nextId);
    }
  }

  lemma CloseKeepsCancels(s: State, i: nat)
    requires CancelsOk(s) && i < |s.threads| && s.threads[i].Closing?
    ensures CancelsOk(Apply(s, CloseCancel(i)))
  {
    var s' := Apply(s, CloseCancel(i));
    var e := s.threads[i].exec;
    assert SwitchOk(s.threads[i], s.cancels, s.table.nextId);
    forall j | 0 <= j < |s'.threads|
      ensures SwitchOk(s'.threads[j], s'.cancels, s'.table.nextId)
    {
      assert SwitchOk(s.threads[j], s.cancels, s.table.nextId);
      assert j != i ==> CloseTarget(s.threads[i]) != CloseTarget(s.threads[j]);
    }
  }

  lemma TableStepKeepsCancels(s: State, t: Table)
    requires CancelsOk(s) && Harmless(s.table, t, s.cancels.early)
    ensures CancelsOk(s.(table := t))
  {
    var s' := s.(table := t);
    forall j | 0 <= j < |s'.threads|
      ensures SwitchOk(s'.threads[j], s'.cancels, s'.table.nextId)
    {
      assert SwitchOk(s.threads[j], s.cancels, s.table.nextId);
    }
  }

  lemma ClaimKeepsCancels(s: State, parent: ExecId, attempt: int)
    requires CancelsOk(s) && Enabled(s, Claim(parent, attempt))
    ensures CancelsOk(Apply(s, Claim(parent, attempt)))
  {
    SpawnKeepsCancels(s, Apply(s, Claim(parent, attempt)), Dispatching(parent, AnswerRetry(parent, attempt, 0)));
  }

  lemma RefusalKeepsCancels(s: State, hook: HookId, at: int)
    requires CancelsOk(s) && HistoryOk(s.table)
    ensures CancelsOk(s.(table := InsertRefusal(s.table, hook, at)))
  {
    assert 0 !in s.cancels.early;
    TableStepKeepsCancels(s, InsertRefusal(s.table, hook, at));
  }

  lemma StepKeepsCancels(s: State, e: Event)
    requires CancelsOk(s) && BaseOk(s) && Enabled(s, e)
    ensures CancelsOk(Apply(s, e))
  {
    match e
    case Trigger(i, t) => TriggerKeepsCancels(s, i, t);
    case Launching(i, l) => LaunchKeepsCancels(s, i, l);
    case Work(i, w) => WorkKeepsCancels(s, i, w);
    case Dispatch(i, d) => DispatchKeepsCancels(s, i, d);
    case CloseCancel(i) => CloseKeepsCancels(s, i);
    case TakeCancel(exec) => TakeKeepsCancels(s, exec);
    case Load(hook) => SpawnKeepsCancels(s, Apply(s, e), Loaded(hook, s.hooks[hook]));
    case Claim(parent, attempt) => ClaimKeepsCancels(s, parent, attempt);
    case RefuseTrigger(hook, at) => RefusalKeepsCancels(s, hook, at);
    case CleanUp(cutoff) => TableStepKeepsCancels(s, CleanTable(s.table, cutoff));
    case _ =>
  }
}
