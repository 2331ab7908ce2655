/** What holds over every run of the protocol. */
module ProtocolTheorems {
  import opened HookGraph
  import opened Executions
  import opened Retention
  import opened Protocol
  import opened ProtocolThreads
  import opened ProtocolRunner
  import opened ProtocolCancels

  ghost predicate Ok(s: State) {
    BaseOk(s) && RunnerOk(s) && CancelsOk(s)
  }

  ghost predicate Reaches(s: State, events: seq<Event>, s': State) {
    Run(s, events) == Some(s')
  }

  ghost predicate Reachable(s: State) {
    exists s0, events :: Init(s0) && Reaches(s0, events, s)
  }

  lemma InitTable(s: State)
    requires Init(s)
    ensures TableOk(s.table, s.now, s.ever)
  {
    forall id | id in s.table.rows
      ensures RowOk(id, s.table.rows[id], s.now, s.ever) && LinkOk(s.table, id) && ReferenceOk(s.table, id)
    {
      assert Legacy(s.table.rows[id], s.now);
    }
    assert 0 !in s.table.rows;
  }

  lemma InitOk(s: State)
    requires Init(s)
    ensures Ok(s)
  {
    InitTable(s);
  }

  lemma StepKeepsOk(s: State, e: Event)
    requires Ok(s) && Enabled(s, e)
    ensures Ok(Apply(s, e))
  {
    StepKeepsBase(s, e);
    StepKeepsRunner(s, e);
    StepKeepsCancels(s, e);
  }

  lemma {:induction false} RunKeepsOk(s: State, events: seq<Event>, s': State)
    requires Ok(s) && Reaches(s, events, s')
    ensures Ok(s')
    decreases |events|
  {
    if events != [] {
      StepKeepsOk(s, events[0]);
      RunKeepsOk(Apply(s, events[0]), events[1..], s');
    }
  }

  lemma ReachableIsOk(s: State)
    requires Reachable(s)
    ensures Ok(s)
  {
    var s0, events :| Init(s0) && Reaches(s0, events, s);
    InitOk(s0);
    RunKeepsOk(s0, events, s);
  }

  // ----- successors -----

  /** Of two successors of one execution at least one is dead, and all of them are
      unless the handoff is dispatched; then the one it refers to may be alive. */
  lemma AtMostOneLiveSuccessor(s: State, c: ExecId)
    requires Reachable(s)
    requires c in s.table.rows && s.table.rows[c].parent != 0
    ensures s.table.rows[c].parent in s.table.rows
    ensures var p := s.table.rows[s.table.rows[c].parent];
            && p.status == Succeeded
            && (p.handoff != Dispatched || p.child != c ==> Dead(s.table.rows[c].status))
    ensures forall d :: d in s.table.rows && d != c && s.table.rows[d].parent == s.table.rows[c].parent
              ==> Dead(s.table.rows[c].status) || Dead(s.table.rows[d].status)
  {
    ReachableIsOk(s);
    var t := s.table;
    assert LinkOk(t, c);
    assert RowOk(t.rows[c].parent, t.rows[t.rows[c].parent], s.now, s.ever);
    forall d | d in t.rows && d != c && t.rows[d].parent == t.rows[c].parent
      ensures Dead(t.rows[c].status) || Dead(t.rows[d].status)
    {
      assert LinkOk(t, d);
    }
  }

  /** A dispatched handoff names an existing row, so a retry always finds the child. */
  lemma DispatchedSuccessorExists(s: State, parent: ExecId, attempt: int)
    requires Reachable(s)
    ensures (parent in s.table.rows && s.table.rows[parent].handoff == Dispatched) ==>
              s.table.rows[parent].child in s.table.rows
              && s.table.rows[s.table.rows[parent].child].parent == parent
    ensures JudgeRetry(s.table, parent, attempt) != ChildUnavailable
  {
    ReachableIsOk(s);
    if parent in s.table.rows { assert ReferenceOk(s.table, parent); }
  }

  /** A recorded handoff belongs to a success that has a target and counts its attempts. */
  lemma HandoffImpliesSuccess(s: State, id: ExecId)
    requires Reachable(s)
    requires id in s.table.rows && s.table.rows[id].handoff != NoHandoff
    ensures s.table.rows[id].status == Succeeded && s.table.rows[id].target != NONE && s.table.rows[id].attempt >= 1
  {
    ReachableIsOk(s);
    assert RowOk(id, s.table.rows[id], s.now, s.ever);
  }

  // ----- the chain -----

  lemma ChainPathGrows(s: State, id: ExecId)
    requires Reachable(s) && id in s.table.rows
    ensures var r := s.table.rows[id];
            && Distinct(r.path) && (forall h :: h in r.path ==> h in s.ever)
            && (r.path != [] ==> r.path[|r.path| - 1] == r.hook)
            && (r.parent != 0 ==> r.parent in s.table.rows && r.path == s.table.rows[r.parent].path + [r.hook])
  {
    ReachableIsOk(s);
    assert RowOk(id, s.table.rows[id], s.now, s.ever) && LinkOk(s.table, id);
  }

  lemma {:induction false} DistinctFits(p: seq<HookId>, all: set<HookId>)
    requires Distinct(p) && forall h :: h in p ==> h in all
    ensures |p| <= |all|
    decreases |p|
  {
    if p != [] {
      var last := p[|p| - 1];
      DistinctFits(p[..|p| - 1], all - {last});
    }
  }

  /** `chain` lists executions each of which is the successor of the one before. */
  ghost predicate IsChain(t: Table, chain: seq<ExecId>) {
    && (forall k :: 0 <= k < |chain| ==> chain[k] in t.rows)
    && (forall k, l :: 0 <= k && l == k + 1 && l < |chain| ==> t.rows[chain[l]].parent == chain[k] && chain[k] != 0)
  }

  lemma {:induction false} PathCoversChain(s: State, chain: seq<ExecId>)
    requires Ok(s) && IsChain(s.table, chain) && |chain| >= 2
    ensures |s.table.rows[chain[|chain| - 1]].path| >= |chain|
    decreases |chain|
  {
    var t := s.table;
    var last := chain[|chain| - 1];
    var prev := chain[|chain| - 2];
    assert t.rows[last].parent == prev;
    assert LinkOk(t, last);
    assert t.rows[prev].handoff != NoHandoff;
    assert RowOk(prev, t.rows[prev], s.now, s.ever);
    if |chain| > 2 {
      var init := chain[..|chain| - 1];
      assert init[|init| - 1] == prev;
      PathCoversChain(s, init);
    }
  }

  /** However the hooks are edited while it runs, a chain is never longer than the number
      of hook ids there have ever been. */
  lemma ChainDepthIsBounded(s: State, chain: seq<ExecId>)
    requires Reachable(s) && IsChain(s.table, chain) && |chain| >= 2
    ensures |chain| <= |s.ever|
  {
    ReachableIsOk(s);
    PathCoversChain(s, chain);
    var last := chain[|chain| - 1];
    assert RowOk(last, s.table.rows[last], s.now, s.ever);
    DistinctFits(s.table.rows[last].path, s.ever);
  }

  // ----- generations -----

  lemma {:induction false} GenerationsFit(births: map<ExecId, Birth>, cs: set<ExecId>, n: nat)
    requires forall c :: c in cs ==> c in births && 1 <= births[c].attempt <= n
    requires forall c, d :: c in cs && d in cs && births[c].attempt == births[d].attempt ==> c == d
    ensures |cs| <= n
    decreases n
  {
    if n == 0 {
      forall c
        ensures c !in cs
      {
      }
      assert cs == {};
    } else if c :| c in cs && births[c].attempt == n {
      GenerationsFit(births, cs - {c}, n - 1);
    } else {
      GenerationsFit(births, cs, n - 1);
    }
  }

  /** Each attempt bears at most one successor, deleted ones included, so an execution
      never has more successors than attempts. */
  lemma SuccessorsFitAttempts(s: State, parent: ExecId)
    requires Reachable(s) && parent in s.table.rows
    ensures var born := set c | c in s.table.births && s.table.births[c].parent == parent;
            && |born| <= s.table.rows[parent].attempt
            && (forall c :: c in s.table.rows && s.table.rows[c].parent == parent ==> c in born)
            && (forall c, d :: c in born && d in born && s.table.births[c].attempt == s.table.births[d].attempt ==> c == d)
  {
    ReachableIsOk(s);
    var t := s.table;
    assert parent != 0;
    var born := set c | c in t.births && t.births[c].parent == parent;
    forall c | c in born
      ensures 1 <= t.births[c].attempt <= t.rows[parent].attempt
    {
      assert GenerationOk(t, c);
    }
    assert RowOk(parent, t.rows[parent], s.now, s.ever);
    GenerationsFit(t.births, born, t.rows[parent].attempt);
  }

  // ----- what a step can do to a row -----

  /** No id comes back, no attempt goes down, no ended row changes its status, and nobody
      moves a row within its chain; `gone` says whether rows may disappear. */
  ghost predicate RowsAge(t: Table, t': Table, gone: bool) {
    && t.nextId <= t'.nextId
    && (forall id :: id in t'.rows && id < t.nextId ==> id in t.rows)
    && (!gone ==> forall id :: id in t.rows ==> id in t'.rows)
    && (forall id :: id in t.rows && id in t'.rows ==> RowAges(t.rows[id], t'.rows[id]))
  }

  predicate RowAges(r: Row, r': Row) {
    && r'.hook == r.hook && r'.parent == r.parent && r'.path == r.path && r'.target == r.target
    && r.attempt <= r'.attempt
    && (!Active(r.status) ==> r'.status == r.status)
  }

  lemma FinishAges(t: Table, id: ExecId, status: Status, at: int)
    requires forall x :: x in t.rows && Active(t.rows[x].status) ==> t.rows[x].attempt == 0
    ensures RowsAge(t, FinishExecution(t, id, status, at), false)
  {
  }

  /** The statements without a guard age a row only because its owner knows it is active. */
  lemma UnguardedAges(t: Table, id: ExecId, status: Status, at: int)
    requires id in t.rows && Active(t.rows[id].status)
    ensures RowsAge(t, MarkRunning(t, id, at), false)
    ensures RowsAge(t, LogExecutionEnd(t, id, status, at), false)
  {
  }

  lemma TriggerAges(s: State, i: nat, t: TriggerStep)
    requires i < |s.threads| && CanTrigger(s, s.threads[i], t)
    requires s.table.nextId !in s.table.rows
    requires forall id :: id in s.table.rows && Active(s.table.rows[id].status) ==> s.table.rows[id].attempt == 0
    ensures RowsAge(s.table, DoTrigger(s, i, t).table, false)
  {
    if t.SyncFinish? { FinishAges(s.table, s.threads[i].exec, s.threads[i].result, t.at); }
  }

  lemma WorkAges(s: State, i: nat, w: WorkStep)
    requires i < |s.threads| && CanWork(s, s.threads[i], w) && ThreadOk(s, i)
    requires forall id :: id in s.table.rows && Active(s.table.rows[id].status) ==> s.table.rows[id].attempt == 0
    ensures RowsAge(s.table, DoWork(s, i, w).table, false)
  {
    var pc := s.threads[i];
    match w
    case Store(_, at) => FinishAges(s.table, pc.exec, pc.result, at);
    case MarkAsRunning(_, at) => UnguardedAges(s.table, pc.exec, Running, at);
    case LogCanceled(_, at) => UnguardedAges(s.table, pc.exec, Canceled, at);
    case LogPanic(_, at) => UnguardedAges(s.table, pc.exec, Failed, at);
    case _ => assert DoWork(s, i, w).table == s.table;
  }

  lemma DispatchAges(s: State, i: nat, d: DispatchStep)
    requires i < |s.threads| && CanDispatch(s, s.threads[i], d)
    requires s.table.nextId !in s.table.rows
    ensures RowsAge(s.table, DoDispatch(s, i, d).table, false)
  {
  }

  lemma RestartAges(s: State, swept: bool, at: int)
    ensures RowsAge(s.table, Reborn(s, swept, at).table, false)
  {
  }

  lemma ClaimAges(s: State, parent: ExecId, attempt: int)
    requires JudgeRetry(s.table, parent, attempt).Claimed?
    ensures RowsAge(s.table, ClaimRetry(s.table, parent, attempt), false)
  {
  }

  lemma QuietAges(s: State, e: Event)
    requires Enabled(s, e) && s.table.nextId !in s.table.rows
    requires !e.Trigger? && !e.Work? && !e.Dispatch? && !e.Claim? && !e.Restart?
    ensures RowsAge(s.table, Apply(s, e).table, e.CleanUp?)
  {
  }

  lemma ActiveHasNoAttempts(t: Table, now: int, ever: set<HookId>)
    requires TableOk(t, now, ever)
    ensures forall id :: id in t.rows && Active(t.rows[id].status) ==> t.rows[id].attempt == 0
    ensures t.nextId !in t.rows
  {
    forall id | id in t.rows && Active(t.rows[id].status)
      ensures t.rows[id].attempt == 0
    {
      assert RowOk(id, t.rows[id], now, ever);
    }
  }

  /** Every step but cleanup keeps every row, and every ended row keeps its status. */
  lemma StepAges(s: State, e: Event)
    requires Ok(s) && Enabled(s, e)
    ensures RowsAge(s.table, Apply(s, e).table, e.CleanUp?)
  {
    ActiveHasNoAttempts(s.table, s.now, s.ever);
    match e
    case Trigger(i, t) => TriggerAges(s, i, t);
    case Work(i, w) => assert ThreadOk(s, i); WorkAges(s, i, w);
    case Dispatch(i, d) => DispatchAges(s, i, d);
    case Claim(parent, attempt) => ClaimAges(s, parent, attempt);
    case Restart(swept, at) => RestartAges(s, swept, at);
    case _ => QuietAges(s, e);
  }

  lemma {:induction false} RunAges(s: State, events: seq<Event>, s': State)
    requires Ok(s) && Reaches(s, events, s')
    ensures RowsAge(s.table, s'.table, true)
    decreases |events|
  {
    if events != [] {
      var s1 := Apply(s, events[0]);
      StepKeepsOk(s, events[0]);
      StepAges(s, events[0]);
      RunAges(s1, events[1..], s');
      AgesCompose(s.table, s1.table, s'.table);
    }
  }

  lemma AgesCompose(a: Table, b: Table, c: Table)
    requires (RowsAge(a, b, true) || RowsAge(a, b, false)) && RowsAge(b, c, true)
    requires forall id :: id in a.rows ==> id < a.nextId
    ensures RowsAge(a, c, true)
  {
    forall id | id in a.rows && id in c.rows
      ensures RowAges(a.rows[id], c.rows[id])
    {
      assert id in b.rows;
    }
  }

  /** Whatever happens afterwards - a successor's failure, cancel or retry, a crash, a
      sweep - an execution that has ended keeps its status as long as its row exists. */
  lemma TerminalStatusIsAbsorbing(s: State, events: seq<Event>, s': State, id: ExecId)
    requires Reachable(s) && Reaches(s, events, s')
    requires id in s.table.rows && !Active(s.table.rows[id].status)
    ensures id in s'.table.rows ==> s'.table.rows[id].status == s.table.rows[id].status
  {
    ReachableIsOk(s);
    RunAges(s, events, s');
  }

  // ----- retries -----

  /** Claims of one execution carry strictly increasing generations, so no pair of
      execution and attempt is claimed twice, however often a request is repeated. */
  lemma ClaimsAreExactlyOnce(s: State, events: seq<Event>, s': State, i: nat, j: nat)
    requires Reachable(s) && Reaches(s, events, s')
    requires i < j < |events| && events[i].Claim? && events[j].Claim? && events[i].parent == events[j].parent
    ensures events[i].attempt < events[j].attempt
  {
    assert events == events[..i] + events[i..];
    var mid := Midway(s, events[..i], events[i..], s');
    ReachableIsOk(s);
    RunKeepsOk(s, events[..i], mid);
    assert events[i..][0] == events[i] && events[i..][j - i] == events[j];
    FirstClaimIsLowest(mid, events[i..], s', j - i);
  }

  /** The execution's attempt is at least `floor`, or its row is gone for good. */
  ghost predicate Above(t: Table, parent: ExecId, floor: int) {
    parent < t.nextId && (parent in t.rows ==> t.rows[parent].attempt >= floor)
  }

  lemma {:induction false} AttemptsStayAbove(
      s: State, events: seq<Event>, s': State, parent: ExecId, floor: int, k: nat)
    requires Ok(s) && Reaches(s, events, s') && Above(s.table, parent, floor)
    requires k < |events| && events[k].Claim? && events[k].parent == parent
    ensures events[k].attempt >= floor
    decreases k
  {
    if k > 0 {
      StepKeepsOk(s, events[0]);
      StepAges(s, events[0]);
      AttemptsStayAbove(Apply(s, events[0]), events[1..], s', parent, floor, k - 1);
    }
  }

  lemma ClaimRaisesFloor(s: State, e: Event)
    requires Enabled(s, e) && e.Claim? && HistoryOk(s.table)
    ensures Above(Apply(s, e).table, e.parent, e.attempt + 1)
  {
  }

  /** A claim is below every later one of the same execution. */
  lemma FirstClaimIsLowest(s: State, events: seq<Event>, s': State, j: nat)
    requires Ok(s) && Reaches(s, events, s')
    requires 0 < j < |events| && events[0].Claim? && events[j].Claim? && events[0].parent == events[j].parent
    ensures events[0].attempt < events[j].attempt
  {
    StepKeepsOk(s, events[0]);
    ClaimRaisesFloor(s, events[0]);
    assert events[1..][j - 1] == events[j];
    AttemptsStayAbove(Apply(s, events[0]), events[1..], s', events[0].parent, events[0].attempt + 1, j - 1);
  }

  /** A run has a state after each of its prefixes. */
  lemma {:induction false} Midway(s: State, a: seq<Event>, b: seq<Event>, s': State) returns (mid: State)
    requires Reaches(s, a + b, s')
    ensures Reaches(s, a, mid) && Reaches(mid, b, s')
    decreases |a|
  {
    if a == [] {
      mid := s;
      assert a + b == b;
    } else {
      assert (a + b)[1..] == a[1..] + b;
      mid := Midway(Apply(s, a[0]), a[1..], b, s');
    }
  }

  // ----- cancellation -----

  /** At the moment a switch is about to be closed it has not been closed before. */
  lemma NoSwitchIsClosedTwice(s: State, i: nat)
    requires Reachable(s) && Enabled(s, CloseCancel(i))
    ensures s.threads[i].exec !in s.cancels.closed && s.threads[i].exec !in s.cancels.pending
    ensures forall j :: 0 <= j < |s.threads| && j != i && s.threads[j].Closing? ==> s.threads[j].exec != s.threads[i].exec
  {
    ReachableIsOk(s);
    assert SwitchOk(s.threads[i], s.cancels, s.table.nextId);
    forall j | 0 <= j < |s.threads| && j != i && s.threads[j].Closing?
      ensures s.threads[j].exec != s.threads[i].exec
    {
      assert CloseTarget(s.threads[i]) != CloseTarget(s.threads[j]);
    }
  }

  lemma {:induction false} EarlyIsForever(s: State, events: seq<Event>, s': State)
    requires Reaches(s, events, s')
    ensures s.cancels.early <= s'.cancels.early
    decreases |events|
  {
    if events != [] {
      var s1 := Apply(s, events[0]);
      match events[0] {
        case Trigger(i, t) =>
        case Launching(i, l) =>
        case Work(i, w) =>
        case Dispatch(i, d) =>
        case _ =>
      }
      EarlyIsForever(s1, events[1..], s');
    }
  }

  /** An execution whose switch is closed by the time Start returns never ends as a
      success and never gets a successor, whichever case the racing selects take and
      whatever happens later, restarts included. */
  lemma CanceledBeforeStartNeverSucceeds(s: State, i: nat, w: WorkStep, events: seq<Event>, s': State)
    requires Reachable(s) && Enabled(s, Work(i, w)) && (w.StartRun? || w.StartCanceled?)
    requires s.threads[i].exec in s.cancels.closed
    requires Reaches(Apply(s, Work(i, w)), events, s')
    ensures var e := s.threads[i].exec;
            && (e in s'.table.rows ==> s'.table.rows[e].status != Succeeded)
            && (forall c :: c in s'.table.births ==> s'.table.births[c].parent != e)
            && (forall c :: c in s'.table.rows ==> s'.table.rows[c].parent != e)
  {
    ReachableIsOk(s);
    var s1 := Apply(s, Work(i, w));
    StepKeepsOk(s, Work(i, w));
    RunKeepsOk(s1, events, s');
    EarlyIsForever(s1, events, s');
    assert s.threads[i].exec in s1.cancels.early;
  }

  // ----- the runner -----

  /** The bounds of the runner and what its wait group counts. */
  lemma RunnerIsConserved(s: State)
    requires Reachable(s)
    ensures |s.runner.inFlight| <= s.runner.capacity
    ensures s.runner.slots == Total(RunSlot, s.threads) <= s.runner.maxConcurrent
    ensures s.runner.wg == |s.runner.inFlight| + Total(Settling, s.threads) + Total(Handoff, s.threads)
    ensures forall i, j :: 0 <= i < j < |s.threads| && HeldHook(s.threads[i]).Some?
              ==> HeldHook(s.threads[i]) != HeldHook(s.threads[j])
    ensures forall i :: 0 <= i < |s.threads| && HeldHook(s.threads[i]).Some?
              ==> HeldHook(s.threads[i]).value in s.runner.inFlight
    ensures forall h :: h in s.runner.inFlight
              ==> exists i :: 0 <= i < |s.threads| && HeldHook(s.threads[i]) == Some(h)
  {
    ReachableIsOk(s);
    forall i, j | 0 <= i < j < |s.threads| && HeldHook(s.threads[i]).Some?
      ensures HeldHook(s.threads[i]) != HeldHook(s.threads[j])
      ensures HeldHook(s.threads[i]).value in s.runner.inFlight
    {
      assert HolderOk(s.runner, s.threads, i) && HolderOk(s.runner, s.threads, j);
    }
    forall i | 0 <= i < |s.threads| && HeldHook(s.threads[i]).Some?
      ensures HeldHook(s.threads[i]).value in s.runner.inFlight
    {
      assert HolderOk(s.runner, s.threads, i);
    }
    forall h | h in s.runner.inFlight
      ensures exists i :: 0 <= i < |s.threads| && HeldHook(s.threads[i]) == Some(h)
    {
      assert EntryOk(s.runner, s.threads, h);
    }
  }

  /** From the moment a worker is started until its handoff has ended the wait group is
      not zero, so WaitIdle cannot return between a release and the next admission. */
  lemma OpenHandoffBlocksWaitIdle(s: State, i: nat)
    requires Reachable(s) && i < |s.threads|
    requires HandoffOpen(s.threads[i]) || HeldHook(s.threads[i]).Some?
    ensures s.runner.wg >= 1
  {
    ReachableIsOk(s);
    if HandoffOpen(s.threads[i]) {
      OwnerCounts(Handoff, s.threads, i);
    } else {
      OwnerCounts(Admission, s.threads, i);
    }
  }

  /** When a successor is admitted its parent's success is stored and pending, and no
      thread still holds an admission or a running slot for the parent. */
  lemma SuccessorIsAdmittedAfterRelease(s: State, i: nat)
    requires Reachable(s) && Enabled(s, Dispatch(i, Admits))
    ensures var parent := s.threads[i].parent;
            && parent in s.table.rows
            && s.table.rows[parent].status == Succeeded && s.table.rows[parent].handoff == Pending
            && (forall j :: 0 <= j < |s.threads| && Charge(s.threads[j]) == parent
                  ==> !Owns(Admission, s.threads[j]) && !Owns(RunSlot, s.threads[j]))
  {
    ReachableIsOk(s);
    assert ThreadOk(s, i);
    forall j | 0 <= j < |s.threads| && Charge(s.threads[j]) == s.threads[i].parent
      ensures j == i
    {
    }
  }
}
