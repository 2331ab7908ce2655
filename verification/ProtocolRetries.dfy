/** What the answer to a retry request means. The request claims a generation, dispatches,
    and reads the row once more before it answers; other requests run in between. */
module ProtocolRetries {
  import opened HookGraph
  import opened Executions
  import opened Protocol
  import opened ProtocolThreads
  import opened ProtocolTheorems

  /** What the thread will do after its dispatch, if it is in one or behind one. */
  function AfterOf(pc: Pc): After {
    match pc
    case Naming(_, _, after) => after
    case Registering(_, _, after) => after
    case Tracking(_, _, after) => after
    case Dispatching(_, after) => after
    case InTransaction(_, _, _, after) => after
    case Abandoning(_, _, after) => after
    case AbandoningCount(_, after) => after
    case RecordingFailure(_, after) => after
    case Answering(retried, claimed, own) => AnswerRetry(retried, claimed, own)
    case _ => Leave
  }

  predicate IsRequest(pc: Pc) { AfterOf(pc).AnswerRetry? }

  predicate InDispatch(pc: Pc) {
    pc.Dispatching? || pc.InTransaction? || pc.Abandoning? || pc.AbandoningCount? || pc.RecordingFailure?
  }

  /** The request's claim stands, and its own successor is the one of the generation it
      claimed, if that generation has one. */
  ghost predicate RequestOk(after: After, t: Table) {
    after.AnswerRetry? ==>
      && 0 < after.retried < t.nextId && after.claimed >= 1
      && (after.retried in t.rows ==> t.rows[after.retried].attempt > after.claimed)
      && (after.own != 0 ==>
            after.own in t.births && t.births[after.own].parent == after.retried
            && t.births[after.own].attempt == after.claimed + 1)
      && (after.own == 0 ==> Barren(t, after.retried, after.claimed + 1))
  }

  /** A generation has no successor. */
  ghost predicate Barren(t: Table, parent: ExecId, attempt: int) {
    forall c :: c in t.births && t.births[c].parent == parent ==> t.births[c].attempt != attempt
  }

  /** The generation whose handoff a thread may carry out. */
  function TurnOf(pc: Pc): int {
    if InDispatch(pc) && IsRequest(pc) then AfterOf(pc).claimed + 1 else 1
  }

  /** A pending handoff is of the generation of the thread in charge. */
  ghost predicate TurnOk(pc: Pc, t: Table) {
    Charge(pc) in t.rows && t.rows[Charge(pc)].handoff == Pending ==> t.rows[Charge(pc)].attempt == TurnOf(pc)
  }

  ghost predicate PcOk(pc: Pc, t: Table) {
    && RequestOk(AfterOf(pc), t)
    && TurnOk(pc, t)
    && (InDispatch(pc) && IsRequest(pc) ==> AfterOf(pc).retried == pc.parent && AfterOf(pc).own == 0)
  }

  predicate SameRequest(a: After, b: After) {
    a.AnswerRetry? && b.AnswerRetry? && a.retried == b.retried && a.claimed == b.claimed
  }

  ghost predicate PcsOk(ts: seq<Pc>, t: Table) {
    forall i {:trigger PcOk(ts[i], t)} :: 0 <= i < |ts| ==> PcOk(ts[i], t)
  }

  /** No claim has been granted to two requests. */
  ghost predicate RequestsDiffer(ts: seq<Pc>) {
    forall i, j {:trigger AfterOf(ts[i]), AfterOf(ts[j])} :: 0 <= i < j < |ts| ==> !SameRequest(AfterOf(ts[i]), AfterOf(ts[j]))
  }

  ghost predicate RetriesOk(s: State) {
    PcsOk(s.threads, s.table) && RequestsDiffer(s.threads)
  }

  // ----- steps that give no successor -----

  /** No new successor, and a row pending now was pending in the same generation. */
  ghost predicate NoSuccessor(t: Table, t': Table) {
    && t.nextId <= t'.nextId
    && (forall c :: c in t.births ==> c in t'.births && t'.births[c] == t.births[c])
    && (forall c :: c in t'.births && c !in t.births ==> t'.births[c].parent == 0)
    && (forall id :: id in t'.rows && id < t.nextId ==> id in t.rows && t.rows[id].attempt <= t'.rows[id].attempt)
  }

  /** A row that is pending now was pending in the same generation. */
  ghost predicate PendingWas(t: Table, t': Table, id: ExecId) {
    (id in t.rows && id in t'.rows && t'.rows[id].handoff == Pending) ==>
      t.rows[id].handoff == Pending && t'.rows[id].attempt == t.rows[id].attempt
  }

  lemma RequestStays(after: After, t: Table, t': Table)
    requires RequestOk(after, t) && NoSuccessor(t, t')
    ensures RequestOk(after, t')
  {
  }

  /** A thread that was in charge of a row nobody else writes. */
  lemma OtherStays(pc: Pc, t: Table, t': Table)
    requires PcOk(pc, t) && NoSuccessor(t, t')
    requires Charge(pc) < t.nextId
    requires PendingWas(t, t', Charge(pc))
    ensures PcOk(pc, t')
  {
    RequestStays(AfterOf(pc), t, t');
  }

  /** The request is given up or carried on, and the charge with its turn likewise. */
  predicate CarriesOn(pc: Pc, pc': Pc) {
    && (AfterOf(pc') == AfterOf(pc) || !IsRequest(pc'))
    && (InDispatch(pc') && IsRequest(pc') ==> InDispatch(pc) && pc'.parent == pc.parent)
    && (Charge(pc') == 0 || (Charge(pc') == Charge(pc) && TurnOf(pc') == TurnOf(pc)))
  }

  /** A step of one thread that writes at most the row it is in charge of. */
  lemma MoveKeepsRetries(s: State, s': State, i: nat)
    requires BaseOk(s) && RetriesOk(s) && i < |s.threads| == |s'.threads|
    requires s'.threads == s.threads[i := s'.threads[i]]
    requires OnlyTouches(s.table, s'.table, Charge(s.threads[i])) && NoSuccessor(s.table, s'.table)
    requires PcOk(s'.threads[i], s'.table)
    requires AfterOf(s'.threads[i]) == AfterOf(s.threads[i]) || !IsRequest(s'.threads[i])
    ensures RetriesOk(s')
  {
    forall j | 0 <= j < |s'.threads|
      ensures PcOk(s'.threads[j], s'.table)
    {
      if j != i {
        assert ThreadOk(s, j) && PcOk(s.threads[j], s.table);
        OtherStays(s.threads[j], s.table, s'.table);
      }
    }
  }

  /** A step of one thread that leaves the table alone. */
  lemma QuietKeepsRetries(s: State, s': State, i: nat)
    requires BaseOk(s) && RetriesOk(s) && i < |s.threads| == |s'.threads|
    requires s'.threads == s.threads[i := s'.threads[i]] && s'.table == s.table
    requires CarriesOn(s.threads[i], s'.threads[i])
    ensures RetriesOk(s')
  {
    assert PcOk(s.threads[i], s.table);
    ZeroIsNoRow(s);
    MoveKeepsRetries(s, s', i);
  }

  lemma ZeroIsNoRow(s: State)
    requires BaseOk(s)
    ensures 0 !in s.table.rows
  {
  }

  lemma SpawnKeepsRetries(s: State, s': State, pc: Pc)
    requires RetriesOk(s) && s'.threads == s.threads + [pc]
    requires s'.table == s.table && !IsRequest(pc) && PcOk(pc, s.table)
    ensures RetriesOk(s')
  {
    forall j | 0 <= j < |s'.threads|
      ensures PcOk(s'.threads[j], s'.table)
    {
      if j < |s.threads| { assert PcOk(s.threads[j], s.table); }
    }
  }

  lemma TableStepKeepsRetries(s: State, s': State)
    requires BaseOk(s) && RetriesOk(s) && s'.threads == s.threads && NoSuccessor(s.table, s'.table)
    requires forall id :: id in s'.table.rows ==> PendingWas(s.table, s'.table, id)
    ensures RetriesOk(s')
  {
    forall j | 0 <= j < |s'.threads|
      ensures PcOk(s'.threads[j], s'.table)
    {
      assert ThreadOk(s, j) && PcOk(s.threads[j], s.table);
      OtherStays(s.threads[j], s.table, s'.table);
    }
  }

  // ----- every step keeps the answers right -----

  lemma QuietTriggerCarriesOn(s: State, i: nat, t: TriggerStep)
    requires i < |s.threads| && CanTrigger(s, s.threads[i], t)
    requires !t.SyncInsert? && !t.AsyncInsert? && !t.SyncFinish?
    ensures CarriesOn(s.threads[i], DoTrigger(s, i, t).threads[i])
    ensures DoTrigger(s, i, t).table == s.table
    ensures DoTrigger(s, i, t).threads == s.threads[i := DoTrigger(s, i, t).threads[i]]
  {
  }

  lemma InsertKeepsRetries(s: State, i: nat, t: TriggerStep)
    requires BaseOk(s) && RetriesOk(s) && i < |s.threads| && CanTrigger(s, s.threads[i], t)
    requires t.SyncInsert? || t.AsyncInsert?
    ensures RetriesOk(DoTrigger(s, i, t))
  {
    MoveKeepsRetries(s, DoTrigger(s, i, t), i);
  }

  /** The result is stored with the first generation pending, or not at all. */
  lemma FinishKeepsRetries(s: State, s': State, i: nat, stored: bool, at: int)
    requires BaseOk(s) && RetriesOk(s) && i < |s.threads| == |s'.threads|
    requires s.threads[i].SyncStore? || s.threads[i].Storing?
    requires s'.threads == s.threads[i := s'.threads[i]]
    requires s'.table == if stored then FinishExecution(s.table, s.threads[i].exec, s.threads[i].result, at) else s.table
    requires !IsRequest(s'.threads[i]) && Charge(s'.threads[i]) == s.threads[i].exec
    ensures RetriesOk(s')
  {
    assert ThreadOk(s, i) && PcOk(s.threads[i], s.table);
    assert RowOk(s.threads[i].exec, s.table.rows[s.threads[i].exec], s.now, s.ever);
    MoveKeepsRetries(s, s', i);
  }

  lemma TriggerKeepsRetries(s: State, i: nat, t: TriggerStep)
    requires BaseOk(s) && RetriesOk(s) && i < |s.threads| && CanTrigger(s, s.threads[i], t)
    ensures RetriesOk(DoTrigger(s, i, t))
  {
    if t.SyncInsert? || t.AsyncInsert? {
      InsertKeepsRetries(s, i, t);
    } else if t.SyncFinish? {
      FinishKeepsRetries(s, DoTrigger(s, i, t), i, t.stored, t.at);
    } else {
      QuietTriggerCarriesOn(s, i, t);
      QuietKeepsRetries(s, DoTrigger(s, i, t), i);
    }
  }

  lemma TrackAndGoKeepsRetries(s: State, i: nat)
    requires BaseOk(s) && RetriesOk(s) && i < |s.threads| && s.threads[i].Tracking?
    ensures RetriesOk(DoLaunch(s, i, TrackAndGo))
  {
    var pc := s.threads[i];
    var s1 := Move(s, i, AfterDispatch(pc.after));
    assert PcOk(pc, s.table);
    QuietKeepsRetries(s, s1, i);
    SpawnKeepsRetries(s1, DoLaunch(s, i, TrackAndGo), Starting(pc.exec, pc.hook));
  }

  lemma LaunchKeepsRetries(s: State, i: nat, l: LaunchStep)
    requires BaseOk(s) && RetriesOk(s) && i < |s.threads| && CanLaunch(s.threads[i], l)
    ensures RetriesOk(DoLaunch(s, i, l))
  {
    if l.TrackAndGo? {
      TrackAndGoKeepsRetries(s, i);
    } else {
      QuietKeepsRetries(s, DoLaunch(s, i, l), i);
    }
  }

  lemma QuietWorkCarriesOn(s: State, i: nat, w: WorkStep)
    requires i < |s.threads| && CanWork(s, s.threads[i], w)
    requires !w.LogCanceled? && !w.LogPanic? && !w.Store? && !w.MarkAsRunning?
    ensures CarriesOn(s.threads[i], DoWork(s, i, w).threads[i])
    ensures DoWork(s, i, w).table == s.table
    ensures DoWork(s, i, w).threads == s.threads[i := DoWork(s, i, w).threads[i]]
  {
  }

  predicate SameHandoff(r: Row, r': Row) { r'.attempt == r.attempt && r'.handoff == r.handoff }

  /** The statements that write no handoff. */
  lemma StatusKeepsRetries(s: State, s': State, i: nat)
    requires BaseOk(s) && RetriesOk(s) && i < |s.threads| == |s'.threads|
    requires s'.threads == s.threads[i := s'.threads[i]] && CarriesOn(s.threads[i], s'.threads[i])
    requires OnlyTouches(s.table, s'.table, Charge(s.threads[i]))
    requires s'.table.births == s.table.births && s'.table.nextId == s.table.nextId
    requires s'.table.rows.Keys == s.table.rows.Keys
    requires forall id :: id in s.table.rows ==> SameHandoff(s.table.rows[id], s'.table.rows[id])
    ensures RetriesOk(s')
  {
    assert PcOk(s.threads[i], s.table);
    ZeroIsNoRow(s);
    RequestStays(AfterOf(s.threads[i]), s.table, s'.table);
    MoveKeepsRetries(s, s', i);
  }

  lemma StatusStepFacts(s: State, i: nat, w: WorkStep)
    requires i < |s.threads| && CanWork(s, s.threads[i], w)
    requires w.LogCanceled? || w.LogPanic? || w.MarkAsRunning?
    ensures var s' := DoWork(s, i, w);
            && |s'.threads| == |s.threads| && s'.threads == s.threads[i := s'.threads[i]]
            && CarriesOn(s.threads[i], s'.threads[i])
            && OnlyTouches(s.table, s'.table, Charge(s.threads[i]))
            && s'.table.births == s.table.births && s'.table.nextId == s.table.nextId
            && s'.table.rows.Keys == s.table.rows.Keys
            && forall id :: id in s.table.rows ==> SameHandoff(s.table.rows[id], s'.table.rows[id])
  {
  }

  lemma StatusStepKeepsRetries(s: State, i: nat, w: WorkStep)
    requires BaseOk(s) && RetriesOk(s) && i < |s.threads| && CanWork(s, s.threads[i], w)
    requires w.LogCanceled? || w.LogPanic? || w.MarkAsRunning?
    ensures RetriesOk(DoWork(s, i, w))
  {
    StatusStepFacts(s, i, w);
    StatusKeepsRetries(s, DoWork(s, i, w), i);
  }

  lemma WorkKeepsRetries(s: State, i: nat, w: WorkStep)
    requires BaseOk(s) && RetriesOk(s) && i < |s.threads| && CanWork(s, s.threads[i], w)
    ensures RetriesOk(DoWork(s, i, w))
  {
    match w
    case Store(stored, at) => FinishKeepsRetries(s, DoWork(s, i, w), i, stored, at);
    case LogCanceled(_, _) => StatusStepKeepsRetries(s, i, w);
    case LogPanic(_, _) => StatusStepKeepsRetries(s, i, w);
    case MarkAsRunning(_, _) => StatusStepKeepsRetries(s, i, w);
    case _ =>
      QuietWorkCarriesOn(s, i, w);
      QuietKeepsRetries(s, DoWork(s, i, w), i);
  }

  lemma QuietDispatchCarriesOn(s: State, i: nat, d: DispatchStep)
    requires i < |s.threads| && CanDispatch(s, s.threads[i], d) && !d.Commits? && !d.RecordFailure?
    ensures CarriesOn(s.threads[i], DoDispatch(s, i, d).threads[i])
    ensures DoDispatch(s, i, d).table == s.table
    ensures DoDispatch(s, i, d).threads == s.threads[i := DoDispatch(s, i, d).threads[i]]
  {
    if d.Aborts? || d.Abandon? || d.AbandonCount? { AbortCarriesOn(s, i, d); }
  }

  lemma AbortCarriesOn(s: State, i: nat, d: DispatchStep)
    requires i < |s.threads| && CanDispatch(s, s.threads[i], d) && (d.Aborts? || d.Abandon? || d.AbandonCount?)
    ensures CarriesOn(s.threads[i], DoDispatch(s, i, d).threads[i])
    ensures DoDispatch(s, i, d).table == s.table
    ensures DoDispatch(s, i, d).threads == s.threads[i := DoDispatch(s, i, d).threads[i]]
  {
  }

  lemma RecordFailureKeepsRetries(s: State, i: nat, stored: bool)
    requires BaseOk(s) && RetriesOk(s) && i < |s.threads| && CanDispatch(s, s.threads[i], RecordFailure(stored))
    ensures RetriesOk(DoDispatch(s, i, RecordFailure(stored)))
  {
    assert PcOk(s.threads[i], s.table);
    ZeroIsNoRow(s);
    RecordFailureFacts(s, i, stored);
    MoveKeepsRetries(s, DoDispatch(s, i, RecordFailure(stored)), i);
  }

  lemma RecordFailureFacts(s: State, i: nat, stored: bool)
    requires i < |s.threads| && CanDispatch(s, s.threads[i], RecordFailure(stored))
    requires PcOk(s.threads[i], s.table) && 0 !in s.table.rows
    ensures var s' := DoDispatch(s, i, RecordFailure(stored));
            && |s'.threads| == |s.threads| && s'.threads == s.threads[i := s'.threads[i]]
            && OnlyTouches(s.table, s'.table, Charge(s.threads[i])) && NoSuccessor(s.table, s'.table)
            && PcOk(s'.threads[i], s'.table)
            && (AfterOf(s'.threads[i]) == AfterOf(s.threads[i]) || !IsRequest(s'.threads[i]))
  {
    var s' := DoDispatch(s, i, RecordFailure(stored));
    RequestStays(AfterOf(s.threads[i]), s.table, s'.table);
  }

  /** The committed successor is of the committing thread's own generation. */
  lemma CommitIsOwn(s: State, i: nat, at: int)
    requires BaseOk(s) && RetriesOk(s) && i < |s.threads| && CanDispatch(s, s.threads[i], Commits(at))
    ensures PcOk(DoDispatch(s, i, Commits(at)).threads[i], DoDispatch(s, i, Commits(at)).table)
    ensures s.table.rows[s.threads[i].parent].attempt == TurnOf(s.threads[i])
    ensures AfterOf(DoDispatch(s, i, Commits(at)).threads[i]) == WithChild(AfterOf(s.threads[i]), s.table.nextId)
  {
    assert PcOk(s.threads[i], s.table) && ThreadOk(s, i);
    assert s.table.nextId !in s.table.rows;
  }

  lemma CommitSparesOthers(s: State, i: nat, at: int, j: nat)
    requires BaseOk(s) && RetriesOk(s) && i < |s.threads| && CanDispatch(s, s.threads[i], Commits(at))
    requires j < |s.threads| && j != i
    ensures PcOk(s.threads[j], DoDispatch(s, i, Commits(at)).table)
  {
    assert PcOk(s.threads[j], s.table) && ThreadOk(s, j) && PcOk(s.threads[i], s.table) && ThreadOk(s, i);
    assert !SameRequest(AfterOf(s.threads[i]), AfterOf(s.threads[j])) && !SameRequest(AfterOf(s.threads[j]), AfterOf(s.threads[i]));
    CommitIsOwn(s, i, at);
  }

  lemma CommitKeepsRetries(s: State, i: nat, at: int)
    requires BaseOk(s) && RetriesOk(s) && i < |s.threads| && CanDispatch(s, s.threads[i], Commits(at))
    ensures RetriesOk(DoDispatch(s, i, Commits(at)))
  {
    var s' := DoDispatch(s, i, Commits(at));
    CommitIsOwn(s, i, at);
    forall j | 0 <= j < |s'.threads|
      ensures PcOk(s'.threads[j], s'.table)
    {
      if j != i { CommitSparesOthers(s, i, at, j); }
    }
  }

  lemma DispatchKeepsRetries(s: State, i: nat, d: DispatchStep)
    requires BaseOk(s) && RetriesOk(s) && i < |s.threads| && CanDispatch(s, s.threads[i], d)
    ensures RetriesOk(DoDispatch(s, i, d))
  {
    match d
    case Commits(at) => CommitKeepsRetries(s, i, at);
    case RecordFailure(stored) => RecordFailureKeepsRetries(s, i, stored);
    case _ =>
      QuietDispatchCarriesOn(s, i, d);
      QuietKeepsRetries(s, DoDispatch(s, i, d), i);
  }

  /** A granted claim opens a generation that no request and no successor has had. */
  lemma ClaimKeepsRetries(s: State, parent: ExecId, attempt: int)
    requires BaseOk(s) && RetriesOk(s) && Enabled(s, Claim(parent, attempt))
    ensures RetriesOk(Apply(s, Claim(parent, attempt)))
  {
    var t := ClaimRetry(s.table, parent, attempt);
    var pc := Dispatching(parent, AnswerRetry(parent, attempt, 0));
    var s' := Apply(s, Claim(parent, attempt));
    OldRequestsStay(s, parent, attempt);
    ClaimIsOk(s.table, parent, attempt, s.now, s.ever);
    forall j | 0 <= j < |s'.threads|
      ensures PcOk(s'.threads[j], t)
    {
      if j < |s.threads| { assert PcOk(s.threads[j], t); }
    }
  }

  lemma ClaimIsOk(t: Table, parent: ExecId, attempt: int, now: int, ever: set<HookId>)
    requires TableOk(t, now, ever) && JudgeRetry(t, parent, attempt).Claimed?
    ensures PcOk(Dispatching(parent, AnswerRetry(parent, attempt, 0)), ClaimRetry(t, parent, attempt))
  {
    assert RowOk(parent, t.rows[parent], now, ever);
    NewGenerationIsBarren(t, parent);
  }

  lemma ClaimTouches(t: Table, parent: ExecId, attempt: int)
    requires JudgeRetry(t, parent, attempt).Claimed?
    ensures NoSuccessor(t, ClaimRetry(t, parent, attempt))
    ensures forall id :: id != parent ==> PendingWas(t, ClaimRetry(t, parent, attempt), id)
  {
  }

  lemma OldRequestsStay(s: State, parent: ExecId, attempt: int)
    requires BaseOk(s) && RetriesOk(s) && Enabled(s, Claim(parent, attempt))
    ensures var pc := Dispatching(parent, AnswerRetry(parent, attempt, 0));
            forall j :: 0 <= j < |s.threads| ==>
              PcOk(s.threads[j], ClaimRetry(s.table, parent, attempt))
              && !SameRequest(AfterOf(s.threads[j]), AfterOf(pc))
  {
    var t := ClaimRetry(s.table, parent, attempt);
    var pc := Dispatching(parent, AnswerRetry(parent, attempt, 0));
    ClaimTouches(s.table, parent, attempt);
    forall j | 0 <= j < |s.threads|
      ensures PcOk(s.threads[j], t) && !SameRequest(AfterOf(s.threads[j]), AfterOf(pc))
    {
      assert ThreadOk(s, j) && PcOk(s.threads[j], s.table);
      ClaimedRowIsFree(s, parent, attempt, j);
      OtherStays(s.threads[j], s.table, t);
    }
  }

  lemma NewGenerationIsBarren(t: Table, parent: ExecId)
    requires GenerationsOk(t) && parent in t.rows
    ensures Barren(t, parent, t.rows[parent].attempt + 1)
  {
    forall c | c in t.births && t.births[c].parent == parent
      ensures t.births[c].attempt != t.rows[parent].attempt + 1
    {
      assert GenerationOk(t, c);
    }
  }

  lemma StepKeepsRetries(s: State, e: Event)
    requires BaseOk(s) && RetriesOk(s) && Enabled(s, e)
    ensures RetriesOk(Apply(s, e))
  {
    match e
    case Trigger(i, t) => TriggerKeepsRetries(s, i, t);
    case Launching(i, l) => LaunchKeepsRetries(s, i, l);
    case Work(i, w) => WorkKeepsRetries(s, i, w);
    case Dispatch(i, d) => DispatchKeepsRetries(s, i, d);
    case CloseCancel(i) => QuietKeepsRetries(s, Apply(s, e), i);
    case Load(hook) => ZeroIsNoRow(s); SpawnKeepsRetries(s, Apply(s, e), Loaded(hook, s.hooks[hook]));
    case TakeCancel(exec) => ZeroIsNoRow(s); SpawnKeepsRetries(s, Apply(s, e), Closing(exec));
    case RefuseTrigger(_, _) => TableStepKeepsRetries(s, Apply(s, e));
    case CleanUp(_) => TableStepKeepsRetries(s, Apply(s, e));
    case Claim(parent, attempt) => ClaimKeepsRetries(s, parent, attempt);
    case _ =>
  }

  lemma {:induction false} RunKeepsRetries(s: State, events: seq<Event>, s': State)
    requires Ok(s) && RetriesOk(s) && Reaches(s, events, s')
    ensures RetriesOk(s')
    decreases |events|
  {
    if events != [] {
      StepKeepsOk(s, events[0]);
      StepKeepsRetries(s, events[0]);
      RunKeepsRetries(Apply(s, events[0]), events[1..], s');
    }
  }

  lemma ReachableRetriesOk(s: State)
    requires Reachable(s)
    ensures RetriesOk(s)
  {
    var s0, events :| Init(s0) && Reaches(s0, events, s);
    InitOk(s0);
    RunKeepsRetries(s0, events, s);
  }
}
