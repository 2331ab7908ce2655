/** Conservation of the runner: which thread holds which admission and running slot, and
    what the wait group counts. */
module ProtocolRunner {
  import opened HookGraph
  import opened Executions
  import opened Protocol
  import opened ProtocolThreads

  /** The hook whose admission a thread holds. */
  function HeldHook(pc: Pc): Option<HookId> {
    match pc
    case Admitted(hook, _) => Some(hook)
    case GivingBack(hook) => Some(hook)
    case Naming(_, hook, _) => Some(hook)
    case Registering(_, hook, _) => Some(hook)
    case Tracking(_, hook, _) => Some(hook)
    case Starting(_, hook) => Some(hook)
    case NotingCancel(_, hook) => Some(hook)
    case Marking(_, hook) => Some(hook)
    case Executing(_, hook) => Some(hook)
    case Storing(_, hook, _) => Some(hook)
    case Freeing(_, hook, _) => Some(hook)
    case NotingPanic(_, hook) => Some(hook)
    case Unregistering(_, hook) => Some(hook)
    case Releasing(_, hook) => Some(hook)
    case InTransaction(_, target, _, _) => Some(target)
    case Abandoning(_, target, _) => Some(target)
    case _ => None
  }

  /** The execution recorded on a held admission: none until SetExecution has run. */
  function NamedExec(pc: Pc): ExecId {
    if pc.Admitted? || pc.GivingBack? || pc.Naming? || pc.InTransaction? || pc.Abandoning? then 0 else Charge(pc)
  }

  /** What a thread can own: an admission, a release that has dropped its entry but not
      yet its wait-group unit, a tracked handoff, a running slot. */
  datatype Kind = Admission | Settling | Handoff | RunSlot

  function HandoffOpen(pc: Pc): bool {
    match pc
    case Naming(_, _, after) => after == ReportHandoff
    case Registering(_, _, after) => after == ReportHandoff
    case Tracking(_, _, after) => after == ReportHandoff
    case Starting(_, _) => true
    case NotingCancel(_, _) => true
    case Marking(_, _) => true
    case Executing(_, _) => true
    case Storing(_, _, _) => true
    case Freeing(_, _, _) => true
    case NotingPanic(_, _) => true
    case Unregistering(_, _) => true
    case Releasing(_, _) => true
    case ReleasingCount(_) => true
    case EndingHandoff => true
    case Dispatching(_, after) => after == ReportHandoff
    case InTransaction(_, _, _, after) => after == ReportHandoff
    case Abandoning(_, _, after) => after == ReportHandoff
    case AbandoningCount(_, after) => after == ReportHandoff
    case RecordingFailure(_, after) => after == ReportHandoff
    case _ => false
  }

  predicate Owns(k: Kind, pc: Pc) {
    match k
    case Admission => HeldHook(pc).Some?
    case Settling => pc.GivingBackCount? || pc.ReleasingCount? || pc.AbandoningCount?
    case Handoff => HandoffOpen(pc)
    case RunSlot => pc.Marking? || pc.Executing? || pc.Storing? || pc.Freeing?
  }

  function Share(k: Kind, pc: Pc): nat { if Owns(k, pc) then 1 else 0 }

  /** How many threads own a `k`. */
  function Total(k: Kind, ts: seq<Pc>): nat {
    if ts == [] then 0 else Total(k, ts[..|ts| - 1]) + Share(k, ts[|ts| - 1])
  }

  lemma {:induction false} TotalAfterMove(k: Kind, ts: seq<Pc>, i: nat, pc: Pc)
    requires i < |ts|
    ensures Total(k, ts[i := pc]) == Total(k, ts) - Share(k, ts[i]) + Share(k, pc)
  {
    var ts' := ts[i := pc];
    if i == |ts| - 1 {
      assert ts'[..|ts| - 1] == ts[..|ts| - 1];
    } else {
      assert ts'[..|ts| - 1] == ts[..|ts| - 1][i := pc];
      TotalAfterMove(k, ts[..|ts| - 1], i, pc);
    }
  }

  lemma TotalAfterSpawn(k: Kind, ts: seq<Pc>, pc: Pc)
    ensures Total(k, ts + [pc]) == Total(k, ts) + Share(k, pc)
  {
    assert (ts + [pc])[..|ts|] == ts;
  }

  lemma {:induction false} OwnerCounts(k: Kind, ts: seq<Pc>, i: nat)
    requires i < |ts| && Owns(k, ts[i])
    ensures Total(k, ts) >= 1
  {
    TotalAfterMove(k, ts, i, Gone);
  }

  /** A thread that holds an admission holds the entry of its hook. */
  ghost predicate HolderOk(r: Runner, ts: seq<Pc>, i: nat)
    requires i < |ts|
  {
    HeldHook(ts[i]).Some? ==>
      && HeldHook(ts[i]).value in r.inFlight
      && r.inFlight[HeldHook(ts[i]).value] == Slot(NamedExec(ts[i]), i)
  }

  /** An entry is held by a thread. */
  ghost predicate EntryOk(r: Runner, ts: seq<Pc>, h: HookId)
    requires h in r.inFlight
  {
    r.inFlight[h].owner < |ts| && HeldHook(ts[r.inFlight[h].owner]) == Some(h)
  }

  ghost predicate EntriesOk(r: Runner, ts: seq<Pc>) {
    && (forall i {:trigger HolderOk(r, ts, i)} :: 0 <= i < |ts| ==> HolderOk(r, ts, i))
    && (forall h {:trigger EntryOk(r, ts, h)} :: h in r.inFlight ==> EntryOk(r, ts, h))
  }

  ghost predicate CountsOk(r: Runner, ts: seq<Pc>) {
    && |r.inFlight| == Total(Admission, ts) <= r.capacity
    && r.slots == Total(RunSlot, ts) <= r.maxConcurrent
    && r.wg == Total(Admission, ts) + Total(Settling, ts) + Total(Handoff, ts)
  }

  ghost predicate RunnerOk(s: State) {
    EntriesOk(s.runner, s.threads) && CountsOk(s.runner, s.threads)
  }

  // ----- moves -----

  predicate SameHoldings(pc: Pc, pc': Pc) {
    && HeldHook(pc) == HeldHook(pc')
    && (HeldHook(pc).Some? ==> NamedExec(pc) == NamedExec(pc'))
    && Share(Settling, pc) == Share(Settling, pc')
    && Share(Handoff, pc) == Share(Handoff, pc')
    && Share(RunSlot, pc) == Share(RunSlot, pc')
  }

  /** All totals after thread `i` has moved to `pc`. */
  lemma Totals(ts: seq<Pc>, i: nat, pc: Pc)
    requires i < |ts|
    ensures Total(Admission, ts[i := pc]) == Total(Admission, ts) - Share(Admission, ts[i]) + Share(Admission, pc)
    ensures Total(Settling, ts[i := pc]) == Total(Settling, ts) - Share(Settling, ts[i]) + Share(Settling, pc)
    ensures Total(Handoff, ts[i := pc]) == Total(Handoff, ts) - Share(Handoff, ts[i]) + Share(Handoff, pc)
    ensures Total(RunSlot, ts[i := pc]) == Total(RunSlot, ts) - Share(RunSlot, ts[i]) + Share(RunSlot, pc)
  {
    TotalAfterMove(Admission, ts, i, pc);
    TotalAfterMove(Settling, ts, i, pc);
    TotalAfterMove(Handoff, ts, i, pc);
    TotalAfterMove(RunSlot, ts, i, pc);
  }

  lemma TotalsAfterSpawn(ts: seq<Pc>, pc: Pc)
    ensures Total(Admission, ts + [pc]) == Total(Admission, ts) + Share(Admission, pc)
    ensures Total(Settling, ts + [pc]) == Total(Settling, ts) + Share(Settling, pc)
    ensures Total(Handoff, ts + [pc]) == Total(Handoff, ts) + Share(Handoff, pc)
    ensures Total(RunSlot, ts + [pc]) == Total(RunSlot, ts) + Share(RunSlot, pc)
  {
    TotalAfterSpawn(Admission, ts, pc);
    TotalAfterSpawn(Settling, ts, pc);
    TotalAfterSpawn(Handoff, ts, pc);
    TotalAfterSpawn(RunSlot, ts, pc);
  }

  /** The entries after a move that keeps what is held. */
  lemma EntriesAfterMove(r: Runner, ts: seq<Pc>, i: nat, pc: Pc)
    requires EntriesOk(r, ts) && i < |ts|
    requires HeldHook(ts[i]) == HeldHook(pc) && (HeldHook(pc).Some? ==> NamedExec(ts[i]) == NamedExec(pc))
    ensures EntriesOk(r, ts[i := pc])
  {
    var ts' := ts[i := pc];
    forall j | 0 <= j < |ts'|
      ensures HolderOk(r, ts', j)
    {
      assert HolderOk(r, ts, j);
    }
    forall h | h in r.inFlight
      ensures EntryOk(r, ts', h)
    {
      assert EntryOk(r, ts, h);
    }
  }

  lemma QuietKeepsRunner(s: State, s': State, i: nat)
    requires RunnerOk(s) && i < |s.threads| && |s'.threads| == |s.threads|
    requires s'.threads == s.threads[i := s'.threads[i]] && s'.runner == s.runner
    requires SameHoldings(s.threads[i], s'.threads[i])
    ensures RunnerOk(s')
  {
    Totals(s.threads, i, s'.threads[i]);
    EntriesAfterMove(s.runner, s.threads, i, s'.threads[i]);
  }

  lemma EntriesAfterAdmission(r: Runner, r': Runner, ts: seq<Pc>, i: nat, pc: Pc, hook: HookId)
    requires EntriesOk(r, ts) && i < |ts| && hook !in r.inFlight
    requires HeldHook(ts[i]).None? && HeldHook(pc) == Some(hook) && NamedExec(pc) == 0
    requires r'.inFlight == r.inFlight[hook := Slot(0, i)]
    ensures EntriesOk(r', ts[i := pc])
  {
    var ts' := ts[i := pc];
    forall j | 0 <= j < |ts'|
      ensures HolderOk(r', ts', j)
    {
      assert HolderOk(r, ts, j);
    }
    forall h | h in r'.inFlight
      ensures EntryOk(r', ts', h)
    {
      if h != hook { assert EntryOk(r, ts, h); }
    }
  }

  lemma AdmissionKeepsRunner(s: State, i: nat, pc: Pc, hook: HookId)
    requires RunnerOk(s) && i < |s.threads| && CanAdmit(s, hook)
    requires HeldHook(s.threads[i]).None? && HeldHook(pc) == Some(hook) && NamedExec(pc) == 0
    requires Share(Settling, s.threads[i]) == Share(Settling, pc)
    requires Share(Handoff, s.threads[i]) == Share(Handoff, pc)
    requires Share(RunSlot, s.threads[i]) == Share(RunSlot, pc)
    ensures RunnerOk(Hold(Move(s, i, pc), hook, i))
  {
    var s' := Hold(Move(s, i, pc), hook, i);
    Totals(s.threads, i, pc);
    EntriesAfterAdmission(s.runner, s'.runner, s.threads, i, pc, hook);
    assert s'.runner.inFlight.Keys == s.runner.inFlight.Keys + {hook};
    assert |s'.runner.inFlight| == |s.runner.inFlight| + 1;
  }

  lemma EntriesAfterDrop(r: Runner, r': Runner, ts: seq<Pc>, i: nat, pc: Pc)
    requires EntriesOk(r, ts) && i < |ts| && HeldHook(ts[i]).Some? && HeldHook(pc).None?
    requires r'.inFlight == r.inFlight - {HeldHook(ts[i]).value}
    ensures EntriesOk(r', ts[i := pc])
    ensures HeldHook(ts[i]).value in r.inFlight
  {
    var ts' := ts[i := pc];
    assert HolderOk(r, ts, i);
    forall j | 0 <= j < |ts'|
      ensures HolderOk(r', ts', j)
    {
      assert HolderOk(r, ts, j);
    }
    forall h | h in r'.inFlight
      ensures EntryOk(r', ts', h)
    {
      assert EntryOk(r, ts, h);
    }
  }

  lemma DropKeepsRunner(s: State, i: nat, pc: Pc)
    requires RunnerOk(s) && i < |s.threads| && HeldHook(s.threads[i]).Some?
    requires HeldHook(pc).None? && Share(Settling, pc) == 1 && Share(Settling, s.threads[i]) == 0
    requires Share(Handoff, s.threads[i]) == Share(Handoff, pc)
    requires Share(RunSlot, s.threads[i]) == Share(RunSlot, pc)
    ensures RunnerOk(Drop(Move(s, i, pc), HeldHook(s.threads[i]).value))
  {
    var hook := HeldHook(s.threads[i]).value;
    var s' := Drop(Move(s, i, pc), hook);
    Totals(s.threads, i, pc);
    EntriesAfterDrop(s.runner, s'.runner, s.threads, i, pc);
    assert s'.runner.inFlight.Keys == s.runner.inFlight.Keys - {hook};
    assert |s'.runner.inFlight| == |s.runner.inFlight| - 1;
  }

  /** A wait-group unit goes: a settling release or a handoff ends. */
  lemma CountDownKeepsRunner(s: State, i: nat, pc: Pc)
    requires RunnerOk(s) && i < |s.threads|
    requires HeldHook(s.threads[i]).None? && HeldHook(pc).None?
    requires Share(Settling, s.threads[i]) + Share(Handoff, s.threads[i]) == Share(Settling, pc) + Share(Handoff, pc) + 1
    requires Share(RunSlot, s.threads[i]) == Share(RunSlot, pc)
    ensures RunnerOk(Count(Move(s, i, pc), -1)) && s.runner.wg >= 1
  {
    Totals(s.threads, i, pc);
    EntriesAfterMove(s.runner, s.threads, i, pc);
    var s' := Count(Move(s, i, pc), -1);
    forall j | 0 <= j < |s'.threads|
      ensures HolderOk(s'.runner, s'.threads, j)
    {
      assert HolderOk(s.runner, s'.threads, j);
    }
    forall h | h in s'.runner.inFlight
      ensures EntryOk(s'.runner, s'.threads, h)
    {
      assert EntryOk(s.runner, s'.threads, h);
    }
  }

  lemma SpawnIdleKeepsRunner(s: State, s': State, pc: Pc)
    requires RunnerOk(s) && s'.runner == s.runner && s'.threads == s.threads + [pc]
    requires HeldHook(pc).None? && Share(Settling, pc) == Share(Handoff, pc) == Share(RunSlot, pc) == 0
    ensures RunnerOk(s')
  {
    TotalsAfterSpawn(s.threads, pc);
    forall j | 0 <= j < |s'.threads|
      ensures HolderOk(s'.runner, s'.threads, j)
    {
      if j < |s.threads| { assert HolderOk(s.runner, s.threads, j); }
    }
    forall h | h in s'.runner.inFlight
      ensures EntryOk(s'.runner, s'.threads, h)
    {
      assert EntryOk(s.runner, s.threads, h);
    }
  }

  // ----- every step keeps the runner invariant -----

  lemma QuietTriggerHoldings(s: State, i: nat, t: TriggerStep)
    requires i < |s.threads| && CanTrigger(s, s.threads[i], t)
    requires !t.Admit? && !t.GiveBack? && !t.GiveBackCount?
    ensures SameHoldings(s.threads[i], DoTrigger(s, i, t).threads[i])
    ensures DoTrigger(s, i, t).runner == s.runner
    ensures DoTrigger(s, i, t).threads == s.threads[i := DoTrigger(s, i, t).threads[i]]
  {
  }

  lemma TriggerKeepsRunner(s: State, i: nat, t: TriggerStep)
    requires RunnerOk(s) && i < |s.threads| && CanTrigger(s, s.threads[i], t)
    ensures RunnerOk(DoTrigger(s, i, t))
  {
    var pc := s.threads[i];
    if t.Admit? {
      AdmissionKeepsRunner(s, i, Admitted(pc.hook, pc.target), pc.hook);
    } else if t.GiveBack? {
      DropKeepsRunner(s, i, GivingBackCount);
    } else if t.GiveBackCount? {
      CountDownKeepsRunner(s, i, Gone);
    } else {
      QuietTriggerHoldings(s, i, t);
      QuietKeepsRunner(s, DoTrigger(s, i, t), i);
    }
  }

  /** Naming an admission, or handing it to another thread, changes its entry only. */
  lemma EntriesAfterRename(r: Runner, r': Runner, ts: seq<Pc>, ts': seq<Pc>, i: nat, k: nat)
    requires EntriesOk(r, ts) && i < |ts| <= |ts'| && k < |ts'| && HeldHook(ts[i]).Some?
    requires HeldHook(ts'[k]) == HeldHook(ts[i])
    requires r'.inFlight == r.inFlight[HeldHook(ts[i]).value := Slot(NamedExec(ts'[k]), k)]
    requires forall j :: 0 <= j < |ts'| && j != k && j != i ==> j < |ts| && ts'[j] == ts[j]
    requires k == i || (k == |ts| && HeldHook(ts'[i]).None?)
    ensures EntriesOk(r', ts')
    ensures HeldHook(ts[i]).value in r.inFlight
  {
    assert HolderOk(r, ts, i);
    forall j | 0 <= j < |ts'|
      ensures HolderOk(r', ts', j)
    {
      if j < |ts| { assert HolderOk(r, ts, j); }
    }
    forall h | h in r'.inFlight
      ensures EntryOk(r', ts', h)
    {
      if h in r.inFlight { assert EntryOk(r, ts, h); }
    }
  }

  lemma SetExecutionKeepsRunner(s: State, i: nat)
    requires RunnerOk(s) && i < |s.threads| && s.threads[i].Naming?
    ensures RunnerOk(DoLaunch(s, i, SetExecution))
  {
    var s' := DoLaunch(s, i, SetExecution);
    Totals(s.threads, i, s'.threads[i]);
    EntriesAfterRename(s.runner, s'.runner, s.threads, s'.threads, i, i);
    assert s'.runner.inFlight.Keys == s.runner.inFlight.Keys;
    assert |s'.runner.inFlight| == |s.runner.inFlight|;
  }

  /** The admission changes hands and a handoff is tracked while it is still held. */
  lemma TrackAndGoKeepsRunner(s: State, i: nat)
    requires RunnerOk(s) && i < |s.threads| && s.threads[i].Tracking?
    ensures RunnerOk(DoLaunch(s, i, TrackAndGo))
  {
    var pc := s.threads[i];
    var s' := DoLaunch(s, i, TrackAndGo);
    HandOverTotals(s.threads, i);
    EntriesAfterRename(s.runner, s'.runner, s.threads, s'.threads, i, |s.threads|);
    assert s'.runner.inFlight.Keys == s.runner.inFlight.Keys;
    assert |s'.runner.inFlight| == |s.runner.inFlight|;
  }

  /** The new worker's handoff is one more; the admission has changed hands. */
  lemma HandOverTotals(ts: seq<Pc>, i: nat)
    requires i < |ts| && ts[i].Tracking?
    ensures var ts' := ts[i := AfterDispatch(ts[i].after)] + [Starting(ts[i].exec, ts[i].hook)];
            && Total(Admission, ts') == Total(Admission, ts) && Total(Settling, ts') == Total(Settling, ts)
            && Total(Handoff, ts') == Total(Handoff, ts) + 1 && Total(RunSlot, ts') == Total(RunSlot, ts)
  {
    Totals(ts, i, AfterDispatch(ts[i].after));
    TotalsAfterSpawn(ts[i := AfterDispatch(ts[i].after)], Starting(ts[i].exec, ts[i].hook));
  }

  lemma LaunchKeepsRunner(s: State, i: nat, l: LaunchStep)
    requires RunnerOk(s) && i < |s.threads| && CanLaunch(s.threads[i], l)
    ensures RunnerOk(DoLaunch(s, i, l))
  {
    match l
    case SetExecution => SetExecutionKeepsRunner(s, i);
    case Register => QuietKeepsRunner(s, DoLaunch(s, i, l), i);
    case TrackAndGo => TrackAndGoKeepsRunner(s, i);
  }

  /** A running slot is taken or given back. */
  lemma SlotKeepsRunner(s: State, s': State, i: nat, pc: Pc)
    requires RunnerOk(s) && i < |s.threads| && s'.threads == s.threads[i := pc]
    requires HeldHook(s.threads[i]) == HeldHook(pc)
    requires HeldHook(pc).Some? ==> NamedExec(s.threads[i]) == NamedExec(pc)
    requires Share(Settling, s.threads[i]) == Share(Settling, pc)
    requires Share(Handoff, s.threads[i]) == Share(Handoff, pc)
    requires s'.runner == s.runner.(slots := s.runner.slots - Share(RunSlot, s.threads[i]) + Share(RunSlot, pc))
    requires s'.runner.slots <= s.runner.maxConcurrent
    ensures RunnerOk(s')
  {
    Totals(s.threads, i, pc);
    EntriesAfterMove(s.runner, s.threads, i, pc);
    forall j | 0 <= j < |s'.threads|
      ensures HolderOk(s'.runner, s'.threads, j)
    {
      assert HolderOk(s.runner, s'.threads, j);
    }
    forall h | h in s'.runner.inFlight
      ensures EntryOk(s'.runner, s'.threads, h)
    {
      assert EntryOk(s.runner, s'.threads, h);
    }
  }

  lemma QuietRunHoldings(s: State, i: nat, w: WorkStep)
    requires i < |s.threads| && CanWork(s, s.threads[i], w)
    requires w.StartCanceled? || w.MarkAsRunning? || w.Execute? || w.Store? || w.Panic?
    ensures SameHoldings(s.threads[i], DoWork(s, i, w).threads[i])
    ensures DoWork(s, i, w).runner == s.runner
    ensures DoWork(s, i, w).threads == s.threads[i := DoWork(s, i, w).threads[i]]
  {
  }

  lemma QuietLogHoldings(s: State, i: nat, w: WorkStep)
    requires i < |s.threads| && CanWork(s, s.threads[i], w)
    requires w.LogCanceled? || w.LogPanic? || w.Unregister?
    ensures SameHoldings(s.threads[i], DoWork(s, i, w).threads[i])
    ensures DoWork(s, i, w).runner == s.runner
    ensures DoWork(s, i, w).threads == s.threads[i := DoWork(s, i, w).threads[i]]
  {
  }

  lemma SlotStepKeepsRunner(s: State, i: nat, w: WorkStep)
    requires RunnerOk(s) && i < |s.threads| && CanWork(s, s.threads[i], w)
    requires w.StartRun? || w.FinishSlot?
    ensures RunnerOk(DoWork(s, i, w))
  {
    SlotKeepsRunner(s, DoWork(s, i, w), i, DoWork(s, i, w).threads[i]);
  }

  lemma ReleaseKeepsRunner(s: State, i: nat, w: WorkStep)
    requires RunnerOk(s) && i < |s.threads| && CanWork(s, s.threads[i], w)
    requires w.Release? || w.ReleaseCount? || w.EndHandoff?
    ensures RunnerOk(DoWork(s, i, w))
  {
    match w
    case Release => DropKeepsRunner(s, i, ReleasingCount(s.threads[i].exec));
    case ReleaseCount => CountDownKeepsRunner(s, i, Dispatching(s.threads[i].exec, ReportHandoff));
    case EndHandoff => CountDownKeepsRunner(s, i, Gone);
  }

  lemma WorkKeepsRunner(s: State, i: nat, w: WorkStep)
    requires RunnerOk(s) && i < |s.threads| && CanWork(s, s.threads[i], w)
    ensures RunnerOk(DoWork(s, i, w))
  {
    if w.StartRun? || w.FinishSlot? {
      SlotStepKeepsRunner(s, i, w);
    } else if w.Release? || w.ReleaseCount? || w.EndHandoff? {
      ReleaseKeepsRunner(s, i, w);
    } else {
      if w.LogCanceled? || w.LogPanic? || w.Unregister? {
        QuietLogHoldings(s, i, w);
      } else {
        QuietRunHoldings(s, i, w);
      }
      QuietKeepsRunner(s, DoWork(s, i, w), i);
    }
  }

  lemma QuietDispatchHoldings(s: State, i: nat, d: DispatchStep)
    requires i < |s.threads| && CanDispatch(s, s.threads[i], d)
    requires !d.Admits? && !d.Abandon? && !d.AbandonCount?
    ensures SameHoldings(s.threads[i], DoDispatch(s, i, d).threads[i])
    ensures DoDispatch(s, i, d).runner == s.runner
    ensures DoDispatch(s, i, d).threads == s.threads[i := DoDispatch(s, i, d).threads[i]]
  {
  }

  lemma DispatchKeepsRunner(s: State, i: nat, d: DispatchStep)
    requires RunnerOk(s) && i < |s.threads| && CanDispatch(s, s.threads[i], d)
    ensures RunnerOk(DoDispatch(s, i, d))
  {
    var pc := s.threads[i];
    if d.Admits? {
      var target := PlanDispatch(s.table, s.hooks, pc.parent).target;
      AdmissionKeepsRunner(s, i, InTransaction(pc.parent, target, s.now, pc.after), target);
    } else if d.Abandon? {
      DropKeepsRunner(s, i, AbandoningCount(pc.parent, pc.after));
    } else if d.AbandonCount? {
      CountDownKeepsRunner(s, i, RecordingFailure(pc.parent, pc.after));
    } else {
      QuietDispatchHoldings(s, i, d);
      QuietKeepsRunner(s, DoDispatch(s, i, d), i);
    }
  }

  lemma CloseKeepsRunner(s: State, i: nat)
    requires RunnerOk(s) && Enabled(s, CloseCancel(i))
    ensures RunnerOk(Apply(s, CloseCancel(i)))
  {
    QuietKeepsRunner(s, Apply(s, CloseCancel(i)), i);
  }

  lemma ClaimKeepsRunner(s: State, parent: ExecId, attempt: int)
    requires RunnerOk(s) && Enabled(s, Claim(parent, attempt))
    ensures RunnerOk(Apply(s, Claim(parent, attempt)))
  {
    SpawnIdleKeepsRunner(s, Apply(s, Claim(parent, attempt)), Dispatching(parent, AnswerRetry(parent, attempt, 0)));
  }

  lemma SpawnStepKeepsRunner(s: State, e: Event)
    requires RunnerOk(s) && Enabled(s, e) && (e.Load? || e.TakeCancel?)
    ensures RunnerOk(Apply(s, e))
  {
    var s' := Apply(s, e);
    SpawnIdleKeepsRunner(s, s', s'.threads[|s.threads|]);
  }

  lemma StepKeepsRunner(s: State, e: Event)
    requires RunnerOk(s) && Enabled(s, e)
    ensures RunnerOk(Apply(s, e))
  {
    match e
    case Trigger(i, t) => TriggerKeepsRunner(s, i, t);
    case Launching(i, l) => LaunchKeepsRunner(s, i, l);
    case Work(i, w) => WorkKeepsRunner(s, i, w);
    case Dispatch(i, d) => DispatchKeepsRunner(s, i, d);
    case CloseCancel(i) => CloseKeepsRunner(s, i);
    case Claim(parent, attempt) => ClaimKeepsRunner(s, parent, attempt);
    case Load(_) => SpawnStepKeepsRunner(s, e);
    case TakeCancel(_) => SpawnStepKeepsRunner(s, e);
    case _ =>
  }
}
