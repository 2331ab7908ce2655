/** What becomes of results and handoffs: a result that was stored stays, a pending handoff
    has somebody to carry it out, and a retry is to be had exactly when it should be. */
module ProtocolHandoffs {
  import opened HookGraph
  import opened Executions
  import opened Protocol
  import opened ProtocolThreads
  import opened ProtocolTheorems
  import opened ProtocolAnswers

  // ----- a pending handoff has a thread in charge -----

  ghost predicate InCharge(ts: seq<Pc>, id: ExecId) {
    exists i :: 0 <= i < |ts| && Charge(ts[i]) == id
  }

  /** The handoffs that an event leaves to nobody: one whose failure could not be recorded, or
      all, when the process restarts and the sweep fails. */
  function LostBy(s: State, e: Event): set<ExecId>
    requires Enabled(s, e)
  {
    match e
    case Dispatch(i, d) => if d.RecordFailure? && !d.stored then {s.threads[i].parent} else {}
    case Restart(swept, _) => if swept then {} else s.table.rows.Keys
    case _ => {}
  }

  ghost function LostIn(s: State, events: seq<Event>): set<ExecId>
    decreases |events|
  {
    if events == [] || !Enabled(s, events[0]) then {}
    else LostBy(s, events[0]) + LostIn(Apply(s, events[0]), events[1..])
  }

  predicate IsPending(t: Table, id: ExecId) { id in t.rows && t.rows[id].handoff == Pending }

  ghost predicate PendingOk(s: State, lost: set<ExecId>) {
    forall id {:trigger IsPending(s.table, id)} :: IsPending(s.table, id) ==> id in lost || InCharge(s.threads, id)
  }

  /** An active row is not pending. */
  lemma ActiveIsNotPending(t: Table, now: int, ever: set<HookId>, id: ExecId)
    requires RowsOk(t, now, ever)
    ensures IsPending(t, id) ==> t.rows[id].status == Succeeded
  {
    if id in t.rows { assert RowOk(id, t.rows[id], now, ever); }
  }

  /** A step of thread `i` that gives up its charge only over a row that is not pending, and
      makes no row pending but the one it is in charge of. */
  lemma MoveKeepsPending(s: State, s': State, i: nat, lost: set<ExecId>, lost': set<ExecId>)
    requires PendingOk(s, lost) && lost <= lost' && i < |s.threads| <= |s'.threads|
    requires forall j :: 0 <= j < |s.threads| && j != i ==> s'.threads[j] == s.threads[j]
    requires forall id {:trigger IsPending(s'.table, id)} :: IsPending(s'.table, id) ==>
               IsPending(s.table, id) || Charge(s'.threads[i]) == id
    requires Charge(s'.threads[i]) != Charge(s.threads[i]) && IsPending(s'.table, Charge(s.threads[i])) ==>
               Charge(s.threads[i]) in lost'
    ensures PendingOk(s', lost')
  {
    forall id | IsPending(s'.table, id)
      ensures id in lost' || InCharge(s'.threads, id)
    {
      if Charge(s'.threads[i]) != id {
        assert IsPending(s.table, id);
        if id !in lost {
          var j :| 0 <= j < |s.threads| && Charge(s.threads[j]) == id;
          if j != i { assert Charge(s'.threads[j]) == id; }
        }
      }
    }
  }

  lemma TriggerFacts(s: State, i: nat, t: TriggerStep)
    requires i < |s.threads| && CanTrigger(s, s.threads[i], t)
    requires s.table.nextId !in s.table.rows
    ensures var s' := DoTrigger(s, i, t);
            && |s'.threads| == |s.threads| && (forall j :: 0 <= j < |s.threads| && j != i ==> s'.threads[j] == s.threads[j])
            && (forall id {:trigger IsPending(s'.table, id)} :: IsPending(s'.table, id) ==>
                  IsPending(s.table, id) || Charge(s'.threads[i]) == id)
            && (Charge(s'.threads[i]) != Charge(s.threads[i]) ==>
                  s.threads[i].SyncRun? || Charge(s.threads[i]) == 0)
            && (s.threads[i].SyncRun? ==> s'.table == s.table)
            && (t.SyncInsert? || t.AsyncInsert? || t.SyncFinish? || s'.table == s.table)
  {
  }

  lemma TriggerKeepsPending(s: State, i: nat, t: TriggerStep, lost: set<ExecId>)
    requires BaseOk(s) && PendingOk(s, lost) && i < |s.threads| && CanTrigger(s, s.threads[i], t)
    ensures PendingOk(DoTrigger(s, i, t), lost)
  {
    assert s.table.nextId !in s.table.rows && 0 !in s.table.rows;
    assert ThreadOk(s, i);
    TriggerFacts(s, i, t);
    ActiveIsNotPending(s.table, s.now, s.ever, Charge(s.threads[i]));
    assert 0 !in DoTrigger(s, i, t).table.rows;
    MoveKeepsPending(s, DoTrigger(s, i, t), i, lost, lost);
  }

  lemma LaunchFacts(s: State, i: nat, l: LaunchStep)
    requires i < |s.threads| && CanLaunch(s.threads[i], l)
    ensures var s' := DoLaunch(s, i, l);
            && |s.threads| <= |s'.threads| && (forall j :: 0 <= j < |s.threads| && j != i ==> s'.threads[j] == s.threads[j])
            && s'.table == s.table && PhaseOf(s.threads[i]) == Before
  {
  }

  lemma LaunchKeepsPending(s: State, i: nat, l: LaunchStep, lost: set<ExecId>)
    requires BaseOk(s) && PendingOk(s, lost) && i < |s.threads| && CanLaunch(s.threads[i], l)
    ensures PendingOk(DoLaunch(s, i, l), lost)
  {
    assert ThreadOk(s, i);
    LaunchFacts(s, i, l);
    ActiveIsNotPending(s.table, s.now, s.ever, Charge(s.threads[i]));
    MoveKeepsPending(s, DoLaunch(s, i, l), i, lost, lost);
  }

  lemma WorkFacts(s: State, i: nat, w: WorkStep)
    requires i < |s.threads| && CanWork(s, s.threads[i], w)
    ensures var s' := DoWork(s, i, w);
            && |s'.threads| == |s.threads| && (forall j :: 0 <= j < |s.threads| && j != i ==> s'.threads[j] == s.threads[j])
            && Charge(s'.threads[i]) == Charge(s.threads[i])
            && (forall id {:trigger IsPending(s'.table, id)} :: IsPending(s'.table, id) ==>
                  IsPending(s.table, id) || Charge(s'.threads[i]) == id)
  {
  }

  lemma WorkKeepsPending(s: State, i: nat, w: WorkStep, lost: set<ExecId>)
    requires PendingOk(s, lost) && i < |s.threads| && CanWork(s, s.threads[i], w)
    ensures PendingOk(DoWork(s, i, w), lost)
  {
    WorkFacts(s, i, w);
    MoveKeepsPending(s, DoWork(s, i, w), i, lost, lost);
  }

  lemma DispatchFacts(s: State, i: nat, d: DispatchStep)
    requires i < |s.threads| && CanDispatch(s, s.threads[i], d)
    requires s.table.nextId !in s.table.rows && 0 !in s.table.rows
    requires IsPending(s.table, Charge(s.threads[i])) ==> s.table.rows[Charge(s.threads[i])].status == Succeeded
    ensures var s' := DoDispatch(s, i, d);
            && |s'.threads| == |s.threads| && (forall j :: 0 <= j < |s.threads| && j != i ==> s'.threads[j] == s.threads[j])
            && (forall id {:trigger IsPending(s'.table, id)} :: IsPending(s'.table, id) ==> IsPending(s.table, id))
            && (Charge(s'.threads[i]) != Charge(s.threads[i]) && IsPending(s'.table, Charge(s.threads[i])) ==>
                  d == RecordFailure(false) && Charge(s.threads[i]) == s.threads[i].parent)
  {
  }

  lemma DispatchKeepsPending(s: State, i: nat, d: DispatchStep, lost: set<ExecId>)
    requires BaseOk(s) && PendingOk(s, lost) && i < |s.threads| && CanDispatch(s, s.threads[i], d)
    ensures PendingOk(DoDispatch(s, i, d), lost + LostBy(s, Dispatch(i, d)))
  {
    ActiveIsNotPending(s.table, s.now, s.ever, Charge(s.threads[i]));
    DispatchFacts(s, i, d);
    MoveKeepsPending(s, DoDispatch(s, i, d), i, lost, lost + LostBy(s, Dispatch(i, d)));
  }

  /** Threads stay, and no row becomes pending but one that a new thread is in charge of. */
  lemma OtherKeepsPending(s: State, s': State, lost: set<ExecId>)
    requires PendingOk(s, lost) && |s.threads| <= |s'.threads|
    requires forall j :: 0 <= j < |s.threads| ==> s'.threads[j] == s.threads[j]
    requires forall id {:trigger IsPending(s'.table, id)} :: IsPending(s'.table, id) ==>
               IsPending(s.table, id) || InCharge(s'.threads, id)
    ensures PendingOk(s', lost)
  {
    forall id | IsPending(s'.table, id)
      ensures id in lost || InCharge(s'.threads, id)
    {
      if IsPending(s.table, id) && id !in lost {
        var j :| 0 <= j < |s.threads| && Charge(s.threads[j]) == id;
        assert Charge(s'.threads[j]) == id;
      }
    }
  }

  lemma ClaimKeepsPending(s: State, parent: ExecId, attempt: int, lost: set<ExecId>)
    requires PendingOk(s, lost) && Enabled(s, Claim(parent, attempt))
    ensures PendingOk(Apply(s, Claim(parent, attempt)), lost)
  {
    var s' := Apply(s, Claim(parent, attempt));
    assert Charge(s'.threads[|s.threads|]) == parent;
    OtherKeepsPending(s, s', lost);
  }

  lemma StepKeepsPending(s: State, e: Event, lost: set<ExecId>)
    requires BaseOk(s) && PendingOk(s, lost) && Enabled(s, e)
    ensures PendingOk(Apply(s, e), lost + LostBy(s, e))
  {
    match e
    case Trigger(i, t) => TriggerKeepsPending(s, i, t, lost);
    case Launching(i, l) => LaunchKeepsPending(s, i, l, lost);
    case Work(i, w) => WorkKeepsPending(s, i, w, lost);
    case Dispatch(i, d) => DispatchKeepsPending(s, i, d, lost);
    case CloseCancel(i) => MoveKeepsPending(s, Apply(s, e), i, lost, lost);
    case Claim(parent, attempt) => ClaimKeepsPending(s, parent, attempt, lost);
    case Restart(swept, at) => if swept { NothingIsPendingAfterSweep(s, at); }
    case _ => OtherKeepsPending(s, Apply(s, e), lost);
  }

  lemma {:induction false} RunKeepsPending(s: State, events: seq<Event>, s': State, lost: set<ExecId>)
    requires Ok(s) && PendingOk(s, lost) && Reaches(s, events, s')
    ensures PendingOk(s', lost + LostIn(s, events))
    decreases |events|
  {
    if events != [] {
      StepKeepsOk(s, events[0]);
      StepKeepsPending(s, events[0], lost);
      RunKeepsPending(Apply(s, events[0]), events[1..], s', lost + LostBy(s, events[0]));
      assert lost + LostBy(s, events[0]) + LostIn(Apply(s, events[0]), events[1..]) == lost + LostIn(s, events);
    } else {
      assert lost + {} == lost;
    }
  }

  /** In every run a pending row has a thread in charge of it, unless the run contains the
      event that left its handoff to nobody. */
  lemma PendingHasAThread(s0: State, events: seq<Event>, s: State, id: ExecId)
    requires Init(s0) && Reaches(s0, events, s)
    requires id in s.table.rows && s.table.rows[id].handoff == Pending && id !in LostIn(s0, events)
    ensures exists i :: 0 <= i < |s.threads| && Charge(s.threads[i]) == id
  {
    InitOk(s0);
    assert PendingOk(s0, {});
    RunKeepsPending(s0, events, s, {});
    assert IsPending(s.table, id);
  }

  predicate LosesHandoffs(e: Event) {
    (e.Dispatch? && e.d == RecordFailure(false)) || (e.Restart? && !e.swept)
  }

  lemma {:induction false} NothingIsLost(s: State, events: seq<Event>)
    requires forall k :: 0 <= k < |events| ==> !LosesHandoffs(events[k])
    ensures LostIn(s, events) == {}
    decreases |events|
  {
    if events != [] && Enabled(s, events[0]) {
      assert forall k :: 0 <= k < |events[1..]| ==> events[1..][k] == events[k + 1];
      assert !LosesHandoffs(events[0]);
      NothingIsLost(Apply(s, events[0]), events[1..]);
    }
  }

  /** When all threads have ended no handoff is left pending, if every failure of a handoff
      was recorded and every restart swept. */
  lemma NoHandoffIsForgotten(s0: State, events: seq<Event>, s: State)
    requires Init(s0) && Reaches(s0, events, s)
    requires forall k :: 0 <= k < |events| ==> !LosesHandoffs(events[k])
    requires forall i :: 0 <= i < |s.threads| ==> s.threads[i] == Gone
    ensures forall id :: id in s.table.rows ==> s.table.rows[id].handoff != Pending
  {
    NothingIsLost(s0, events);
    InitOk(s0);
    RunKeepsOk(s0, events, s);
    forall id | id in s.table.rows
      ensures s.table.rows[id].handoff != Pending
    {
      assert id != 0;
      if s.table.rows[id].handoff == Pending { PendingHasAThread(s0, events, s, id); }
    }
  }

  // ----- when a dispatch skips and when it admits -----

  /** A dispatch has nothing to do exactly if its row is gone, not a success or not pending. */
  lemma DispatchSkipsExactly(s: State, i: nat)
    requires i < |s.threads| && s.threads[i].Dispatching? && s.conn.None?
    ensures var parent := s.threads[i].parent;
            Enabled(s, Dispatch(i, Skips)) <==>
              parent !in s.table.rows || s.table.rows[parent].status != Succeeded || s.table.rows[parent].handoff != Pending
  {
  }

  /** It goes on to the writes exactly if the row is a pending success, its target exists and
      is not on its path, and the runner has room and does not run the target. */
  lemma DispatchAdmitsExactly(s: State, i: nat)
    requires i < |s.threads| && s.threads[i].Dispatching? && s.conn.None?
    ensures var parent := s.threads[i].parent;
            Enabled(s, Dispatch(i, Admits)) <==>
              && parent in s.table.rows && s.table.rows[parent].status == Succeeded && s.table.rows[parent].handoff == Pending
              && s.table.rows[parent].target in s.hooks && s.table.rows[parent].target !in s.table.rows[parent].path
              && s.table.rows[parent].target !in s.runner.inFlight && |s.runner.inFlight| < s.runner.capacity
  {
  }

  // ----- what a trigger writes -----

  /** A trigger's handler remembers the target its hook has when it is read. */
  lemma TriggerReadsItsTarget(s: State, hook: HookId)
    requires Enabled(s, Load(hook))
    ensures var ts := Apply(s, Load(hook)).threads;
            |ts| == |s.threads| + 1 && ts[|s.threads|] == Loaded(hook, s.hooks[hook])
  {
  }

  /** The row it inserts begins a chain of its own with that target, running at once when
      somebody waits for the answer and queued otherwise. */
  lemma TriggeredRowIsAsRead(s: State, i: nat, t: TriggerStep)
    requires Enabled(s, Trigger(i, t)) && (t.SyncInsert? || t.AsyncInsert?)
    ensures var s' := Apply(s, Trigger(i, t));
            && s'.table.rows == s.table.rows[s.table.nextId :=
                 Row(s.threads[i].hook, if t.SyncInsert? then Running else Queued, t.at, None, 0,
                     [s.threads[i].hook], s.threads[i].target, NoHandoff, 0, 0)]
            && Charge(s'.threads[i]) == s.table.nextId
  {
  }

  // ----- when a retry is to be had -----

  /** In every reachable state with a free connection a retry of the current attempt, and of no
      other, is granted exactly if the handoff failed, was interrupted, or went to a
      successor that is failed, canceled or interrupted. */
  lemma RetryIsGrantedExactly(s: State, id: ExecId, attempt: int)
    requires Reachable(s) && s.conn.None?
    ensures Enabled(s, Claim(id, attempt)) <==>
              && id in s.table.rows && attempt == s.table.rows[id].attempt
              && (|| s.table.rows[id].handoff == HandoffFailed
                  || s.table.rows[id].handoff == HandoffInterrupted
                  || (&& s.table.rows[id].handoff == Dispatched && s.table.rows[id].child in s.table.rows
                      && var status := s.table.rows[s.table.rows[id].child].status;
                         status == Failed || status == Canceled || status == Interrupted))
  {
    ReachableIsOk(s);
    if id in s.table.rows {
      assert RowOk(id, s.table.rows[id], s.now, s.ever);
      var child := s.table.rows[id].child;
      if child in s.table.rows { assert RowOk(child, s.table.rows[child], s.now, s.ever); }
    }
  }

  // ----- after a restart -----

  lemma NothingIsPendingAfterSweep(s: State, at: int)
    requires Enabled(s, Restart(true, at))
    ensures forall id {:trigger IsPending(Apply(s, Restart(true, at)).table, id)} ::
              !IsPending(Apply(s, Restart(true, at)).table, id)
  {
    forall id
      ensures !IsPending(Apply(s, Restart(true, at)).table, id)
    {
      if id in s.table.rows { assert Sweep(s.table, at).rows[id] == SweptRow(s.table.rows[id], at); }
    }
  }

  /** After a restart whose sweep succeeds no row is active and none is pending: what was
      running or queued is interrupted, and so is every handoff that was pending. */
  lemma SweptRestartLeavesNothingOpen(s: State, at: int, id: ExecId)
    requires Enabled(s, Restart(true, at)) && id in s.table.rows
    ensures var rows := Apply(s, Restart(true, at)).table.rows;
            && id in rows
            && rows[id].status != Running && rows[id].status != Queued && rows[id].handoff != Pending
            && (s.table.rows[id].status == Running || s.table.rows[id].status == Queued ==>
                  rows[id].status == Interrupted && rows[id].finishedAt == Some(at))
            && (s.table.rows[id].handoff == Pending ==> rows[id].handoff == HandoffInterrupted)
            && (s.table.rows[id].status != Running && s.table.rows[id].status != Queued ==> rows[id].status == s.table.rows[id].status)
  {
    assert Sweep(s.table, at).rows[id] == SweptRow(s.table.rows[id], at);
  }

  // ----- a stored result stays -----

  predicate StepsThread(e: Event, i: nat) {
    || (e.Trigger? && e.i == i) || (e.Launching? && e.i == i) || (e.Work? && e.i == i)
    || (e.Dispatch? && e.i == i) || (e.CloseCancel? && e.i == i) || e.Restart?
  }

  lemma OthersLeaveThread(s: State, e: Event, i: nat)
    requires Enabled(s, e) && i < |s.threads| && !StepsThread(e, i)
    ensures i < |Apply(s, e).threads| && Apply(s, e).threads[i] == s.threads[i]
  {
    match e
    case Trigger(_, _) =>
    case Launching(_, _) =>
    case Work(_, _) =>
    case Dispatch(_, _) =>
    case _ =>
  }

  /** A thread stays where it is while others take their steps. */
  lemma {:induction false} ThreadWaits(s: State, events: seq<Event>, t: State, i: nat)
    requires Reaches(s, events, t) && i < |s.threads|
    requires forall k :: 0 <= k < |events| ==> !StepsThread(events[k], i)
    ensures i < |t.threads| && t.threads[i] == s.threads[i]
    decreases |events|
  {
    if events != [] {
      OthersLeaveThread(s, events[0], i);
      assert forall k :: 0 <= k < |events[1..]| ==> events[1..][k] == events[k + 1];
      ThreadWaits(Apply(s, events[0]), events[1..], t, i);
    }
  }

  /** A row that an event has ended keeps the status it ended with. */
  lemma EndedStays(s: State, e: Event, events: seq<Event>, t: State, id: ExecId, status: Status)
    requires Ok(s) && Enabled(s, e) && Reaches(Apply(s, e), events, t)
    requires id in Apply(s, e).table.rows && Apply(s, e).table.rows[id].status == status && !Active(status)
    ensures id in t.table.rows ==> t.table.rows[id].status == status
  {
    StepKeepsOk(s, e);
    RunAges(Apply(s, e), events, t);
  }

  lemma StoreWrites(s: State, i: nat, at: int)
    requires BaseOk(s) && Enabled(s, Work(i, WorkStep.Store(true, at)))
    ensures var exec, rows := s.threads[i].exec, Apply(s, Work(i, WorkStep.Store(true, at))).table.rows;
            exec in rows && rows[exec].status == s.threads[i].result && rows[exec].finishedAt == Some(at)
  {
    assert ThreadOk(s, i);
  }

  /** What a worker's run came to, once stored, is its status in every later state. */
  lemma ExecutedResultStays(s: State, i: nat, result: Status, between: seq<Event>, m: State, at: int, later: seq<Event>, t: State)
    requires Reachable(s) && Enabled(s, Work(i, Execute(result)))
    requires Reaches(Apply(s, Work(i, Execute(result))), between, m)
    requires forall k :: 0 <= k < |between| ==> !StepsThread(between[k], i)
    requires Enabled(m, Work(i, WorkStep.Store(true, at))) && Reaches(Apply(m, Work(i, WorkStep.Store(true, at))), later, t)
    ensures var exec := s.threads[i].exec;
            exec in t.table.rows ==> t.table.rows[exec].status == result
  {
    ThreadWaits(Apply(s, Work(i, Execute(result))), between, m, i);
    RunsOn(s, Work(i, Execute(result)), between, m);
    ReachableIsOk(m);
    StoreWrites(m, i, at);
    EndedStays(m, Work(i, WorkStep.Store(true, at)), later, t, s.threads[i].exec, result);
  }

  lemma SyncFinishWrites(s: State, i: nat, at: int)
    requires BaseOk(s) && Enabled(s, Trigger(i, SyncFinish(true, at)))
    ensures var exec, rows := s.threads[i].exec, Apply(s, Trigger(i, SyncFinish(true, at))).table.rows;
            exec in rows && rows[exec].status == s.threads[i].result && rows[exec].finishedAt == Some(at)
  {
    assert ThreadOk(s, i);
  }

  /** The same for a synchronous run. */
  lemma SyncResultStays(s: State, i: nat, result: Status, between: seq<Event>, m: State, at: int, later: seq<Event>, t: State)
    requires Reachable(s) && Enabled(s, Trigger(i, SyncExecute(result)))
    requires Reaches(Apply(s, Trigger(i, SyncExecute(result))), between, m)
    requires forall k :: 0 <= k < |between| ==> !StepsThread(between[k], i)
    requires Enabled(m, Trigger(i, SyncFinish(true, at))) && Reaches(Apply(m, Trigger(i, SyncFinish(true, at))), later, t)
    ensures var exec := s.threads[i].exec;
            exec in t.table.rows ==> t.table.rows[exec].status == result
  {
    ThreadWaits(Apply(s, Trigger(i, SyncExecute(result))), between, m, i);
    RunsOn(s, Trigger(i, SyncExecute(result)), between, m);
    ReachableIsOk(m);
    SyncFinishWrites(m, i, at);
    EndedStays(m, Trigger(i, SyncFinish(true, at)), later, t, s.threads[i].exec, result);
  }

  lemma LogEndWrites(s: State, i: nat, w: WorkStep)
    requires BaseOk(s) && Enabled(s, Work(i, w)) && (w.LogCanceled? || w.LogPanic?) && w.stored
    ensures var exec, rows := s.threads[i].exec, Apply(s, Work(i, w)).table.rows;
            exec in rows && rows[exec].status == (if w.LogCanceled? then Canceled else Failed) && rows[exec].finishedAt == Some(w.at)
  {
    assert ThreadOk(s, i);
  }

  /** A run canceled before it started stays canceled, one that panicked stays failed. */
  lemma LoggedEndStays(s: State, i: nat, w: WorkStep, later: seq<Event>, t: State)
    requires Reachable(s) && Enabled(s, Work(i, w)) && (w.LogCanceled? || w.LogPanic?) && w.stored
    requires Reaches(Apply(s, Work(i, w)), later, t)
    ensures var exec := s.threads[i].exec;
            exec in t.table.rows ==> t.table.rows[exec].status == if w.LogCanceled? then Canceled else Failed
  {
    ReachableIsOk(s);
    LogEndWrites(s, i, w);
    EndedStays(s, Work(i, w), later, t, s.threads[i].exec, if w.LogCanceled? then Canceled else Failed);
  }
}
