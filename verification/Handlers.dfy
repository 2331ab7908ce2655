/** The handlers as the code writes them: objects whose methods change tables and maps in
    place. Every method is tied to the functions the protocol steps are made of, so what
    is proved of the steps holds of the methods. */
module Handlers {
  import opened HookGraph
  import opened Executions
  import opened Retention
  import P = Protocol

  // ----- the runner -----

  /** One admission. `owner` is history: the thread that holds it. */
  class Slot {
    const hook: HookId
    var execId: ExecId
    ghost var owner: nat

    constructor (hook: HookId, ghost owner: nat)
      ensures this.hook == hook && execId == 0 && this.owner == owner
    {
      this.hook := hook;
      this.execId := 0;
      this.owner := owner;
    }
  }

  datatype Admission = Granted(slot: Slot) | HookBusy(running: ExecId) | QueueFull

  class Runner {
    const capacity: nat
    const maxConcurrent: nat
    var inFlight: map<HookId, Slot>
    var slots: int
    var wg: int

    ghost predicate Valid()
      reads this, inFlight.Values
    {
      && (forall h :: h in inFlight ==> inFlight[h].hook == h)
      && |inFlight| <= capacity && 0 <= slots <= maxConcurrent
    }

    ghost function View(): P.Runner
      reads this, inFlight.Values
    {
      P.Runner(capacity, maxConcurrent,
               map h | h in inFlight :: P.Slot(inFlight[h].execId, inFlight[h].owner), slots, wg)
    }

    constructor (maxConcurrent: int, maxQueue: int)
      ensures Valid()
      ensures this.maxConcurrent == (if maxConcurrent < 1 then 1 else maxConcurrent)
      ensures capacity == this.maxConcurrent + (if maxQueue < 0 then 0 else maxQueue)
      ensures View() == P.Runner(capacity, this.maxConcurrent, map[], 0, 0)
    {
      var running := if maxConcurrent < 1 then 1 else maxConcurrent;
      var queue := if maxQueue < 0 then 0 else maxQueue;
      this.maxConcurrent := running;
      this.capacity := running + queue;
      this.inFlight := map[];
      this.slots := 0;
      this.wg := 0;
    }

    /** A refusal changes nothing; a busy hook is reported with the execution holding it. */
    method Admit(hook: HookId, ghost owner: nat) returns (a: Admission)
      requires Valid()
      modifies this
      ensures Valid()
      ensures a.Granted? <==> hook !in old(inFlight) && |old(inFlight)| < capacity
      ensures a.Granted? <==> P.AdmitsIn(old(View()), hook)
      ensures a.Granted? ==> wg == old(wg) + 1
      ensures !a.Granted? ==> inFlight == old(inFlight) && wg == old(wg)
      ensures slots == old(slots)
      ensures a.Granted? ==> fresh(a.slot) && a.slot.hook == hook && inFlight == old(inFlight)[hook := a.slot]
      ensures View() == if a.Granted? then P.HoldIn(old(View()), hook, owner) else old(View())
      ensures a.HookBusy? <==> hook in old(View()).inFlight
      ensures a.HookBusy? ==> a.running == old(View()).inFlight[hook].exec
    {
      if hook in inFlight {
        return HookBusy(inFlight[hook].execId);
      }
      assert View().inFlight.Keys == inFlight.Keys;
      assert |View().inFlight| == |inFlight|;
      if |inFlight| >= capacity {
        return QueueFull;
      }
      var slot := new Slot(hook, owner);
      ghost var before := inFlight;
      inFlight := inFlight[hook := slot];
      wg := wg + 1;
      assert inFlight.Keys == before.Keys + {hook};
      assert |inFlight| == |before| + 1;
      assert View().inFlight == old(View()).inFlight[hook := P.Slot(0, owner)];
      return Granted(slot);
    }

    /** Both halves of Release, without anybody in between. */
    method Release(slot: Slot)
      requires Valid() && slot.hook in inFlight
      modifies this
      ensures Valid()
      ensures inFlight == old(inFlight) - {slot.hook} && wg == old(wg) - 1 && slots == old(slots)
      ensures View() == P.CountIn(P.DropIn(old(View()), slot.hook), -1)
    {
      ghost var before := inFlight;
      inFlight := inFlight - {slot.hook};
      wg := wg - 1;
      assert inFlight.Keys == before.Keys - {slot.hook};
      assert |inFlight| == |before| - 1;
      assert View().inFlight == old(View()).inFlight - {slot.hook};
    }

    /** Blocks until a slot is free or the switch is closed; if both, either may win. */
    method Start(canceled: bool, preferCancel: bool) returns (started: bool)
      requires Valid() && (slots < maxConcurrent || canceled)
      modifies this`slots
      ensures Valid()
      ensures !canceled ==> started
      ensures slots == old(slots) + if started then 1 else 0
      ensures View() == if started then P.SlotsIn(old(View()), 1) else old(View())
    {
      if canceled && (preferCancel || slots >= maxConcurrent) {
        return false;
      }
      slots := slots + 1;
      return true;
    }

    method Finish()
      requires Valid() && slots > 0
      modifies this`slots
      ensures Valid() && slots == old(slots) - 1 && View() == P.SlotsIn(old(View()), -1)
    {
      slots := slots - 1;
    }

    method TrackHandoff()
      requires Valid()
      modifies this`wg
      ensures Valid() && wg == old(wg) + 1 && View() == P.CountIn(old(View()), 1)
    {
      wg := wg + 1;
    }

    /** SetExecution; the entry of every other hook is another slot and stays as it is. */
    method SetExecution(slot: Slot, exec: ExecId)
      requires Valid() && slot.hook in inFlight && inFlight[slot.hook] == slot
      modifies slot`execId
      ensures Valid()
      ensures slot.execId == exec && forall h :: h in inFlight && h != slot.hook ==> inFlight[h].execId == old(inFlight[h].execId)
      ensures View() == P.SetSlotIn(old(View()), slot.hook, P.Slot(exec, slot.owner))
    {
      slot.execId := exec;
      assert View().inFlight == old(View()).inFlight[slot.hook := P.Slot(exec, slot.owner)];
    }
  }

  // ----- the cancel registry -----

  class Switch {
    var closed: bool

    constructor ()
      ensures !closed
    {
      closed := false;
    }

    /** Closing a closed channel would be a panic. */
    method Close()
      requires !closed
      modifies this
      ensures closed
    {
      closed := true;
    }
  }

  class CancelRegistry {
    var pending: map<ExecId, Switch>

    /** Registered switches are open and no two executions share one. */
    ghost predicate Valid()
      reads this, pending.Values
    {
      && (forall e :: e in pending ==> !pending[e].closed)
      && (forall e, f :: e in pending && f in pending && pending[e] == pending[f] ==> e == f)
    }

    constructor ()
      ensures Valid() && pending == map[]
    {
      pending := map[];
    }

    method Register(exec: ExecId) returns (ch: Switch)
      requires Valid()
      modifies this
      ensures Valid() && fresh(ch) && !ch.closed && pending == old(pending)[exec := ch]
    {
      ch := new Switch();
      pending := pending[exec := ch];
    }

    method Unregister(exec: ExecId)
      requires Valid()
      modifies this
      ensures Valid() && pending == old(pending) - {exec}
    {
      pending := pending - {exec};
    }

    /** Signals the execution if there is something to signal. The switch leaves the map
        before it is closed, so it is closed once. */
    method Cancel(exec: ExecId) returns (found: bool)
      requires Valid()
      modifies this, pending.Values
      ensures Valid() && pending == old(pending) - {exec}
      ensures found <==> exec in old(pending)
      ensures found ==> old(pending)[exec].closed
      ensures forall e :: e in old(pending) && e != exec ==> !old(pending)[e].closed
    {
      if exec !in pending {
        return false;
      }
      var ch := pending[exec];
      pending := pending - {exec};
      ch.Close();
      return true;
    }
  }

  // ----- the executions table -----

  datatype ClaimAnswer = Answer(code: int, granted: bool)

  /** Which statement of a dispatch fails, if any: the transaction's begin, one of its
      reads, its insert, its update or its commit. */
  datatype Fault = NoFault | BeginFails | ReadFails | InsertFails | UpdateFails | CommitFails

  datatype DispatchOutcome =
    | NothingToDo
    | DispatchError(why: string)
    | Launched(child: ExecId, slot: Slot)

  /** The rows with a successor committed: the child in the queue, with the parent's path and
      its own hook, remembering its own hook's current target; the parent naming it. */
  function WithSuccessor(rows: map<ExecId, Row>, hooks: map<HookId, HookId>, parent: ExecId, child: ExecId, now: int): map<ExecId, Row>
    requires parent in rows && rows[parent].target in hooks
  {
    var p := rows[parent];
    rows[child := Row(p.target, Queued, now, None, parent, p.path + [p.target], hooks[p.target], NoHandoff, 0, 0)]
        [parent := p.(handoff := Dispatched, child := child)]
  }

  /** The first update of the sweep leaves every status alone. */
  lemma SameActive(rows: map<ExecId, Row>, between: map<ExecId, Row>)
    requires between == map id | id in rows ::
               if rows[id].handoff == Pending then rows[id].(handoff := HandoffInterrupted) else rows[id]
    ensures (set id | id in between && Active(between[id].status)) == (set id | id in rows && Active(rows[id].status))
  {
    assert forall id :: id in between <==> id in rows;
    assert forall id :: id in rows ==> between[id].status == rows[id].status;
  }

  /** A swept row in its fields. */
  lemma SweptInFields(rows: map<ExecId, Row>, swept: map<ExecId, Row>, now: int)
    requires forall id :: id in rows ==> id in swept && swept[id] == SweptRow(rows[id], now)
    ensures forall id :: id in rows && (rows[id].status == Running || rows[id].status == Queued) ==>
              swept[id].status == Interrupted && swept[id].finishedAt == Some(now)
    ensures forall id :: id in rows && rows[id].status != Running && rows[id].status != Queued ==>
              swept[id].status == rows[id].status && swept[id].finishedAt == rows[id].finishedAt
    ensures forall id :: id in rows ==>
              swept[id].handoff == if rows[id].handoff == Pending then HandoffInterrupted else rows[id].handoff
    ensures forall id :: id in rows ==>
              swept[id] == rows[id].(status := swept[id].status, finishedAt := swept[id].finishedAt, handoff := swept[id].handoff)
  {
  }

  /** What entitles to a retry, in the fields of the rows. */
  predicate MayRetry(rows: map<ExecId, Row>, parent: ExecId, attempt: int, childReadOk: bool) {
    && parent in rows && rows[parent].status == Succeeded && rows[parent].target != NONE && rows[parent].attempt == attempt
    && (|| rows[parent].handoff == HandoffFailed
        || rows[parent].handoff == HandoffInterrupted
        || (&& rows[parent].handoff == Dispatched && childReadOk && rows[parent].child in rows
            && var status := rows[rows[parent].child].status;
               status == Failed || status == Canceled || status == Interrupted || status == TimedOut))
  }

  /** The two tables of the database that the protocol works on. A method is one
      statement or transaction; `ok` or a fault says whether the store carries it out. */
  class Database {
    var hooks: map<HookId, HookId>
    var rows: map<ExecId, Row>
    var nextId: ExecId
    ghost var births: map<ExecId, Birth>
    var logs: map<int, ExecId>

    ghost function View(): Table
      reads this
    {
      Table(rows, nextId, births)
    }

    constructor ()
      ensures hooks == map[] && View() == Table(map[], 1, map[]) && logs == map[]
    {
      hooks := map[];
      rows := map[];
      nextId := 1;
      births := map[];
      logs := map[];
    }

    /** startHookExecution for a trigger. */
    method InsertExecution(hook: HookId, target: HookId, status: Status, now: int, ok: bool) returns (id: ExecId)
      requires nextId > 0
      modifies this`rows, this`nextId, this`births
      ensures nextId > 0
      ensures ok ==> id == old(nextId) && View() == InsertRoot(old(View()), hook, target, status, now)
      ensures ok ==> nextId == id + 1 && rows == old(rows)[id := Row(hook, status, now, None, 0, [hook], target, NoHandoff, 0, 0)]
      ensures !ok ==> id == 0 && View() == old(View())
    {
      if !ok {
        return 0;
      }
      id := nextId;
      rows := rows[id := Row(hook, status, now, None, 0, [hook], target, NoHandoff, 0, 0)];
      births := births[id := Birth(0, 0, id)];
      nextId := nextId + 1;
    }

    /** logExecution: the trace of a trigger that was refused. */
    method LogRefusal(hook: HookId, now: int, ok: bool)
      modifies this`rows, this`nextId, this`births
      ensures View() == if ok then InsertRefusal(old(View()), hook, now) else old(View())
      ensures ok ==> rows == old(rows)[old(nextId) := Row(hook, Failed, now, Some(now), 0, [], NONE, NoHandoff, 0, 0)]
      ensures !ok ==> rows == old(rows)
    {
      if ok {
        rows := rows[nextId := Row(hook, Failed, now, Some(now), 0, [], NONE, NoHandoff, 0, 0)];
        births := births[nextId := Birth(0, 0, nextId)];
        nextId := nextId + 1;
      }
    }

    method MarkAsRunning(id: ExecId, now: int, ok: bool)
      modifies this`rows
      ensures View() == if ok then MarkRunning(old(View()), id, now) else old(View())
      ensures !ok || id !in old(rows) ==> rows == old(rows)
      ensures ok && id in old(rows) ==> rows == old(rows)[id := old(rows)[id].(status := Running, startedAt := now)]
    {
      if ok && id in rows {
        rows := rows[id := rows[id].(status := Running, startedAt := now)];
      }
    }

    method LogEnd(id: ExecId, status: Status, now: int, ok: bool)
      modifies this`rows
      ensures View() == if ok then LogExecutionEnd(old(View()), id, status, now) else old(View())
      ensures !ok || id !in old(rows) ==> rows == old(rows)
      ensures ok && id in old(rows) ==> rows == old(rows)[id := old(rows)[id].(status := status, finishedAt := Some(now))]
    {
      if ok && id in rows {
        rows := rows[id := rows[id].(status := status, finishedAt := Some(now))];
      }
    }

    /** The result and the pending handoff, in one statement that only an active row takes. */
    method FinishHookExecution(id: ExecId, status: Status, now: int, ok: bool)
      modifies this`rows
      ensures ok && id in old(rows) && (old(rows)[id].status == Running || old(rows)[id].status == Queued) ==>
                && id in rows && rows[id].status == status && rows[id].finishedAt == Some(now)
                && (if status == Succeeded && old(rows)[id].target != NONE
                    then rows[id].handoff == Pending && rows[id].attempt == 1
                    else rows[id].handoff == NoHandoff && rows[id].attempt == 0)
                && rows == old(rows)[id := old(rows)[id].(status := rows[id].status, finishedAt := rows[id].finishedAt,
                                                          handoff := rows[id].handoff, attempt := rows[id].attempt)]
      ensures !(ok && id in old(rows) && (old(rows)[id].status == Running || old(rows)[id].status == Queued)) ==>
                rows == old(rows)
      ensures View() == if ok then FinishExecution(old(View()), id, status, now) else old(View())
    {
      if ok && id in rows && (rows[id].status == Running || rows[id].status == Queued) {
        var r := rows[id].(status := status, finishedAt := Some(now));
        if status == Succeeded && r.target != NONE {
          r := r.(handoff := Pending, attempt := 1);
        } else {
          r := r.(handoff := NoHandoff, attempt := 0);
        }
        rows := rows[id := r];
      }
    }

    /** Whether the chain has run the target before: the loop over the stored path. */
    method AlreadyVisited(path: seq<HookId>, target: HookId) returns (visited: bool)
      ensures visited <==> target in path
    {
      for k := 0 to |path|
        invariant target !in path[..k]
      {
        if path[k] == target {
          return true;
        }
      }
      return false;
    }

    /** The reads of the dispatch transaction. */
    method ReadPlan(parent: ExecId) returns (plan: Plan)
      ensures plan == PlanDispatch(View(), hooks, parent)
      ensures plan.Skip? <==> parent !in rows || rows[parent].status != Succeeded || rows[parent].handoff != Pending
      ensures plan == Refuse(HookMissing) <==> !plan.Skip? && rows[parent].target !in hooks
      ensures plan.Launch? <==>
                !plan.Skip? && rows[parent].target in hooks && rows[parent].target !in rows[parent].path
      ensures plan.Launch? ==> plan.target == rows[parent].target
    {
      if parent !in rows || rows[parent].status != Succeeded {
        return Skip;
      }
      var r := rows[parent];
      if r.handoff != Pending {
        return Skip;
      }
      if r.target !in hooks {
        return Refuse(HookMissing);
      }
      var visited := AlreadyVisited(r.path, r.target);
      return if visited then Refuse(ChainLoop) else Launch(r.target);
    }

    /** The writes of the dispatch transaction. */
    method WriteSuccessor(parent: ExecId, now: int) returns (child: ExecId)
      requires PlanDispatch(View(), hooks, parent).Launch?
      modifies this`rows, this`nextId, this`births
      ensures child == old(nextId) && View() == CommitSuccessor(old(View()), hooks, parent, now)
      ensures nextId == child + 1 && rows == WithSuccessor(old(rows), hooks, parent, child, now)
      ensures var p := old(rows)[parent];
              rows == old(rows)[child := Row(p.target, Queued, now, None, parent, p.path + [p.target], hooks[p.target], NoHandoff, 0, 0)]
                               [parent := p.(handoff := Dispatched, child := child)]
    {
      var r := rows[parent];
      child := nextId;
      rows := rows[child := Row(r.target, Queued, now, None, parent, r.path + [r.target], hooks[r.target], NoHandoff, 0, 0)];
      rows := rows[parent := r.(handoff := Dispatched, child := child)];
      births := births[child := Birth(parent, r.attempt, if parent in births then births[parent].root else parent)];
      nextId := nextId + 1;
    }

    /** The dispatch transaction with the admission inside it. Whatever goes wrong, the
        tables and the runner are as they were; if nothing does, exactly the child row, the
        parent's reference to it and the admission are new. */
    method DispatchPendingSuccess(parent: ExecId, runner: Runner, now: int, fault: Fault, ghost thread: nat)
      returns (outcome: DispatchOutcome)
      requires runner.Valid()
      modifies this`rows, this`nextId, this`births, runner
      ensures runner.Valid()
      ensures outcome.NothingToDo? <==>
                && fault != BeginFails && fault != ReadFails
                && (parent !in old(rows) || old(rows)[parent].status != Succeeded || old(rows)[parent].handoff != Pending)
      ensures !outcome.Launched? ==> View() == old(View()) && runner.View() == old(runner.View())
      ensures outcome.Launched? <==>
                && fault == NoFault
                && parent in old(rows) && old(rows)[parent].status == Succeeded && old(rows)[parent].handoff == Pending
                && old(rows)[parent].target in hooks && old(rows)[parent].target !in old(rows)[parent].path
                && old(rows)[parent].target !in old(runner.inFlight) && |old(runner.inFlight)| < runner.capacity
      ensures outcome.Launched? ==>
                && outcome.child == old(nextId)
                && rows == WithSuccessor(old(rows), hooks, parent, outcome.child, now)
                && PlanDispatch(old(View()), hooks, parent).Launch?
                && View() == CommitSuccessor(old(View()), hooks, parent, now)
                && runner.View() == P.HoldIn(old(runner.View()), PlanDispatch(old(View()), hooks, parent).target, thread)
    {
      if fault == BeginFails || fault == ReadFails {
        return DispatchError("database");
      }
      var plan := ReadPlan(parent);
      if plan.Skip? {
        return NothingToDo;
      }
      if plan.Refuse? {
        return DispatchError("refused");
      }
      outcome := LaunchSuccessor(parent, plan.target, runner, now, fault, thread);
    }

    /** Admission, then the writes; if they fail, the deferred release. */
    method LaunchSuccessor(parent: ExecId, target: HookId, runner: Runner, now: int, fault: Fault, ghost thread: nat)
      returns (outcome: DispatchOutcome)
      requires runner.Valid() && PlanDispatch(View(), hooks, parent) == Launch(target)
      modifies this`rows, this`nextId, this`births, runner
      ensures runner.Valid() && !outcome.NothingToDo?
      ensures !outcome.Launched? ==> View() == old(View()) && runner.View() == old(runner.View())
      ensures outcome.Launched? <==>
                fault == NoFault && target !in old(runner.inFlight) && |old(runner.inFlight)| < runner.capacity
      ensures outcome.Launched? ==>
                && outcome.child == old(nextId)
                && rows == WithSuccessor(old(rows), hooks, parent, outcome.child, now)
                && View() == CommitSuccessor(old(View()), hooks, parent, now)
                && runner.View() == P.HoldIn(old(runner.View()), target, thread)
    {
      if fault != NoFault {
        AdmitInVain(runner, target, thread);
        return DispatchError("refused by the runner or the database");
      }
      var a := runner.Admit(target, thread);
      if !a.Granted? {
        return DispatchError("refused by the runner");
      }
      var child := WriteSuccessor(parent, now);
      return Launched(child, a.slot);
    }

    /** An admission that a failing statement behind it makes worthless is given back. */
    method AdmitInVain(runner: Runner, target: HookId, ghost thread: nat)
      requires runner.Valid()
      modifies runner
      ensures runner.Valid() && runner.View() == old(runner.View())
    {
      var a := runner.Admit(target, thread);
      if a.Granted? {
        runner.Release(a.slot);
        assert runner.View().inFlight == old(runner.View()).inFlight;
      }
    }

    /** dispatchSuccess: an error becomes a failed handoff, if that statement gets through. */
    method DispatchSuccess(parent: ExecId, runner: Runner, now: int, fault: Fault, recorded: bool, ghost thread: nat)
      returns (outcome: DispatchOutcome)
      requires runner.Valid()
      modifies this`rows, this`nextId, this`births, runner
      ensures runner.Valid()
      ensures outcome.NothingToDo? <==>
                && fault != BeginFails && fault != ReadFails
                && (parent !in old(rows) || old(rows)[parent].status != Succeeded || old(rows)[parent].handoff != Pending)
      ensures outcome.NothingToDo? ==> View() == old(View())
      ensures outcome.DispatchError? ==>
                && View() == (if recorded then RecordHandoffFailure(old(View()), parent) else old(View()))
                && runner.View() == old(runner.View())
                && (if recorded && parent in old(rows) && old(rows)[parent].handoff == Pending
                    then rows == old(rows)[parent := old(rows)[parent].(handoff := HandoffFailed)]
                    else rows == old(rows))
      ensures outcome.Launched? <==>
                && fault == NoFault
                && parent in old(rows) && old(rows)[parent].status == Succeeded && old(rows)[parent].handoff == Pending
                && old(rows)[parent].target in hooks && old(rows)[parent].target !in old(rows)[parent].path
                && old(rows)[parent].target !in old(runner.inFlight) && |old(runner.inFlight)| < runner.capacity
      ensures outcome.Launched? ==>
                && outcome.child == old(nextId)
                && rows == WithSuccessor(old(rows), hooks, parent, outcome.child, now)
                && PlanDispatch(old(View()), hooks, parent).Launch?
                && View() == CommitSuccessor(old(View()), hooks, parent, now)
    {
      outcome := DispatchPendingSuccess(parent, runner, now, fault, thread);
      if outcome.DispatchError? && recorded && parent in rows && rows[parent].handoff == Pending {
        rows := rows[parent := rows[parent].(handoff := HandoffFailed)];
      }
    }

    /** claimSuccessRetry: 202 exactly when the retry is granted and committed. A child whose
        status cannot be read is answered like one that is not there. */
    method ClaimSuccessRetry(parent: ExecId, attempt: int, readOk: bool, childReadOk: bool, writeOk: bool) returns (a: ClaimAnswer)
      modifies this`rows
      ensures a.granted <==> readOk && writeOk && MayRetry(old(rows), parent, attempt, childReadOk)
      ensures a.granted <==>
                && readOk && writeOk
                && parent in old(rows) && old(rows)[parent].status == Succeeded && old(rows)[parent].target != NONE
                && old(rows)[parent].attempt == attempt
                && (|| old(rows)[parent].handoff == HandoffFailed
                    || old(rows)[parent].handoff == HandoffInterrupted
                    || (&& old(rows)[parent].handoff == Dispatched && childReadOk && old(rows)[parent].child in old(rows)
                        && var status := old(rows)[old(rows)[parent].child].status;
                           status == Failed || status == Canceled || status == Interrupted || status == TimedOut))
      ensures a.granted ==>
                && JudgeRetry(old(View()), parent, attempt).Claimed?
                && View() == ClaimRetry(old(View()), parent, attempt)
                && rows == old(rows)[parent := old(rows)[parent].(handoff := Pending, attempt := attempt + 1)]
      ensures !a.granted ==> View() == old(View())
      ensures a.code == 404 <==> readOk && parent !in old(rows)
      ensures a.code == 409 <==> readOk && parent in old(rows) && !MayRetry(old(rows), parent, attempt, childReadOk)
      ensures a.code == 500 <==> !readOk || (MayRetry(old(rows), parent, attempt, childReadOk) && !writeOk)
      ensures a.code == 202 <==> a.granted
    {
      if !readOk {
        return Answer(500, false);
      }
      if parent !in rows {
        return Answer(404, false);
      }
      var r := rows[parent];
      if r.status != Succeeded || r.target == NONE || r.attempt != attempt {
        return Answer(409, false);
      }
      var eligible := r.handoff == HandoffFailed || r.handoff == HandoffInterrupted;
      if r.handoff == Dispatched {
        if !childReadOk || r.child !in rows {
          return Answer(409, false);
        }
        var status := rows[r.child].status;
        eligible := status == Failed || status == Canceled || status == Interrupted || status == TimedOut;
      }
      if !eligible {
        return Answer(409, false);
      }
      if !writeOk {
        return Answer(500, false);
      }
      rows := rows[parent := r.(handoff := Pending, attempt := r.attempt + 1)];
      return Answer(202, true);
    }

    /** The SELECT that closes a retry request, and the answer made from it. */
    method AnswerToRetry(parent: ExecId, readOk: bool) returns (code: int, child: ExecId)
      ensures code == 202 <==> readOk && parent in rows && rows[parent].handoff == Dispatched
      ensures code == 202 ==> child == rows[parent].child && ReplyToRetry(View(), parent) == Started(child)
      ensures readOk ==> (code == 202 <==> ReplyToRetry(View(), parent).Started?)
      ensures code == 500 <==> !readOk || parent !in rows
      ensures code == 202 || code == 409 || code == 500
    {
      if !readOk || parent !in rows {
        return 500, 0;
      }
      var r := rows[parent];
      if r.handoff != Dispatched {
        return 409, 0;
      }
      return 202, r.child;
    }

    /** RetrySuccessor with nobody in between: claim, dispatch and closing read in a row. Other
        requests can come between the three, and then the id may be another request's; what
        it is then, ProtocolAnswers says. */
    method RetryUndisturbed(parent: ExecId, attempt: int, runner: Runner, now: int,
                            readOk: bool, childReadOk: bool, writeOk: bool, fault: Fault, recorded: bool, answerOk: bool,
                            ghost thread: nat)
      returns (code: int, child: ExecId)
      requires runner.Valid() && nextId !in rows
      modifies this`rows, this`nextId, this`births, runner
      ensures runner.Valid()
      ensures code == 202 ==>
                && MayRetry(old(rows), parent, attempt, true)
                && old(rows)[parent].target in hooks && old(rows)[parent].target !in old(rows)[parent].path
                && child == old(nextId)
                && rows == WithSuccessor(
                     old(rows)[parent := old(rows)[parent].(handoff := Pending, attempt := attempt + 1)], hooks, parent, child, now)
    {
      var a := ClaimSuccessRetry(parent, attempt, readOk, childReadOk, writeOk);
      if !a.granted {
        return a.code, 0;
      }
      var outcome := DispatchSuccess(parent, runner, now, fault, recorded, thread);
      code, child := AnswerToRetry(parent, answerOk);
    }

    /** The start-up sweep: two bulk updates in one transaction. */
    method SweepInterrupted(now: int, ok: bool) returns (n: int)
      modifies this`rows
      ensures View() == if ok then Sweep(old(View()), now) else old(View())
      ensures !ok ==> rows == old(rows)
      ensures ok ==> forall id :: id in rows <==> id in old(rows)
      ensures ok ==> forall id :: id in old(rows) && (old(rows)[id].status == Running || old(rows)[id].status == Queued) ==>
                rows[id].status == Interrupted && rows[id].finishedAt == Some(now)
      ensures ok ==> forall id :: id in old(rows) && old(rows)[id].status != Running && old(rows)[id].status != Queued ==>
                rows[id].status == old(rows)[id].status && rows[id].finishedAt == old(rows)[id].finishedAt
      ensures ok ==> forall id :: id in old(rows) ==>
                rows[id].handoff == if old(rows)[id].handoff == Pending then HandoffInterrupted else old(rows)[id].handoff
      ensures ok ==> forall id :: id in old(rows) ==>
                rows[id] == old(rows)[id].(status := rows[id].status, finishedAt := rows[id].finishedAt, handoff := rows[id].handoff)
      ensures n == if ok then |set id | id in old(rows) && Active(old(rows)[id].status)| else 0
    {
      if !ok {
        return 0;
      }
      InterruptHandoffs();
      ghost var between := rows;
      n := InterruptRuns(now);
      SameActive(old(rows), between);
      forall id | id in rows
        ensures rows[id] == SweptRow(old(rows)[id], now)
      {
        assert id in between && id in old(rows);
      }
      SweptInFields(old(rows), rows, now);
    }

    method InterruptHandoffs()
      modifies this`rows
      ensures rows == map id | id in old(rows) ::
                if old(rows)[id].handoff == Pending then old(rows)[id].(handoff := HandoffInterrupted) else old(rows)[id]
    {
      rows := map id | id in rows ::
        if rows[id].handoff == Pending then rows[id].(handoff := HandoffInterrupted) else rows[id];
    }

    /** Answers how many rows the update has touched. */
    method InterruptRuns(now: int) returns (n: int)
      modifies this`rows
      ensures n == |set id | id in old(rows) && Active(old(rows)[id].status)|
      ensures rows == map id | id in old(rows) ::
                if Active(old(rows)[id].status) then old(rows)[id].(status := Interrupted, finishedAt := Some(now)) else old(rows)[id]
    {
      n := |set id | id in rows && Active(rows[id].status)|;
      rows := map id | id in rows ::
        if Active(rows[id].status) then rows[id].(status := Interrupted, finishedAt := Some(now)) else rows[id];
    }

    /** The recursive query: the anchors, then round by round the parents not yet found. */
    method RetainedIds(cutoff: int) returns (kept: set<ExecId>)
      ensures forall id :: id in kept <==> Needed(rows, cutoff, id)
    {
      kept := set id | id in rows && IsAnchor(rows[id], cutoff);
      assert kept == Anchors(rows, cutoff);
      CloseIsClosed(rows, kept);
      var parents := set id | id in rows && id in kept && rows[id].parent != 0 :: rows[id].parent;
      while !(parents <= kept)
        invariant Anchors(rows, cutoff) <= kept <= Retained(rows, cutoff)
        invariant parents == ParentsOf(rows, kept)
        decreases Retained(rows, cutoff) - kept
      {
        kept := kept + parents;
        parents := set id | id in rows && id in kept && rows[id].parent != 0 :: rows[id].parent;
      }
      ClosedUnderParents(rows, kept);
      RetainedIsLeast(rows, cutoff, kept);
      forall id ensures id in kept <==> Needed(rows, cutoff, id) {
        RetainedIsExactlyNeeded(rows, cutoff, id);
      }
    }

    /** CleanupOldExecutions: the logs go first, chosen by the rows still there. A row goes
        exactly if neither it nor a descendant is unfinished, recent or pending, and a chunk
        goes exactly with its row. */
    method CleanupOldExecutions(cutoff: int, ok: bool) returns (n: int)
      modifies this`rows, this`logs
      ensures !ok ==> rows == old(rows) && logs == old(logs) && n == 0
      ensures ok ==> forall id :: id in rows <==> id in old(rows) && Needed(old(rows), cutoff, id)
      ensures ok ==> forall id :: id in old(rows) ==>
                (old(rows)[id].finishedAt.None? || old(rows)[id].startedAt >= cutoff || old(rows)[id].handoff == Pending ==> id in rows)
      ensures ok ==> forall id :: id in rows ==>
                || rows[id].finishedAt.None? || rows[id].startedAt >= cutoff || rows[id].handoff == Pending
                || exists c :: c in rows && rows[c].parent == id
      ensures ok ==> forall l :: l in logs <==> l in old(logs) && (old(logs)[l] in old(rows) ==> old(logs)[l] in rows)
      ensures forall id :: id in rows ==> rows[id] == old(rows)[id]
      ensures forall l :: l in logs ==> logs[l] == old(logs)[l]
      ensures n == |old(rows)| - |rows|
      ensures ok ==> View() == CleanTable(old(View()), cutoff)
    {
      if !ok {
        return 0;
      }
      var kept := RetainedIds(cutoff);
      logs := map l | l in logs && !(logs[l] in rows && logs[l] !in kept) :: logs[l];
      n := |rows|;
      rows := map id | id in rows && id in kept :: rows[id];
      n := n - |rows|;
      forall id | id in old(rows)
        ensures id in kept <==> id in Retained(old(rows), cutoff)
      {
        RetainedIsExactlyNeeded(old(rows), cutoff, id);
      }
      KeptByFields(old(rows), cutoff, rows);
    }
  }
}
