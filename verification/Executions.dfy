/** The executions table: one function per SQL statement or transaction that writes
    it, and the invariant that all of them keep. Errors of the store are modelled by
    the callers, who then leave the table as it was. */
module Executions {
  import opened HookGraph

  /** Row ids are handed out by AUTOINCREMENT: never 0, never used twice. */
  type ExecId = int

  datatype Option<T> = None | Some(value: T)

  datatype Status = Queued | Running | Succeeded | Failed | Canceled | Interrupted | TimedOut

  /** The `success_status` column. */
  datatype Handoff = NoHandoff | Pending | Dispatched | HandoffFailed | HandoffInterrupted

  /** A row. `path` is chain_path, `target` the snapshot of success_hook_id, `child`
      is success_execution_id and `attempt` is success_attempt. */
  datatype Row = Row(
    hook: HookId, status: Status, startedAt: int, finishedAt: Option<int>,
    parent: ExecId, path: seq<HookId>, target: HookId,
    handoff: Handoff, child: ExecId, attempt: int)

  /** A history entry, kept when the row is deleted: whose successor an execution was,
      in which generation of that parent, and which execution began the chain. */
  datatype Birth = Birth(parent: ExecId, attempt: int, root: ExecId)

  datatype Table = Table(rows: map<ExecId, Row>, nextId: ExecId, births: map<ExecId, Birth>)

  predicate Active(s: Status) { s == Queued || s == Running }

  /** A terminal status that entitles the parent to another attempt. */
  predicate Dead(s: Status) { s == Failed || s == Canceled || s == Interrupted }

  // ----- statements and transactions -----

  /** An inserted row without a parent begins a chain of its own. */
  function AddRoot(t: Table, r: Row): Table {
    Table(t.rows[t.nextId := r], t.nextId + 1, t.births[t.nextId := Birth(0, 0, t.nextId)])
  }

  /** The first row of a chain, written by a trigger. */
  function InsertRoot(t: Table, hook: HookId, target: HookId, status: Status, at: int): Table {
    AddRoot(t, Row(hook, status, at, None, 0, [hook], target, NoHandoff, 0, 0))
  }

  /** The trace a refused trigger leaves: a failed row outside any chain. */
  function InsertRefusal(t: Table, hook: HookId, at: int): Table {
    AddRoot(t, Row(hook, Failed, at, Some(at), 0, [], NONE, NoHandoff, 0, 0))
  }

  /** Unguarded: overwrites whatever status the row has. */
  function MarkRunning(t: Table, id: ExecId, at: int): Table {
    if id in t.rows then t.(rows := t.rows[id := t.rows[id].(status := Running, startedAt := at)]) else t
  }

  /** Unguarded: overwrites whatever status the row has. */
  function LogExecutionEnd(t: Table, id: ExecId, status: Status, at: int): Table {
    if id in t.rows then t.(rows := t.rows[id := t.rows[id].(status := status, finishedAt := Some(at))]) else t
  }

  /** The result and the pending handoff, in one guarded statement. */
  function FinishExecution(t: Table, id: ExecId, status: Status, at: int): Table {
    if id in t.rows && Active(t.rows[id].status) then
      var r := t.rows[id];
      var handsOff := status == Succeeded && r.target != NONE;
      t.(rows := t.rows[id := r.(
        status := status, finishedAt := Some(at),
        handoff := if handsOff then Pending else NoHandoff,
        attempt := if handsOff then 1 else 0)])
    else t
  }

  datatype Refusal = HookMissing | ChainLoop
  datatype Plan = Skip | Refuse(why: Refusal) | Launch(target: HookId)

  /** The reads of the dispatch transaction, up to the point where it asks for admission. */
  function PlanDispatch(t: Table, hooks: Graph, parent: ExecId): Plan {
    if parent !in t.rows || t.rows[parent].status != Succeeded then Skip
    else
      var r := t.rows[parent];
      if r.handoff != Pending then Skip
      else if r.target !in hooks then Refuse(HookMissing)
      else if r.target in r.path then Refuse(ChainLoop)
      else Launch(r.target)
  }

  /** The writes of the dispatch transaction: the child row and the parent's reference to it. */
  function CommitSuccessor(t: Table, hooks: Graph, parent: ExecId, at: int): Table
    requires PlanDispatch(t, hooks, parent).Launch?
  {
    var r := t.rows[parent];
    var child := Row(r.target, Queued, at, None, parent, r.path + [r.target], hooks[r.target], NoHandoff, 0, 0);
    var root := if parent in t.births then t.births[parent].root else parent;
    Table(
      t.rows[t.nextId := child][parent := r.(handoff := Dispatched, child := t.nextId)],
      t.nextId + 1,
      t.births[t.nextId := Birth(parent, r.attempt, root)])
  }

  function RecordHandoffFailure(t: Table, parent: ExecId): Table {
    if parent in t.rows && t.rows[parent].handoff == Pending
    then t.(rows := t.rows[parent := t.rows[parent].(handoff := HandoffFailed)])
    else t
  }

  datatype Claim = Claimed | NoSuchExecution | GenerationChanged | ChildUnavailable | NotEligible

  /** Whether a retry of generation `attempt` of `parent` is granted. */
  function JudgeRetry(t: Table, parent: ExecId, attempt: int): Claim {
    if parent !in t.rows then NoSuchExecution
    else
      var r := t.rows[parent];
      if r.status != Succeeded || r.target == NONE || r.attempt != attempt then GenerationChanged
      else if r.handoff == Dispatched then
        if r.child !in t.rows then ChildUnavailable
        else if Dead(t.rows[r.child].status) || t.rows[r.child].status == TimedOut then Claimed
        else NotEligible
      else if r.handoff == HandoffFailed || r.handoff == HandoffInterrupted then Claimed
      else NotEligible
  }

  function ClaimRetry(t: Table, parent: ExecId, attempt: int): Table
    requires JudgeRetry(t, parent, attempt).Claimed?
  {
    t.(rows := t.rows[parent := t.rows[parent].(handoff := Pending, attempt := t.rows[parent].attempt + 1)])
  }

  /** The answer of a retry request, from the SELECT that closes it. */
  datatype Reply = Started(child: ExecId) | Declined | Unreadable

  function ReplyToRetry(t: Table, parent: ExecId): Reply {
    if parent !in t.rows then Unreadable
    else if t.rows[parent].handoff != Dispatched then Declined
    else Started(t.rows[parent].child)
  }

  function SweptRow(r: Row, at: int): Row {
    var r' := if r.handoff == Pending then r.(handoff := HandoffInterrupted) else r;
    if Active(r'.status) then r'.(status := Interrupted, finishedAt := Some(at)) else r'
  }

  /** The start-up sweep, both updates of it. */
  function Sweep(t: Table, at: int): Table {
    t.(rows := map id | id in t.rows :: SweptRow(t.rows[id], at))
  }

  function Keep(t: Table, kept: set<ExecId>): Table {
    t.(rows := map id | id in t.rows && id in kept :: t.rows[id])
  }

  // ----- the invariant -----

  /** What one row says by itself. */
  ghost predicate RowOk(id: ExecId, r: Row, now: int, ever: set<HookId>) {
    && r.startedAt <= now
    && r.status != TimedOut
    && (r.finishedAt.None? <==> Active(r.status))
    && (r.handoff != NoHandoff ==> r.status == Succeeded && r.target != NONE && r.attempt >= 1)
    && (r.handoff == NoHandoff ==> r.attempt == 0)
    && Distinct(r.path)
    && (forall h :: h in r.path ==> h in ever)
    && (if r.path == [] then r.target == NONE else r.path[|r.path| - 1] == r.hook)
    && (r.parent == 0 ==> |r.path| <= 1)
  }

  /** What a row says about its parent: the parent exists and succeeded, the chain path
      is the parent's with the own hook added, and unless the row is the one its parent
      currently names it is dead, and did not start after that one. */
  ghost predicate LinkOk(t: Table, id: ExecId)
    requires id in t.rows
  {
    var r := t.rows[id];
    r.parent != 0 ==>
      && r.parent < id
      && r.parent in t.rows
      && var p := t.rows[r.parent];
      && p.handoff != NoHandoff
      && r.path == p.path + [r.hook]
      && (Dead(r.status) || (p.handoff == Dispatched && p.child == id))
      && (p.handoff == Dispatched && p.child in t.rows ==> r.startedAt <= t.rows[p.child].startedAt)
  }

  /** A dispatched row's successor exists, names it as its parent, started no earlier and was
      born in the row's current generation. */
  ghost predicate ReferenceOk(t: Table, id: ExecId)
    requires id in t.rows
  {
    var r := t.rows[id];
    r.handoff == Dispatched ==>
      && r.child in t.rows
      && t.rows[r.child].parent == id
      && r.startedAt <= t.rows[r.child].startedAt
      && r.child in t.births && t.births[r.child].attempt == r.attempt
  }

  /** Ids and history agree with the rows. */
  ghost predicate HistoryOk(t: Table) {
    && t.nextId > 0
    && (forall id :: id in t.rows ==> id in t.births && t.births[id].parent == t.rows[id].parent)
    && (forall id :: id in t.births ==>
          && 0 < id < t.nextId
          && 0 <= t.births[id].parent < id
          && 0 < t.births[id].root <= id)
  }

  /** Each generation of a parent bore at most one successor, and the current
      generation bore one only if the handoff is dispatched, namely the one referred to. */
  ghost predicate GenerationsOk(t: Table) {
    && (forall c, d :: c in t.births && d in t.births
          && t.births[c].parent == t.births[d].parent != 0 && t.births[c].attempt == t.births[d].attempt
          ==> c == d)
    && (forall c {:trigger GenerationOk(t, c)} :: c in t.births && t.births[c].parent in t.rows ==> GenerationOk(t, c))
  }

  ghost predicate GenerationOk(t: Table, c: ExecId)
    requires c in t.births && t.births[c].parent in t.rows
  {
    var p := t.rows[t.births[c].parent];
    && 1 <= t.births[c].attempt <= p.attempt
    && (p.handoff != Dispatched ==> t.births[c].attempt < p.attempt)
    && (p.handoff == Dispatched && t.births[c].attempt == p.attempt ==> c == p.child)
  }

  ghost predicate RowsOk(t: Table, now: int, ever: set<HookId>) {
    forall id {:trigger RowOk(id, t.rows[id], now, ever)} :: id in t.rows ==> RowOk(id, t.rows[id], now, ever)
  }

  ghost predicate LinksOk(t: Table) {
    forall id {:trigger LinkOk(t, id)} :: id in t.rows ==> LinkOk(t, id)
  }

  ghost predicate ReferencesOk(t: Table) {
    forall id {:trigger ReferenceOk(t, id)} :: id in t.rows ==> ReferenceOk(t, id)
  }

  ghost predicate TableOk(t: Table, now: int, ever: set<HookId>) {
    HistoryOk(t) && GenerationsOk(t) && RowsOk(t, now, ever) && LinksOk(t) && ReferencesOk(t)
  }

  lemma LaterIsFine(t: Table, now: int, ever: set<HookId>, now': int, ever': set<HookId>)
    requires TableOk(t, now, ever) && now <= now' && ever <= ever'
    ensures TableOk(t, now', ever')
  {
    forall id | id in t.rows
      ensures RowOk(id, t.rows[id], now', ever')
    {
      assert RowOk(id, t.rows[id], now, ever);
    }
  }

  // ----- new rows without a parent -----

  lemma AddRootKeepsLinks(t: Table, r: Row)
    requires HistoryOk(t) && LinksOk(t) && ReferencesOk(t)
    requires r.parent == 0 && r.handoff == NoHandoff
    ensures LinksOk(AddRoot(t, r)) && ReferencesOk(AddRoot(t, r))
  {
    var t' := AddRoot(t, r);
    forall id | id in t'.rows
      ensures LinkOk(t', id)
    {
      if id != t.nextId {
        assert LinkOk(t, id);
        if t.rows[id].parent != 0 { assert ReferenceOk(t, t.rows[id].parent); }
      }
    }
    forall id | id in t'.rows
      ensures ReferenceOk(t', id)
    {
      if id != t.nextId { assert ReferenceOk(t, id); }
    }
  }

  lemma AddRootKeepsGenerations(t: Table, r: Row)
    requires HistoryOk(t) && GenerationsOk(t)
    ensures GenerationsOk(AddRoot(t, r))
  {
    var t' := AddRoot(t, r);
    forall c | c in t'.births && t'.births[c].parent in t'.rows
      ensures GenerationOk(t', c)
    {
      assert c in t.births ==> t.births[c].parent < t.nextId;
      if c != t.nextId { assert GenerationOk(t, c); }
    }
  }

  lemma AddRootKeepsTable(t: Table, r: Row, now: int, ever: set<HookId>)
    requires TableOk(t, now, ever)
    requires r.parent == 0 && r.handoff == NoHandoff && RowOk(t.nextId, r, now, ever)
    ensures TableOk(AddRoot(t, r), now, ever)
  {
    AddRootKeepsLinks(t, r);
    AddRootKeepsGenerations(t, r);
  }

  // ----- an update of one row -----

  /** The updates a row may undergo: it keeps its place in the chain, never revives,
      takes its handoff back from a successor only when that one is dead and a new
      generation begins, and moves its start only while it is active. */
  ghost predicate MayBecome(t: Table, id: ExecId, r': Row)
    requires id in t.rows
  {
    var r := t.rows[id];
    && r'.parent == r.parent && r'.path == r.path && r'.hook == r.hook && r'.target == r.target
    && r'.attempt >= r.attempt
    && (Dead(r.status) ==> Dead(r'.status))
    && (r.handoff != NoHandoff ==> r'.handoff != NoHandoff)
    && (r'.handoff == Dispatched ==> r.handoff == Dispatched && r'.child == r.child && r'.attempt == r.attempt)
    && (r.handoff == Dispatched && r'.handoff != Dispatched ==>
          r.child in t.rows && Dead(t.rows[r.child].status) && r'.attempt > r.attempt)
    && r.startedAt <= r'.startedAt
    && (r.startedAt < r'.startedAt ==> Active(r.status) && r.handoff == NoHandoff)
  }

  function SetRow(t: Table, id: ExecId, r: Row): Table {
    t.(rows := t.rows[id := r])
  }

  lemma SetRowKeepsReferences(t: Table, id: ExecId, r': Row)
    requires ReferencesOk(t) && id in t.rows && MayBecome(t, id, r')
    ensures ReferencesOk(SetRow(t, id, r'))
  {
    var t' := SetRow(t, id, r');
    forall x | x in t'.rows
      ensures ReferenceOk(t', x)
    {
      assert ReferenceOk(t, x);
    }
  }

  lemma SetRowKeepsLinks(t: Table, id: ExecId, r': Row)
    requires LinksOk(t) && ReferencesOk(t) && id in t.rows && MayBecome(t, id, r')
    ensures LinksOk(SetRow(t, id, r'))
  {
    var t' := SetRow(t, id, r');
    forall x | x in t'.rows
      ensures LinkOk(t', x)
    {
      assert LinkOk(t, x);
    }
  }

  lemma SetRowKeepsGenerations(t: Table, id: ExecId, r': Row)
    requires GenerationsOk(t) && id in t.rows && MayBecome(t, id, r')
    ensures GenerationsOk(SetRow(t, id, r'))
  {
    var t' := SetRow(t, id, r');
    forall c | c in t'.births && t'.births[c].parent in t'.rows
      ensures GenerationOk(t', c)
    {
      assert GenerationOk(t, c);
    }
  }

  lemma SetRowKeepsTable(t: Table, id: ExecId, r': Row, now: int, ever: set<HookId>)
    requires TableOk(t, now, ever) && id in t.rows
    requires MayBecome(t, id, r') && RowOk(id, r', now, ever)
    ensures TableOk(SetRow(t, id, r'), now, ever)
  {
    SetRowKeepsReferences(t, id, r');
    SetRowKeepsLinks(t, id, r');
    SetRowKeepsGenerations(t, id, r');
  }

  // ----- each statement keeps the invariant -----

  lemma InsertRootKeepsTable(t: Table, hook: HookId, target: HookId, status: Status, at: int, now: int, ever: set<HookId>)
    requires TableOk(t, now, ever) && Active(status) && at <= now && hook in ever
    ensures TableOk(InsertRoot(t, hook, target, status, at), now, ever)
  {
    AddRootKeepsTable(t, Row(hook, status, at, None, 0, [hook], target, NoHandoff, 0, 0), now, ever);
  }

  lemma InsertRefusalKeepsTable(t: Table, hook: HookId, at: int, now: int, ever: set<HookId>)
    requires TableOk(t, now, ever) && at <= now
    ensures TableOk(InsertRefusal(t, hook, at), now, ever)
  {
    AddRootKeepsTable(t, Row(hook, Failed, at, Some(at), 0, [], NONE, NoHandoff, 0, 0), now, ever);
  }

  /** Safe only on a row that is still queued: the statement does not check. */
  lemma MarkRunningKeepsTable(t: Table, id: ExecId, at: int, now: int, ever: set<HookId>)
    requires TableOk(t, now, ever)
    requires id in t.rows ==> t.rows[id].status == Queued && t.rows[id].startedAt <= at <= now
    ensures TableOk(MarkRunning(t, id, at), now, ever)
  {
    if id in t.rows {
      assert RowOk(id, t.rows[id], now, ever);
      SetRowKeepsTable(t, id, t.rows[id].(status := Running, startedAt := at), now, ever);
    }
  }

  /** Safe only on a row that has not ended: the statement does not check. */
  lemma LogExecutionEndKeepsTable(t: Table, id: ExecId, status: Status, at: int, now: int, ever: set<HookId>)
    requires TableOk(t, now, ever) && Dead(status)
    requires id in t.rows ==> Active(t.rows[id].status)
    ensures TableOk(LogExecutionEnd(t, id, status, at), now, ever)
  {
    if id in t.rows {
      assert RowOk(id, t.rows[id], now, ever);
      SetRowKeepsTable(t, id, t.rows[id].(status := status, finishedAt := Some(at)), now, ever);
    }
  }

  lemma FinishExecutionKeepsTable(t: Table, id: ExecId, status: Status, at: int, now: int, ever: set<HookId>)
    requires TableOk(t, now, ever) && (Dead(status) || status == Succeeded)
    ensures TableOk(FinishExecution(t, id, status, at), now, ever)
  {
    if id in t.rows && Active(t.rows[id].status) {
      assert RowOk(id, t.rows[id], now, ever);
      SetRowKeepsTable(t, id, FinishExecution(t, id, status, at).rows[id], now, ever);
    }
  }

  lemma RecordHandoffFailureKeepsTable(t: Table, parent: ExecId, now: int, ever: set<HookId>)
    requires TableOk(t, now, ever)
    ensures TableOk(RecordHandoffFailure(t, parent), now, ever)
  {
    if parent in t.rows && t.rows[parent].handoff == Pending {
      assert RowOk(parent, t.rows[parent], now, ever);
      SetRowKeepsTable(t, parent, t.rows[parent].(handoff := HandoffFailed), now, ever);
    }
  }

  lemma ClaimIsAnUpdate(t: Table, parent: ExecId, attempt: int, now: int, ever: set<HookId>)
    requires RowsOk(t, now, ever) && JudgeRetry(t, parent, attempt).Claimed?
    ensures MayBecome(t, parent, ClaimRetry(t, parent, attempt).rows[parent])
    ensures RowOk(parent, ClaimRetry(t, parent, attempt).rows[parent], now, ever)
  {
    var r := t.rows[parent];
    assert RowOk(parent, r, now, ever);
    if r.handoff == Dispatched { assert RowOk(r.child, t.rows[r.child], now, ever); }
  }

  lemma ClaimRetryKeepsTable(t: Table, parent: ExecId, attempt: int, now: int, ever: set<HookId>)
    requires TableOk(t, now, ever) && JudgeRetry(t, parent, attempt).Claimed?
    ensures TableOk(ClaimRetry(t, parent, attempt), now, ever)
  {
    ClaimIsAnUpdate(t, parent, attempt, now, ever);
    SetRowKeepsTable(t, parent, ClaimRetry(t, parent, attempt).rows[parent], now, ever);
  }

  /** The link of an existing row survives a commit: a sibling of the new child is dead
      because the parent's handoff was pending, and every other row keeps its parent. */
  lemma CommitSuccessorKeepsOldLink(t: Table, hooks: Graph, parent: ExecId, now: int, x: ExecId)
    requires PlanDispatch(t, hooks, parent).Launch?
    requires x in t.rows && LinkOk(t, x) && t.rows[x].startedAt <= now
    requires x < t.nextId && t.nextId !in t.rows
    requires t.rows[x].parent in t.rows ==> ReferenceOk(t, t.rows[x].parent)
    ensures LinkOk(CommitSuccessor(t, hooks, parent, now), x)
  {
    var t' := CommitSuccessor(t, hooks, parent, now);
    var r := t.rows[x];
    assert t'.rows[x].status == r.status && t'.rows[x].parent == r.parent && t'.rows[x].startedAt == r.startedAt;
    if r.parent != 0 && r.parent != parent {
      var p := t.rows[r.parent];
      assert t'.rows[r.parent] == p;
      if p.handoff == Dispatched {
        assert p.child in t.rows && t'.rows[p.child].startedAt == t.rows[p.child].startedAt;
      }
    }
  }

  lemma CommitSuccessorKeepsLinks(t: Table, hooks: Graph, parent: ExecId, now: int, ever: set<HookId>)
    requires TableOk(t, now, ever) && PlanDispatch(t, hooks, parent).Launch?
    ensures LinksOk(CommitSuccessor(t, hooks, parent, now))
  {
    var t' := CommitSuccessor(t, hooks, parent, now);
    forall x | x in t'.rows
      ensures LinkOk(t', x)
    {
      if x != t.nextId {
        assert RowOk(x, t.rows[x], now, ever);
        CommitSuccessorKeepsOldLink(t, hooks, parent, now, x);
      }
    }
  }

  lemma CommitSuccessorKeepsReferences(t: Table, hooks: Graph, parent: ExecId, now: int, ever: set<HookId>)
    requires TableOk(t, now, ever) && PlanDispatch(t, hooks, parent).Launch?
    ensures ReferencesOk(CommitSuccessor(t, hooks, parent, now))
  {
    var t' := CommitSuccessor(t, hooks, parent, now);
    assert RowOk(parent, t.rows[parent], now, ever);
    forall x | x in t'.rows
      ensures ReferenceOk(t', x)
    {
      if x != t.nextId { assert ReferenceOk(t, x); }
    }
  }

  lemma CommitSuccessorKeepsGenerations(t: Table, hooks: Graph, parent: ExecId, now: int, ever: set<HookId>)
    requires TableOk(t, now, ever) && PlanDispatch(t, hooks, parent).Launch?
    ensures GenerationsOk(CommitSuccessor(t, hooks, parent, now))
  {
    var t' := CommitSuccessor(t, hooks, parent, now);
    assert RowOk(parent, t.rows[parent], now, ever);
    forall c | c in t'.births && t'.births[c].parent in t'.rows
      ensures GenerationOk(t', c)
    {
      if c != t.nextId { assert GenerationOk(t, c); }
    }
    forall c | c in t.births && t.births[c].parent == parent
      ensures t.births[c].attempt < t.rows[parent].attempt
    {
      assert GenerationOk(t, c);
    }
  }

  lemma CommitSuccessorKeepsRows(t: Table, hooks: Graph, parent: ExecId, now: int, ever: set<HookId>)
    requires TableOk(t, now, ever) && PlanDispatch(t, hooks, parent).Launch? && hooks.Keys <= ever
    ensures RowsOk(CommitSuccessor(t, hooks, parent, now), now, ever)
  {
    var t' := CommitSuccessor(t, hooks, parent, now);
    forall x | x in t'.rows
      ensures RowOk(x, t'.rows[x], now, ever)
    {
      assert RowOk(parent, t.rows[parent], now, ever);
      if x != t.nextId { assert RowOk(x, t.rows[x], now, ever); }
    }
  }

  lemma CommitSuccessorKeepsTable(t: Table, hooks: Graph, parent: ExecId, now: int, ever: set<HookId>)
    requires TableOk(t, now, ever) && PlanDispatch(t, hooks, parent).Launch? && hooks.Keys <= ever
    ensures TableOk(CommitSuccessor(t, hooks, parent, now), now, ever)
  {
    CommitSuccessorKeepsLinks(t, hooks, parent, now, ever);
    CommitSuccessorKeepsReferences(t, hooks, parent, now, ever);
    CommitSuccessorKeepsGenerations(t, hooks, parent, now, ever);
    CommitSuccessorKeepsRows(t, hooks, parent, now, ever);
  }

  lemma SweepKeepsRows(t: Table, at: int, now: int, ever: set<HookId>)
    requires RowsOk(t, now, ever)
    ensures RowsOk(Sweep(t, at), now, ever)
  {
    forall x | x in t.rows
      ensures RowOk(x, SweptRow(t.rows[x], at), now, ever)
    {
      assert RowOk(x, t.rows[x], now, ever);
    }
  }

  lemma SweepKeepsLink(t: Table, at: int, x: ExecId)
    requires x in t.rows && LinkOk(t, x)
    ensures LinkOk(Sweep(t, at), x)
  {
    var t' := Sweep(t, at);
    assert t'.rows[x] == SweptRow(t.rows[x], at);
  }

  lemma SweepKeepsReference(t: Table, at: int, x: ExecId)
    requires x in t.rows && ReferenceOk(t, x)
    ensures ReferenceOk(Sweep(t, at), x)
  {
    var t' := Sweep(t, at);
    assert t'.rows[x] == SweptRow(t.rows[x], at);
  }

  lemma SweepKeepsGenerations(t: Table, at: int)
    requires GenerationsOk(t)
    ensures GenerationsOk(Sweep(t, at))
  {
    var t' := Sweep(t, at);
    forall c | c in t'.births && t'.births[c].parent in t'.rows
      ensures GenerationOk(t', c)
    {
      assert GenerationOk(t, c);
    }
  }

  lemma SweepKeepsTable(t: Table, at: int, now: int, ever: set<HookId>)
    requires TableOk(t, now, ever)
    ensures TableOk(Sweep(t, at), now, ever)
  {
    SweepKeepsRows(t, at, now, ever);
    SweepKeepsGenerations(t, at);
    forall x | x in t.rows
      ensures LinkOk(Sweep(t, at), x) && ReferenceOk(Sweep(t, at), x)
    {
      assert LinkOk(t, x) && ReferenceOk(t, x);
      SweepKeepsLink(t, at, x);
      SweepKeepsReference(t, at, x);
    }
  }

  /** A deletion keeps the invariant when whatever it keeps is kept with its parent and
      with the successor it refers to. */
  lemma KeepKeepsTable(t: Table, kept: set<ExecId>, now: int, ever: set<HookId>)
    requires TableOk(t, now, ever)
    requires forall id :: id in t.rows && id in kept ==>
               (t.rows[id].parent != 0 ==> t.rows[id].parent in kept)
               && (t.rows[id].handoff == Dispatched ==> t.rows[id].child in kept)
    ensures TableOk(Keep(t, kept), now, ever)
  {
    var t' := Keep(t, kept);
    forall x | x in t'.rows
      ensures RowOk(x, t'.rows[x], now, ever)
    {
      assert RowOk(x, t.rows[x], now, ever);
    }
    forall x | x in t'.rows
      ensures LinkOk(t', x)
    {
      assert LinkOk(t, x);
    }
    forall x | x in t'.rows
      ensures ReferenceOk(t', x)
    {
      assert ReferenceOk(t, x);
    }
    forall c | c in t'.births && t'.births[c].parent in t'.rows
      ensures GenerationOk(t', c)
    {
      assert GenerationOk(t, c);
    }
  }
}
