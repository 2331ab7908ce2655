/** What becomes of a chain while nobody edits the hooks. */
module ProtocolChains {
  import opened HookGraph
  import opened Executions
  import opened Protocol
  import opened ProtocolThreads
  import opened ProtocolTheorems

  /** The path follows the graph up to the row's hook, whose target the row remembers. */
  ghost predicate Follows(r: Row, g: Graph) {
    IsWalk(g, r.path) && r.hook in g && r.target == g[r.hook]
  }

  /** The execution that began the chain of `id`. */
  function RootOf(t: Table, id: ExecId): ExecId {
    if id in t.births then t.births[id].root else 0
  }

  /** The row that began a chain remembers the target its hook has in `g`. */
  ghost predicate BeganCurrent(t: Table, root: ExecId, g: Graph) {
    root in t.rows && t.rows[root].hook in g && t.rows[root].target == g[t.rows[root].hook]
  }

  /** A row of a chain that began with a current target at id `n` or later follows `g`. */
  ghost predicate RowFollows(t: Table, g: Graph, n: ExecId, id: ExecId)
    requires id in t.rows
  {
    RootOf(t, id) >= n && t.rows[id].path != [] && BeganCurrent(t, RootOf(t, id), g) ==> Follows(t.rows[id], g)
  }

  /** The chains are recorded right: a row without a parent is its own root, any other has
      its parent's. */
  ghost predicate RootOk(t: Table, n: ExecId, id: ExecId)
    requires id in t.rows
  {
    RootOf(t, id) >= n ==> RootOf(t, id) == if t.rows[id].parent == 0 then id else RootOf(t, t.rows[id].parent)
  }

  /** Every chain begun at id `n` or later with a target that is still current follows the
      graph `g`, which is still in force. */
  ghost predicate Unedited(s: State, g: Graph, n: ExecId) {
    && s.hooks == g && n <= s.table.nextId
    && forall id {:trigger RowFollows(s.table, g, n, id)} :: id in s.table.rows ==>
         RowFollows(s.table, g, n, id) && RootOk(s.table, n, id)
  }

  predicate EditsHooks(e: Event) {
    e.CreateHook? || e.UpdateHook? || e.DeleteHook?
  }

  /** Rows that are still there have kept what their chain is known by. */
  ghost predicate ChainsStay(t: Table, t': Table) {
    && (forall c :: c in t.births ==> c in t'.births && t'.births[c] == t.births[c])
    && (forall id :: id in t'.rows && id in t.rows ==> RowAges(t.rows[id], t'.rows[id]))
  }

  lemma OldRowFollows(t: Table, t': Table, g: Graph, n: ExecId, id: ExecId)
    requires ChainsStay(t, t') && HistoryOk(t)
    requires id in t.rows && id in t'.rows && RowFollows(t, g, n, id) && RootOk(t, n, id)
    requires RootOf(t, id) in t'.rows ==> RootOf(t, id) in t.rows
    ensures RowFollows(t', g, n, id)
    ensures t.rows[id].parent == 0 || t.rows[id].parent in t.births ==> RootOk(t', n, id)
  {
    assert RowAges(t.rows[id], t'.rows[id]);
    if RootOf(t, id) in t'.rows { assert RowAges(t.rows[RootOf(t, id)], t'.rows[RootOf(t, id)]); }
  }

  /** New rows are roots, or successors committed on a row that follows the graph. */
  lemma StepKeepsFollowing(s: State, s': State, g: Graph, n: ExecId)
    requires BaseOk(s) && Unedited(s, g, n) && s'.hooks == g
    requires RowsAge(s.table, s'.table, true) || RowsAge(s.table, s'.table, false)
    requires ChainsStay(s.table, s'.table)
    requires forall id {:trigger RowFollows(s'.table, g, n, id)} :: id in s'.table.rows && id >= s.table.nextId ==>
               RowFollows(s'.table, g, n, id) && RootOk(s'.table, n, id)
    ensures Unedited(s', g, n)
  {
    forall id | id in s'.table.rows
      ensures RowFollows(s'.table, g, n, id) && RootOk(s'.table, n, id)
    {
      if id < s.table.nextId {
        assert id in s.table.rows && RowFollows(s.table, g, n, id) && LinkOk(s.table, id);
        OldRowFollows(s.table, s'.table, g, n, id);
      } else {
        assert RowFollows(s'.table, g, n, id);
      }
    }
  }

  lemma RootRowFollows(t: Table, r: Row, g: Graph, n: ExecId)
    requires r.parent == 0 && |r.path| <= 1
    ensures RowFollows(AddRoot(t, r), g, n, t.nextId) && RootOk(AddRoot(t, r), n, t.nextId)
  {
  }

  lemma TriggerChains(s: State, i: nat, t: TriggerStep)
    requires i < |s.threads| && CanTrigger(s, s.threads[i], t) && HistoryOk(s.table)
    requires RowsAge(s.table, DoTrigger(s, i, t).table, false)
    ensures ChainsStay(s.table, DoTrigger(s, i, t).table)
    ensures forall id :: id in DoTrigger(s, i, t).table.rows && id >= s.table.nextId ==>
              (t.SyncInsert? || t.AsyncInsert?) && id == s.table.nextId
  {
  }

  lemma TriggerKeepsUnedited(s: State, i: nat, t: TriggerStep, g: Graph, n: ExecId)
    requires BaseOk(s) && Unedited(s, g, n) && i < |s.threads| && CanTrigger(s, s.threads[i], t)
    requires RowsAge(s.table, DoTrigger(s, i, t).table, false)
    ensures Unedited(DoTrigger(s, i, t), g, n)
  {
    TriggerChains(s, i, t);
    if t.SyncInsert? || t.AsyncInsert? {
      var pc := s.threads[i];
      RootRowFollows(s.table, Row(pc.hook, if t.SyncInsert? then Running else Queued, t.at, None, 0, [pc.hook], pc.target, NoHandoff, 0, 0), g, n);
    }
    StepKeepsFollowing(s, DoTrigger(s, i, t), g, n);
  }

  lemma WorkChains(s: State, i: nat, w: WorkStep)
    requires i < |s.threads| && CanWork(s, s.threads[i], w) && HistoryOk(s.table)
    requires RowsAge(s.table, DoWork(s, i, w).table, false)
    ensures ChainsStay(s.table, DoWork(s, i, w).table)
    ensures DoWork(s, i, w).table.rows.Keys == s.table.rows.Keys
    ensures DoWork(s, i, w).hooks == s.hooks
  {
  }

  lemma ChildFollows(p: Row, c: Row, g: Graph)
    requires Follows(p, g) && p.path != [] && p.path[|p.path| - 1] == p.hook
    requires p.target != NONE && p.target in g
    requires c.hook == p.target && c.path == p.path + [p.target] && c.target == g[p.target]
    ensures Follows(c, g)
  {
    forall i, j | 0 <= i && j == i + 1 && j < |c.path|
      ensures Edge(g, c.path[i], c.path[j])
    {
      if j < |p.path| { assert Edge(g, p.path[i], p.path[j]); }
    }
  }

  /** The row a commit adds follows the graph if its parent's does. */
  lemma CommitFollows(t: Table, g: Graph, parent: ExecId, at: int, now: int, ever: set<HookId>, n: ExecId)
    requires TableOk(t, now, ever) && PlanDispatch(t, g, parent).Launch? && RowFollows(t, g, n, parent)
    ensures var t' := CommitSuccessor(t, g, parent, at);
            && t.nextId in t'.rows && RowFollows(t', g, n, t.nextId) && RootOk(t', n, t.nextId)
            && ChainsStay(t, t') && (forall id :: id in t'.rows && id >= t.nextId ==> id == t.nextId)
  {
    var p, t' := t.rows[parent], CommitSuccessor(t, g, parent, at);
    assert RowOk(parent, p, now, ever);
    var root := RootOf(t, parent);
    assert RootOf(t', t.nextId) == root;
    if root >= n && BeganCurrent(t', root, g) {
      assert root <= parent;
      assert BeganCurrent(t, root, g);
      ChildFollows(p, t'.rows[t.nextId], g);
    }
  }

  lemma DispatchKeepsUnedited(s: State, i: nat, d: DispatchStep, g: Graph, n: ExecId)
    requires BaseOk(s) && Unedited(s, g, n) && i < |s.threads| && CanDispatch(s, s.threads[i], d)
    requires RowsAge(s.table, DoDispatch(s, i, d).table, false)
    ensures Unedited(DoDispatch(s, i, d), g, n)
  {
    if d.Commits? {
      var parent := s.threads[i].parent;
      assert RowFollows(s.table, g, n, parent);
      CommitFollows(s.table, g, parent, d.at, s.now, s.ever, n);
    } else {
      QuietDispatchChains(s, i, d);
    }
    StepKeepsFollowing(s, DoDispatch(s, i, d), g, n);
  }

  lemma QuietDispatchChains(s: State, i: nat, d: DispatchStep)
    requires i < |s.threads| && CanDispatch(s, s.threads[i], d) && !d.Commits? && HistoryOk(s.table)
    requires RowsAge(s.table, DoDispatch(s, i, d).table, false)
    ensures ChainsStay(s.table, DoDispatch(s, i, d).table)
    ensures DoDispatch(s, i, d).table.rows.Keys == s.table.rows.Keys
    ensures DoDispatch(s, i, d).hooks == s.hooks
  {
  }

  lemma OtherKeepsUnedited(s: State, e: Event, g: Graph, n: ExecId)
    requires BaseOk(s) && Unedited(s, g, n) && Enabled(s, e) && !EditsHooks(e)
    requires !e.Trigger? && !e.Work? && !e.Dispatch?
    requires RowsAge(s.table, Apply(s, e).table, e.CleanUp?)
    ensures Unedited(Apply(s, e), g, n)
  {
    if e.RefuseTrigger? {
      RootRowFollows(s.table, Row(e.hook, Failed, e.at, Some(e.at), 0, [], NONE, NoHandoff, 0, 0), g, n);
    }
    StepKeepsFollowing(s, Apply(s, e), g, n);
  }

  lemma StepKeepsUnedited(s: State, e: Event, g: Graph, n: ExecId)
    requires Ok(s) && Unedited(s, g, n) && Enabled(s, e) && !EditsHooks(e)
    ensures Unedited(Apply(s, e), g, n)
  {
    StepAges(s, e);
    match e
    case Trigger(i, t) => TriggerKeepsUnedited(s, i, t, g, n);
    case Work(i, w) =>
      WorkChains(s, i, w);
      StepKeepsFollowing(s, DoWork(s, i, w), g, n);
    case Dispatch(i, d) => DispatchKeepsUnedited(s, i, d, g, n);
    case _ => OtherKeepsUnedited(s, e, g, n);
  }

  lemma {:induction false} RunKeepsUnedited(s: State, events: seq<Event>, s': State, g: Graph, n: ExecId)
    requires Ok(s) && Unedited(s, g, n) && Reaches(s, events, s')
    requires forall k :: 0 <= k < |events| ==> !EditsHooks(events[k])
    ensures Unedited(s', g, n)
    decreases |events|
  {
    if events != [] {
      StepKeepsUnedited(s, events[0], g, n);
      StepKeepsOk(s, events[0]);
      RunKeepsUnedited(Apply(s, events[0]), events[1..], s', g, n);
    }
  }

  /** Before the first new id there is no chain to speak of. */
  lemma NoNewChainYet(s: State)
    requires Ok(s)
    ensures Unedited(s, s.hooks, s.table.nextId)
  {
    forall id | id in s.table.rows
      ensures RowFollows(s.table, s.hooks, s.table.nextId, id) && RootOk(s.table, s.table.nextId, id)
    {
      assert RootOf(s.table, id) <= id < s.table.nextId;
    }
  }

  /** The root of a row's chain is there as long as the row is. */
  lemma {:induction false} RootIsThere(t: Table, n: ExecId, id: ExecId, now: int, ever: set<HookId>)
    requires TableOk(t, now, ever) && id in t.rows && RootOf(t, id) >= n
    requires forall x {:trigger RootOk(t, n, x)} :: x in t.rows ==> RootOk(t, n, x)
    ensures RootOf(t, id) in t.rows
    decreases id
  {
    assert RootOk(t, n, id) && LinkOk(t, id);
    if t.rows[id].parent != 0 {
      RootIsThere(t, n, t.rows[id].parent, now, ever);
    }
  }

  /** While the hooks stay as they are, a chain triggered meanwhile is refused neither for a
      loop nor for a missing hook, provided only that its own trigger remembers a target
      that is the current one; other triggers may remember what they like. */
  lemma UneditedChainIsNeverRefused(s: State, events: seq<Event>, s': State, parent: ExecId)
    requires Reachable(s) && Reaches(s, events, s')
    requires forall k :: 0 <= k < |events| ==> !EditsHooks(events[k])
    requires parent in s'.table.rows && RootOf(s'.table, parent) >= s.table.nextId
    ensures RootOf(s'.table, parent) in s'.table.rows
    ensures BeganCurrent(s'.table, RootOf(s'.table, parent), s'.hooks) ==> !PlanDispatch(s'.table, s'.hooks, parent).Refuse?
  {
    ReachableIsOk(s);
    RunKeepsOk(s, events, s');
    var g, n := s.hooks, s.table.nextId;
    NoNewChainYet(s);
    RunKeepsUnedited(s, events, s', g, n);
    RootsAreThere(s', g, n, parent);
    if s'.table.rows[parent].handoff == Pending && BeganCurrent(s'.table, RootOf(s'.table, parent), g) {
      FollowingRowIsNotRefused(s', g, n, parent);
    }
  }

  lemma RootsAreThere(s: State, g: Graph, n: ExecId, id: ExecId)
    requires Ok(s) && Unedited(s, g, n) && id in s.table.rows && RootOf(s.table, id) >= n
    ensures RootOf(s.table, id) in s.table.rows
  {
    forall x | x in s.table.rows
      ensures RootOk(s.table, n, x)
    {
      assert RowFollows(s.table, g, n, x);
    }
    RootIsThere(s.table, n, id, s.now, s.ever);
  }

  lemma FollowingRowIsNotRefused(s: State, g: Graph, n: ExecId, id: ExecId)
    requires Ok(s) && Unedited(s, g, n) && id in s.table.rows && s.table.rows[id].handoff == Pending
    requires RootOf(s.table, id) >= n && BeganCurrent(s.table, RootOf(s.table, id), g)
    ensures !PlanDispatch(s.table, s.hooks, id).Refuse?
  {
    var r := s.table.rows[id];
    assert RowOk(id, r, s.now, s.ever) && RowFollows(s.table, g, n, id);
    assert r.path != [];
    assert Follows(r, g);
    SuccessorIsNotOnWalk(g, r.path, r.target);
  }
}
