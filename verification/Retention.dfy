/** Cleanup of old executions: the recursive set of rows that must stay, and what
    deleting the rest does to the table and to the logs. Nothing here assumes the table
    invariant unless it says so, so the closure also covers malformed parent data. */
module Retention {
  import opened HookGraph
  import opened Executions

  /** The anchor of the recursive query. */
  predicate IsAnchor(r: Row, cutoff: int) {
    r.finishedAt.None? || r.startedAt >= cutoff || r.handoff == Pending
  }

  function Anchors(rows: map<ExecId, Row>, cutoff: int): set<ExecId> {
    set id | id in rows && IsAnchor(rows[id], cutoff)
  }

  /** One round of the recursive part: the parents of the rows found so far. */
  function ParentsOf(rows: map<ExecId, Row>, found: set<ExecId>): set<ExecId> {
    set id | id in rows && id in found && rows[id].parent != 0 :: rows[id].parent
  }

  /** All ids the query can ever produce; it is what makes the recursion end. */
  function Universe(rows: map<ExecId, Row>): set<ExecId> {
    rows.Keys + set id | id in rows :: rows[id].parent
  }

  /** UNION discards what is already there, so the recursion stops at a fixed point,
      on cyclic parent links too. */
  function Close(rows: map<ExecId, Row>, found: set<ExecId>): set<ExecId>
    requires found <= Universe(rows)
    decreases Universe(rows) - found
  {
    var parents := ParentsOf(rows, found);
    if parents <= found then found else Close(rows, found + parents)
  }

  function Retained(rows: map<ExecId, Row>, cutoff: int): set<ExecId> {
    Close(rows, Anchors(rows, cutoff))
  }

  // ----- what the closure means -----

  ghost predicate IsLink(rows: map<ExecId, Row>, child: ExecId, parent: ExecId) {
    child in rows && rows[child].parent == parent && parent != 0
  }

  /** `c` leads from an anchor upwards along parent links to its last element. */
  ghost predicate IsAscent(rows: map<ExecId, Row>, cutoff: int, c: seq<ExecId>) {
    && |c| > 0
    && c[0] in rows && IsAnchor(rows[c[0]], cutoff)
    && forall i, j :: 0 <= i && j == i + 1 && j < |c| ==> IsLink(rows, c[i], c[j])
  }

  /** Some row that is unfinished, recent or pending is `id` itself or descends from it. */
  ghost predicate Needed(rows: map<ExecId, Row>, cutoff: int, id: ExecId) {
    exists c :: IsAscent(rows, cutoff, c) && c[|c| - 1] == id
  }

  lemma {:induction false} CloseIsSound(rows: map<ExecId, Row>, cutoff: int, found: set<ExecId>, id: ExecId)
    requires found <= Universe(rows)
    requires forall x :: x in found ==> Needed(rows, cutoff, x)
    requires id in Close(rows, found)
    ensures Needed(rows, cutoff, id)
    decreases Universe(rows) - found
  {
    var parents := ParentsOf(rows, found);
    if !(parents <= found) {
      forall x | x in found + parents
        ensures Needed(rows, cutoff, x)
      {
        if x !in found {
          var child :| child in rows && child in found && rows[child].parent != 0 && rows[child].parent == x;
          var c :| IsAscent(rows, cutoff, c) && c[|c| - 1] == child;
          assert IsAscent(rows, cutoff, c + [x]);
        }
      }
      CloseIsSound(rows, cutoff, found + parents, id);
    }
  }

  lemma {:induction false} CloseIsClosed(rows: map<ExecId, Row>, found: set<ExecId>)
    requires found <= Universe(rows)
    ensures found <= Close(rows, found)
    ensures forall id :: id in rows && id in Close(rows, found) && rows[id].parent != 0 ==> rows[id].parent in Close(rows, found)
    decreases Universe(rows) - found
  {
    var parents := ParentsOf(rows, found);
    if parents <= found {
      forall id | id in rows && id in found && rows[id].parent != 0
        ensures rows[id].parent in found
      {
        assert rows[id].parent in parents;
      }
    } else {
      CloseIsClosed(rows, found + parents);
    }
  }

  lemma {:induction false} AscentStaysInside(rows: map<ExecId, Row>, cutoff: int, c: seq<ExecId>, i: nat)
    requires IsAscent(rows, cutoff, c) && i < |c|
    ensures c[i] in Retained(rows, cutoff)
  {
    CloseIsClosed(rows, Anchors(rows, cutoff));
    if i > 0 {
      AscentStaysInside(rows, cutoff, c, i - 1);
      assert IsLink(rows, c[i - 1], c[i]);
    }
  }

  /** The recursive query finds exactly the ids that are needed. */
  lemma RetainedIsExactlyNeeded(rows: map<ExecId, Row>, cutoff: int, id: ExecId)
    ensures id in Retained(rows, cutoff) <==> Needed(rows, cutoff, id)
  {
    if id in Retained(rows, cutoff) {
      forall x | x in Anchors(rows, cutoff)
        ensures Needed(rows, cutoff, x)
      {
        assert IsAscent(rows, cutoff, [x]);
      }
      CloseIsSound(rows, cutoff, Anchors(rows, cutoff), id);
    }
    if Needed(rows, cutoff, id) {
      var c :| IsAscent(rows, cutoff, c) && c[|c| - 1] == id;
      AscentStaysInside(rows, cutoff, c, |c| - 1);
    }
  }

  lemma ClosedUnderParents(rows: map<ExecId, Row>, kept: set<ExecId>)
    requires ParentsOf(rows, kept) <= kept
    ensures forall id :: id in rows && id in kept && rows[id].parent != 0 ==> rows[id].parent in kept
  {
    forall id | id in rows && id in kept && rows[id].parent != 0
      ensures rows[id].parent in kept
    {
      assert rows[id].parent in ParentsOf(rows, kept);
    }
  }

  /** Every set that holds the anchors and is closed under parents holds what is retained. */
  lemma RetainedIsLeast(rows: map<ExecId, Row>, cutoff: int, kept: set<ExecId>)
    requires Anchors(rows, cutoff) <= kept
    requires forall id :: id in rows && id in kept && rows[id].parent != 0 ==> rows[id].parent in kept
    ensures Retained(rows, cutoff) <= kept
  {
    forall id | id in Retained(rows, cutoff)
      ensures id in kept
    {
      RetainedIsExactlyNeeded(rows, cutoff, id);
      var c :| IsAscent(rows, cutoff, c) && c[|c| - 1] == id;
      AscentStaysIn(rows, cutoff, kept, c, |c| - 1);
    }
  }

  lemma {:induction false} AscentStaysIn(rows: map<ExecId, Row>, cutoff: int, kept: set<ExecId>, c: seq<ExecId>, i: nat)
    requires Anchors(rows, cutoff) <= kept
    requires forall id :: id in rows && id in kept && rows[id].parent != 0 ==> rows[id].parent in kept
    requires IsAscent(rows, cutoff, c) && i < |c|
    ensures c[i] in kept
  {
    if i > 0 {
      AscentStaysIn(rows, cutoff, kept, c, i - 1);
      assert IsLink(rows, c[i - 1], c[i]);
    }
  }

  /** A retained id is an anchor or the parent of a retained row. */
  lemma RetainedHasReason(rows: map<ExecId, Row>, cutoff: int, id: ExecId)
    requires id in Retained(rows, cutoff)
    ensures (id in rows && IsAnchor(rows[id], cutoff))
            || exists c :: c in rows && c in Retained(rows, cutoff) && rows[c].parent == id
  {
    RetainedIsExactlyNeeded(rows, cutoff, id);
    var c :| IsAscent(rows, cutoff, c) && c[|c| - 1] == id;
    if |c| > 1 {
      AscentStaysInside(rows, cutoff, c, |c| - 2);
      var x := c[|c| - 2];
      assert IsLink(rows, x, c[|c| - 1]);
    }
  }

  /** Need in the fields of the rows: an unfinished, recent or pending row is needed, and any
      other only for the sake of a needed row whose parent it is. */
  lemma NeedIsByFields(rows: map<ExecId, Row>, cutoff: int, id: ExecId)
    requires id in rows
    ensures rows[id].finishedAt.None? || rows[id].startedAt >= cutoff || rows[id].handoff == Pending ==> Needed(rows, cutoff, id)
    ensures Needed(rows, cutoff, id) ==>
              || rows[id].finishedAt.None? || rows[id].startedAt >= cutoff || rows[id].handoff == Pending
              || exists c :: c in rows && Needed(rows, cutoff, c) && rows[c].parent == id
  {
    CloseIsClosed(rows, Anchors(rows, cutoff));
    RetainedIsExactlyNeeded(rows, cutoff, id);
    if Needed(rows, cutoff, id) {
      RetainedHasReason(rows, cutoff, id);
      if !IsAnchor(rows[id], cutoff) {
        var c :| c in rows && c in Retained(rows, cutoff) && rows[c].parent == id;
        RetainedIsExactlyNeeded(rows, cutoff, c);
      }
    }
  }

  lemma KeptByFields(rows: map<ExecId, Row>, cutoff: int, kept: map<ExecId, Row>)
    requires forall id :: id in kept <==> id in rows && Needed(rows, cutoff, id)
    requires forall id :: id in kept ==> kept[id] == rows[id]
    ensures forall id :: id in rows ==>
              (rows[id].finishedAt.None? || rows[id].startedAt >= cutoff || rows[id].handoff == Pending ==> id in kept)
    ensures forall id :: id in kept ==>
              || kept[id].finishedAt.None? || kept[id].startedAt >= cutoff || kept[id].handoff == Pending
              || exists c :: c in kept && kept[c].parent == id
  {
    forall id | id in rows
      ensures rows[id].finishedAt.None? || rows[id].startedAt >= cutoff || rows[id].handoff == Pending ==> id in kept
    {
      NeedIsByFields(rows, cutoff, id);
    }
    forall id | id in kept && kept[id].finishedAt.Some? && kept[id].startedAt < cutoff && kept[id].handoff != Pending
      ensures exists c :: c in kept && kept[c].parent == id
    {
      NeedIsByFields(rows, cutoff, id);
      var c :| c in rows && Needed(rows, cutoff, c) && rows[c].parent == id;
      assert c in kept;
    }
  }

  // ----- the deletion -----

  /** Rows and log chunks; a chunk is known by its id and belongs to an execution. */
  datatype Store = Store(rows: map<ExecId, Row>, logs: map<int, ExecId>)

  /** Both DELETEs of the transaction, in their order. */
  function Cleanup(s: Store, cutoff: int): Store {
    var kept := Retained(s.rows, cutoff);
    Store(
      map id | id in s.rows && id in kept :: s.rows[id],
      map l | l in s.logs && !(s.logs[l] in s.rows && s.logs[l] !in kept) :: s.logs[l])
  }

  /** A row goes exactly when neither it nor any descendant is unfinished, recent or
      pending; a chunk goes exactly with its row; what stays is unchanged. */
  lemma CleanupIsExact(s: Store, cutoff: int)
    ensures forall id :: id in s.rows ==> (id !in Cleanup(s, cutoff).rows <==> !Needed(s.rows, cutoff, id))
    ensures forall l :: l in s.logs ==>
              (l !in Cleanup(s, cutoff).logs <==> s.logs[l] in s.rows && s.logs[l] !in Cleanup(s, cutoff).rows)
    ensures forall id :: id in Cleanup(s, cutoff).rows ==> id in s.rows && Cleanup(s, cutoff).rows[id] == s.rows[id]
    ensures forall l :: l in Cleanup(s, cutoff).logs ==> l in s.logs && Cleanup(s, cutoff).logs[l] == s.logs[l]
  {
    forall id | id in s.rows
      ensures id in Retained(s.rows, cutoff) <==> Needed(s.rows, cutoff, id)
    {
      RetainedIsExactlyNeeded(s.rows, cutoff, id);
    }
  }

  /** A surviving row keeps its parent, if the parent was there. */
  lemma CleanupKeepsAncestors(s: Store, cutoff: int, id: ExecId)
    requires id in Cleanup(s, cutoff).rows
    requires s.rows[id].parent != 0 && s.rows[id].parent in s.rows
    ensures s.rows[id].parent in Cleanup(s, cutoff).rows
  {
    CloseIsClosed(s.rows, Anchors(s.rows, cutoff));
  }

  /** A later cutoff needs no more than an earlier one, and an earlier cleanup leaves
      all that a later one needs. */
  lemma NeededAfterCleanup(s: Store, c1: int, c2: int, id: ExecId)
    requires c1 <= c2
    ensures Needed(Cleanup(s, c1).rows, c2, id) <==> Needed(s.rows, c2, id)
  {
    var rows1 := Cleanup(s, c1).rows;
    if Needed(s.rows, c2, id) {
      var c :| IsAscent(s.rows, c2, c) && c[|c| - 1] == id;
      assert IsAscent(s.rows, c1, c);
      forall i | 0 <= i < |c|
        ensures c[i] in Retained(s.rows, c1)
      {
        AscentStaysInside(s.rows, c1, c, i);
      }
      forall i, j | 0 <= i && j == i + 1 && j < |c|
        ensures IsLink(rows1, c[i], c[j])
      {
        assert IsLink(s.rows, c[i], c[j]);
      }
      assert IsAscent(rows1, c2, c);
    }
    if Needed(rows1, c2, id) {
      var c :| IsAscent(rows1, c2, c) && c[|c| - 1] == id;
      forall i, j | 0 <= i && j == i + 1 && j < |c|
        ensures IsLink(s.rows, c[i], c[j])
      {
        assert IsLink(rows1, c[i], c[j]);
      }
      assert IsAscent(s.rows, c2, c);
    }
  }

  /** Cleaning up to an earlier cutoff first makes no difference. */
  lemma CleanupAbsorbsEarlier(s: Store, c1: int, c2: int)
    requires c1 <= c2
    ensures Cleanup(Cleanup(s, c1), c2) == Cleanup(s, c2)
  {
    var s1 := Cleanup(s, c1);
    var twice := Cleanup(s1, c2);
    var once := Cleanup(s, c2);
    forall id
      ensures id in Retained(s1.rows, c2) <==> id in Retained(s.rows, c2)
      ensures id in Retained(s.rows, c2) ==> id in Retained(s.rows, c1)
    {
      NeededAfterCleanup(s, c1, c2, id);
      RetainedIsExactlyNeeded(s1.rows, c2, id);
      RetainedIsExactlyNeeded(s.rows, c2, id);
      RetainedIsExactlyNeeded(s.rows, c1, id);
      if Needed(s.rows, c2, id) {
        var c :| IsAscent(s.rows, c2, c) && c[|c| - 1] == id;
        assert IsAscent(s.rows, c1, c);
      }
    }
    assert twice.rows == once.rows;
    assert twice.logs == once.logs;
  }

  lemma CleanupIsIdempotent(s: Store, cutoff: int)
    ensures Cleanup(Cleanup(s, cutoff), cutoff) == Cleanup(s, cutoff)
  {
    CleanupAbsorbsEarlier(s, cutoff, cutoff);
  }

  // ----- on a table that keeps its invariant -----

  /** Whatever keeps a dispatched parent also keeps the successor it refers to: a
      retained sibling is dead, so it has no descendants and must itself be recent, and
      the successor started no earlier than any sibling. */
  lemma RetainedParentKeepsSuccessor(t: Table, now: int, ever: set<HookId>, cutoff: int, id: ExecId)
    requires TableOk(t, now, ever)
    requires id in t.rows && id in Retained(t.rows, cutoff) && t.rows[id].handoff == Dispatched
    ensures t.rows[id].child in t.rows && t.rows[id].child in Retained(t.rows, cutoff)
  {
    var p := t.rows[id];
    CloseIsClosed(t.rows, Anchors(t.rows, cutoff));
    assert RowOk(id, p, now, ever) && ReferenceOk(t, id);
    RetainedHasReason(t.rows, cutoff, id);
    if IsAnchor(p, cutoff) {
      assert p.child in Anchors(t.rows, cutoff);
    } else {
      var c :| c in t.rows && c in Retained(t.rows, cutoff) && t.rows[c].parent == id;
      if c != p.child {
        DeadRowIsAnchor(t, now, ever, cutoff, c);
        assert LinkOk(t, c);
        assert p.child in Anchors(t.rows, cutoff);
      }
    }
  }

  lemma DeadRowIsAnchor(t: Table, now: int, ever: set<HookId>, cutoff: int, c: ExecId)
    requires TableOk(t, now, ever)
    requires c in t.rows && c in Retained(t.rows, cutoff) && t.rows[c].parent != 0
    requires t.rows[c].parent in t.rows && t.rows[t.rows[c].parent].child != c
    ensures t.rows[c].startedAt >= cutoff
  {
    assert LinkOk(t, c) && RowOk(c, t.rows[c], now, ever);
    forall d | d in t.rows
      ensures t.rows[d].parent != c
    {
      assert LinkOk(t, d);
    }
    RetainedHasReason(t.rows, cutoff, c);
  }

  /** Cleanup as a step of the executions table. */
  function CleanTable(t: Table, cutoff: int): Table {
    Keep(t, Retained(t.rows, cutoff))
  }

  lemma CleanTableKeepsTable(t: Table, cutoff: int, now: int, ever: set<HookId>)
    requires TableOk(t, now, ever)
    ensures TableOk(CleanTable(t, cutoff), now, ever)
  {
    var kept := Retained(t.rows, cutoff);
    CloseIsClosed(t.rows, Anchors(t.rows, cutoff));
    forall id | id in t.rows && id in kept && t.rows[id].handoff == Dispatched
      ensures t.rows[id].child in kept
    {
      RetainedParentKeepsSuccessor(t, now, ever, cutoff, id);
    }
    KeepKeepsTable(t, kept, now, ever);
  }

  /** Cleanup never touches a row that is unfinished or whose handoff is pending. */
  lemma CleanTableSparesAnchors(t: Table, cutoff: int, id: ExecId)
    requires id in t.rows && IsAnchor(t.rows[id], cutoff)
    ensures id in CleanTable(t, cutoff).rows
  {
    CloseIsClosed(t.rows, Anchors(t.rows, cutoff));
  }
}
