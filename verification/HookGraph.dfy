/** The success graph: the `success_hook_id` column of the hooks table seen as a
    functional graph. A hook points at most at one other hook; the empty id means
    "nothing follows". */
module HookGraph {

  type HookId = string

  /** hook id -> success_hook_id, for every row of the hooks table */
  type Graph = map<HookId, HookId>

  const NONE: HookId := ""

  ghost predicate Edge(g: Graph, a: HookId, b: HookId) {
    a in g && g[a] == b && b != NONE
  }

  /** Every element of `p` but the first is the configured successor of the one before it. */
  ghost predicate IsWalk(g: Graph, p: seq<HookId>) {
    forall i, j :: 0 <= i && j == i + 1 && j < |p| ==> Edge(g, p[i], p[j])
  }

  ghost predicate IsCycle(g: Graph, c: seq<HookId>) {
    |c| > 0 && IsWalk(g, c) && Edge(g, c[|c| - 1], c[0])
  }

  ghost predicate Acyclic(g: Graph) {
    forall c: seq<HookId> :: !IsCycle(g, c)
  }

  /** Every target that is set names an existing hook. */
  ghost predicate Closed(g: Graph) {
    forall h :: h in g && g[h] != NONE ==> g[h] in g
  }

  ghost predicate WellFormed(g: Graph) {
    NONE !in g && Closed(g) && Acyclic(g)
  }

  ghost predicate Distinct(p: seq<HookId>) {
    forall i, j :: 0 <= i < j < |p| ==> p[i] != p[j]
  }

  /** No hook ends a walk it already occurs on: this is why an unedited graph never
      makes a dispatch refuse to continue. */
  lemma SuccessorIsNotOnWalk(g: Graph, p: seq<HookId>, next: HookId)
    requires Acyclic(g) && IsWalk(g, p)
    requires |p| > 0 && p[|p| - 1] in g && g[p[|p| - 1]] == next && next != NONE
    ensures next !in p
  {
    if next in p {
      var k :| 0 <= k < |p| && p[k] == next;
      var c := p[k..];
      assert c[0] == next && c[|c| - 1] == p[|p| - 1];
      assert IsCycle(g, c);
    }
  }

  // ----- validateSuccessTarget -----

  datatype Verdict = Accepted | LoopAt(id: HookId) | MissingAt(id: HookId)

  /** What the validation walk answers when it stands at `cur` having seen `seen`. */
  function Walk(g: Graph, seen: set<HookId>, cur: HookId): Verdict
    decreases g.Keys - seen
  {
    if cur == NONE then Accepted
    else if cur in seen then LoopAt(cur)
    else if cur !in g then MissingAt(cur)
    else Walk(g, seen + {cur}, g[cur])
  }

  function Validate(g: Graph, id: HookId, next: HookId): Verdict {
    Walk(g, {id}, next)
  }

  /** The walk itself, as the code writes it. It needs nothing of the graph, so it
      terminates on a malformed one too; on a well-formed graph it accepts exactly
      the edits that keep the graph well formed. */
  method ValidateSuccessTarget(g: Graph, id: HookId, next: HookId) returns (verdict: Verdict)
    ensures verdict == Validate(g, id, next)
    ensures verdict.MissingAt? ==> verdict.id !in g && verdict.id != NONE
    ensures verdict.LoopAt? ==> verdict.id != NONE && (verdict.id == id || verdict.id in g)
    ensures WellFormed(g) && id != NONE ==> (verdict.Accepted? <==> WellFormed(g[id := next]))
  {
    ghost var expected := Validate(g, id, next);
    if WellFormed(g) && id != NONE {
      AcceptsExactlyWellFormedEdits(g, id, next);
    }
    var seen := {id};
    var cur := next;
    while cur != NONE
      invariant Walk(g, seen, cur) == expected
      invariant forall h :: h in seen ==> h == id || h in g
      decreases g.Keys - seen
    {
      if cur in seen {
        return LoopAt(cur);
      }
      seen := seen + {cur};
      if cur !in g {
        return MissingAt(cur);
      }
      cur := g[cur];
    }
    return Accepted;
  }

  /** On a well-formed graph the verdict is exactly whether the edited graph is well
      formed, for a new hook and for an existing one alike. */
  lemma AcceptsExactlyWellFormedEdits(g: Graph, id: HookId, next: HookId)
    requires WellFormed(g) && id != NONE
    ensures Validate(g, id, next).Accepted? <==> WellFormed(g[id := next])
  {
    assert Elements([id]) == {id};
    FollowTrail(g, id, next, [id], next);
  }

  ghost function Elements(p: seq<HookId>): set<HookId> {
    set h | h in p
  }

  /** The walk stands at `cur`, the configured successor of the last hook of `trail`
      in the edited graph. */
  lemma {:induction false} FollowTrail(g: Graph, id: HookId, next: HookId, trail: seq<HookId>, cur: HookId)
    requires WellFormed(g) && id != NONE
    requires |trail| > 0 && trail[0] == id && Distinct(trail)
    requires IsWalk(g[id := next], trail)
    requires trail[|trail| - 1] in g[id := next] && g[id := next][trail[|trail| - 1]] == cur
    ensures Walk(g, Elements(trail), cur).Accepted? <==> WellFormed(g[id := next])
    decreases g.Keys - Elements(trail)
  {
    var edited := g[id := next];
    var seen := Elements(trail);
    if cur == NONE {
      TerminatingTrail(g, id, next, trail);
    } else if cur in seen {
      if Acyclic(edited) {
        SuccessorIsNotOnWalk(edited, trail, cur);
      }
    } else if cur !in g {
      assert cur !in edited;
    } else {
      var longer := trail + [cur];
      assert Elements(longer) == seen + {cur};
      assert forall i :: 0 <= i < |trail| ==> longer[i] == trail[i];
      assert IsWalk(edited, longer);
      FollowTrail(g, id, next, longer, g[cur]);
    }
  }

  /** A distinct walk from the edited hook that ends with no successor rules out any cycle. */
  lemma TerminatingTrail(g: Graph, id: HookId, next: HookId, trail: seq<HookId>)
    requires WellFormed(g) && id != NONE
    requires |trail| > 0 && trail[0] == id && Distinct(trail)
    requires IsWalk(g[id := next], trail)
    requires trail[|trail| - 1] in g[id := next] && g[id := next][trail[|trail| - 1]] == NONE
    ensures WellFormed(g[id := next])
  {
    var edited := g[id := next];
    if next != NONE {
      assert |trail| > 1 && trail[1] == next;
      if |trail| > 2 {
        assert Edge(edited, trail[1], trail[2]);
      }
    }
    forall c: seq<HookId>
      ensures !IsCycle(edited, c)
    {
      if IsCycle(edited, c) {
        if id in c {
          var k :| 0 <= k < |c| && c[k] == id;
          var r := c[k..] + c[..k];
          RotateCycle(edited, c, k);
          EndingWalkIsOffCycle(edited, trail, r);
        } else {
          assert IsCycle(g, c);
        }
      }
    }
  }

  lemma RotateCycle(g: Graph, c: seq<HookId>, k: nat)
    requires IsCycle(g, c) && k < |c|
    ensures IsCycle(g, c[k..] + c[..k])
  {
    var r := c[k..] + c[..k];
    forall i, j | 0 <= i && j == i + 1 && j < |r|
      ensures Edge(g, r[i], r[j])
    {
      if j < |c| - k {
        assert Edge(g, c[k + i], c[k + j]);
      } else if j == |c| - k {
        assert r[i] == c[|c| - 1] && r[j] == c[0];
      } else {
        assert Edge(g, c[i - (|c| - k)], c[j - (|c| - k)]);
      }
    }
    if k > 0 {
      assert Edge(g, c[k - 1], c[k]);
    } else {
      assert r == c;
    }
  }

  /** The graph is functional, so walks from the same hook agree as long as both last. */
  lemma {:induction false} WalksAgree(g: Graph, p: seq<HookId>, q: seq<HookId>, i: nat)
    requires IsWalk(g, p) && IsWalk(g, q)
    requires i < |p| && i < |q| && p[0] == q[0]
    ensures p[i] == q[i]
  {
    if i > 0 {
      WalksAgree(g, p, q, i - 1);
      assert Edge(g, p[i - 1], p[i]) && Edge(g, q[i - 1], q[i]);
    }
  }

  /** No cycle passes through the head of a walk of distinct hooks that ends without a successor. */
  lemma EndingWalkIsOffCycle(g: Graph, trail: seq<HookId>, c: seq<HookId>)
    requires |trail| > 0 && IsWalk(g, trail) && Distinct(trail)
    requires trail[|trail| - 1] in g && g[trail[|trail| - 1]] == NONE
    requires |c| > 0 && c[0] == trail[0]
    ensures !IsCycle(g, c)
  {
    if IsCycle(g, c) {
      if |c| < |trail| {
        assert Edge(g, trail[|c| - 1], trail[|c|]);
        WalksAgree(g, trail, c, |c| - 1);
      } else {
        if |c| > |trail| {
          assert Edge(g, c[|trail| - 1], c[|trail|]);
        }
        WalksAgree(g, trail, c, |trail| - 1);
      }
    }
  }

  // ----- the hooks table -----

  datatype EditResult = Done | Rejected(verdict: Verdict) | Conflict | NotFound | StoreFailed

  /** The hooks table, reduced to the columns that make up the success graph. Each
      method is one transaction; `fault` stands for any statement of it failing, in
      which case the deferred rollback leaves the table as it was. */
  class HookTable {
    var graph: Graph

    constructor ()
      ensures graph == map[] && WellFormed(graph)
    {
      graph := map[];
      new;
      EmptyGraphIsWellFormed();
    }

    /** An insert of an id that exists violates the primary key and reads as a store failure. */
    method Create(id: HookId, next: HookId, fault: bool) returns (r: EditResult)
      modifies this
      ensures r.Done? <==> !fault && id !in old(graph) && Validate(old(graph), id, next).Accepted?
      ensures WellFormed(old(graph)) && id != NONE ==>
                WellFormed(graph) && (r.Done? <==> !fault && id !in old(graph) && WellFormed(old(graph)[id := next]))
      ensures graph == if r.Done? then old(graph)[id := next] else old(graph)
      ensures r.Rejected? <==> !fault && !Validate(old(graph), id, next).Accepted?
      ensures r.Rejected? || r.StoreFailed? || r.Done?
    {
      if fault { return StoreFailed; }
      var verdict := ValidateSuccessTarget(graph, id, next);
      if !verdict.Accepted? { return Rejected(verdict); }
      if id in graph { return StoreFailed; }
      graph := graph[id := next];
      return Done;
    }

    method Update(id: HookId, next: HookId, fault: bool) returns (r: EditResult)
      modifies this
      ensures r.Done? <==> !fault && id in old(graph) && Validate(old(graph), id, next).Accepted?
      ensures WellFormed(old(graph)) && id != NONE ==>
                WellFormed(graph) && (r.Done? <==> !fault && id in old(graph) && WellFormed(old(graph)[id := next]))
      ensures graph == if r.Done? then old(graph)[id := next] else old(graph)
      ensures r.Rejected? <==> !fault && !Validate(old(graph), id, next).Accepted?
      ensures r.NotFound? <==> !fault && Validate(old(graph), id, next).Accepted? && id !in old(graph)
      ensures r.StoreFailed? <==> fault
    {
      if fault { return StoreFailed; }
      var verdict := ValidateSuccessTarget(graph, id, next);
      if !verdict.Accepted? { return Rejected(verdict); }
      if id !in graph { return NotFound; }
      graph := graph[id := next];
      return Done;
    }

    method Delete(id: HookId, fault: bool) returns (r: EditResult)
      modifies this
      ensures r.Done? <==> !fault && id in old(graph) && forall h :: h in old(graph) ==> old(graph)[h] != id
      ensures WellFormed(old(graph)) && id != NONE ==>
                WellFormed(graph) && (r.Done? <==> !fault && id in old(graph) && WellFormed(old(graph) - {id}))
      ensures graph == if r.Done? then old(graph) - {id} else old(graph)
      ensures r.Conflict? <==> !fault && exists h :: h in old(graph) && old(graph)[h] == id
      ensures r.NotFound? <==> !fault && id !in old(graph) && forall h :: h in old(graph) ==> old(graph)[h] != id
      ensures r.StoreFailed? <==> fault
    {
      if fault { return StoreFailed; }
      if WellFormed(graph) && id != NONE { DeletableIffUnreferenced(graph, id); }
      if exists h :: h in graph.Keys && graph[h] == id { return Conflict; }
      if id !in graph { return NotFound; }
      graph := graph - {id};
      return Done;
    }
  }

  lemma EmptyGraphIsWellFormed()
    ensures WellFormed(map[])
  {
  }

  /** Deleting a hook keeps the graph well formed exactly when no hook points at it. */
  lemma DeletableIffUnreferenced(g: Graph, id: HookId)
    requires WellFormed(g) && id != NONE
    ensures (forall h :: h in g ==> g[h] != id) ==> WellFormed(g - {id})
    ensures id in g && WellFormed(g - {id}) ==> forall h :: h in g ==> g[h] != id
  {
    var rest := g - {id};
    assert forall h :: h in rest <==> h in g && h != id;
    forall c: seq<HookId>
      ensures !IsCycle(rest, c)
    {
      if IsCycle(rest, c) {
        assert IsCycle(g, c);
      }
    }
    if id in g && WellFormed(rest) {
      forall h | h in g
        ensures g[h] != id
      {
        if g[h] == id {
          assert h == id || h in rest;
          assert IsCycle(g, [id]);
        }
      }
    }
  }

  /** Any sequence of accepted edits keeps the graph well formed. */
  datatype Edit = Create(id: HookId, next: HookId) | Update(id: HookId, next: HookId) | Delete(id: HookId)

  ghost function ApplyEdit(g: Graph, e: Edit): Graph {
    match e
    case Create(id, next) =>
      if id != NONE && id !in g && Validate(g, id, next).Accepted? then g[id := next] else g
    case Update(id, next) =>
      if id in g && Validate(g, id, next).Accepted? then g[id := next] else g
    case Delete(id) =>
      if (exists h :: h in g.Keys && g[h] == id) then g else g - {id}
  }

  lemma EditKeepsWellFormed(g: Graph, e: Edit)
    requires WellFormed(g)
    ensures WellFormed(ApplyEdit(g, e))
  {
    match e
    case Create(id, next) =>
      if id != NONE { AcceptsExactlyWellFormedEdits(g, id, next); }
    case Update(id, next) =>
      if id != NONE { AcceptsExactlyWellFormedEdits(g, id, next); }
    case Delete(id) =>
      if id != NONE { DeletableIffUnreferenced(g, id); } else { assert g - {id} == g; }
  }

  ghost function ApplyEdits(g: Graph, edits: seq<Edit>): Graph
    decreases |edits|
  {
    if edits == [] then g else ApplyEdits(ApplyEdit(g, edits[0]), edits[1..])
  }

  lemma {:induction false} EditsKeepWellFormed(g: Graph, edits: seq<Edit>)
    requires WellFormed(g)
    ensures WellFormed(ApplyEdits(g, edits))
    decreases |edits|
  {
    if edits != [] {
      EditKeepsWellFormed(g, edits[0]);
      EditsKeepWellFormed(ApplyEdit(g, edits[0]), edits[1..]);
    }
  }
}
