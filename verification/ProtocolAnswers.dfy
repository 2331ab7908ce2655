/** The answer of a retry request over whole runs: what 202 and an execution id say. */
module ProtocolAnswers {
  import opened HookGraph
  import opened Executions
  import opened Protocol
  import opened ProtocolThreads
  import opened ProtocolTheorems
  import opened ProtocolRetries

  // ----- what an accepted retry names -----

  /** The id answered with 202 is a successor of the retried execution, born in the claimed
      generation or a later one. It is the successor this request has committed exactly if
      it is of the claimed generation, and exactly if that is still the current one. */
  lemma AcceptedRetryNamesASuccessor(s: State, i: nat, child: ExecId)
    requires Reachable(s) && i < |s.threads| && s.threads[i].Answering?
    requires ReplyToRetry(s.table, s.threads[i].retried) == Started(child)
    ensures var pc := s.threads[i];
            && child in s.table.rows && s.table.rows[child].parent == pc.retried
            && child in s.table.births && s.table.births[child].parent == pc.retried
            && s.table.births[child].attempt >= pc.claimed + 1
            && (child == pc.own <==> s.table.births[child].attempt == pc.claimed + 1)
            && (child == pc.own <==> s.table.rows[pc.retried].attempt == pc.claimed + 1)
  {
    ReachableIsOk(s);
    ReachableRetriesOk(s);
    assert PcOk(s.threads[i], s.table);
    assert ReferenceOk(s.table, s.threads[i].retried);
  }

  // ----- attempts move by claims only -----

  ghost predicate AttemptStays(t: Table, t': Table, id: ExecId) {
    id in t.rows && id in t'.rows && !Active(t.rows[id].status) ==> t'.rows[id].attempt == t.rows[id].attempt
  }

  lemma TriggerKeepsAttempt(s: State, i: nat, t: TriggerStep, id: ExecId)
    requires i < |s.threads| && CanTrigger(s, s.threads[i], t) && s.table.nextId !in s.table.rows
    ensures AttemptStays(s.table, DoTrigger(s, i, t).table, id)
  {
  }

  lemma WorkKeepsAttempt(s: State, i: nat, w: WorkStep, id: ExecId)
    requires i < |s.threads| && CanWork(s, s.threads[i], w)
    ensures AttemptStays(s.table, DoWork(s, i, w).table, id)
  {
  }

  lemma DispatchKeepsAttempt(s: State, i: nat, d: DispatchStep, id: ExecId)
    requires i < |s.threads| && CanDispatch(s, s.threads[i], d) && s.table.nextId !in s.table.rows
    ensures AttemptStays(s.table, DoDispatch(s, i, d).table, id)
  {
  }

  lemma StepKeepsAttempt(s: State, e: Event, id: ExecId)
    requires Ok(s) && Enabled(s, e) && !(e.Claim? && e.parent == id)
    ensures AttemptStays(s.table, Apply(s, e).table, id)
  {
    assert s.table.nextId !in s.table.rows;
    match e
    case Trigger(i, t) => TriggerKeepsAttempt(s, i, t, id);
    case Work(i, w) => WorkKeepsAttempt(s, i, w, id);
    case Dispatch(i, d) => DispatchKeepsAttempt(s, i, d, id);
    case _ =>
  }

  predicate ClaimsOf(events: seq<Event>, id: ExecId) {
    exists k :: 0 <= k < |events| && events[k].Claim? && events[k].parent == id
  }

  lemma {:induction false} RunKeepsAttempt(s: State, events: seq<Event>, s': State, id: ExecId)
    requires Ok(s) && Reaches(s, events, s') && !ClaimsOf(events, id)
    requires id in s.table.rows && id in s'.table.rows && !Active(s.table.rows[id].status)
    ensures s'.table.rows[id].attempt == s.table.rows[id].attempt
    decreases |events|
  {
    if events != [] {
      var s1 := Apply(s, events[0]);
      StepKeepsOk(s, events[0]);
      StepAges(s, events[0]);
      StepKeepsAttempt(s, events[0], id);
      assert !(events[0].Claim? && events[0].parent == id);
      RunAges(s1, events[1..], s');
      forall k | 0 <= k < |events[1..]| ensures !(events[1..][k].Claim? && events[1..][k].parent == id) {
        assert events[1..][k] == events[k + 1];
      }
      assert id in s1.table.rows;
      RunKeepsAttempt(s1, events[1..], s', id);
    }
  }

  /** A granted claim leaves the attempt above the claimed one for good. */
  lemma ClaimRaisesAttempt(s: State, events: seq<Event>, s': State, k: nat)
    requires Ok(s) && Reaches(s, events, s') && k < |events| && events[k].Claim?
    requires events[k].parent in s'.table.rows
    ensures s'.table.rows[events[k].parent].attempt > events[k].attempt
  {
    assert events == events[..k] + events[k..];
    var mid := Midway(s, events[..k], events[k..], s');
    RunKeepsOk(s, events[..k], mid);
    AfterTheClaim(mid, events[k..], s');
  }

  lemma AfterTheClaim(s: State, events: seq<Event>, s': State)
    requires Ok(s) && Reaches(s, events, s') && events != [] && events[0].Claim?
    requires events[0].parent in s'.table.rows
    ensures s'.table.rows[events[0].parent].attempt > events[0].attempt
  {
    StepKeepsOk(s, events[0]);
    ClaimRaisesFloor(s, events[0]);
    RunAges(Apply(s, events[0]), events[1..], s');
    StaysAbove(Apply(s, events[0]).table, s'.table, events[0].parent, events[0].attempt + 1);
  }

  lemma StaysAbove(t: Table, t': Table, parent: ExecId, floor: int)
    requires RowsAge(t, t', true) && Above(t, parent, floor) && parent in t'.rows
    ensures t'.rows[parent].attempt >= floor
  {
    assert RowAges(t.rows[parent], t'.rows[parent]);
  }

  // ----- the main theorem -----

  /** A request whose claim of generation `attempt` was granted, and that is answered with
      202 and an id, has committed that execution itself if and only if no later claim of
      the same execution was granted in between. */
  lemma RetryIsOwnIffNoLaterClaim(s: State, events: seq<Event>, s': State, parent: ExecId, attempt: int, i: nat, child: ExecId)
    requires Reachable(s) && Enabled(s, Claim(parent, attempt))
    requires Reaches(Apply(s, Claim(parent, attempt)), events, s')
    requires i < |s'.threads| && s'.threads[i].Answering?
    requires s'.threads[i].retried == parent && s'.threads[i].claimed == attempt
    requires ReplyToRetry(s'.table, parent) == Started(child)
    ensures child in s'.table.births && s'.table.births[child].parent == parent
    ensures s'.table.births[child].attempt >= attempt + 1
    ensures child == s'.threads[i].own <==> !ClaimsOf(events, parent)
  {
    ReachableIsOk(s);
    RunsOn(s, Claim(parent, attempt), events, s');
    AcceptedRetryNamesASuccessor(s', i, child);
    AttemptTellsLaterClaims(s, parent, attempt, events, s');
  }

  /** The attempt is still the claim's own exactly if no later claim was granted. */
  lemma AttemptTellsLaterClaims(s: State, parent: ExecId, attempt: int, events: seq<Event>, s': State)
    requires Ok(s) && Enabled(s, Claim(parent, attempt)) && Reaches(Apply(s, Claim(parent, attempt)), events, s')
    requires parent in s'.table.rows
    ensures s'.table.rows[parent].attempt == attempt + 1 <==> !ClaimsOf(events, parent)
  {
    var s1 := Apply(s, Claim(parent, attempt));
    StepKeepsOk(s, Claim(parent, attempt));
    if ClaimsOf(events, parent) {
      var k :| 0 <= k < |events| && events[k].Claim? && events[k].parent == parent;
      LaterClaimIsHigher(s, parent, attempt, events, s', k);
      ClaimRaisesAttempt(s1, events, s', k);
    } else {
      ClaimedRow(s, parent, attempt);
      RunKeepsAttempt(s1, events, s', parent);
    }
  }

  lemma ClaimedRow(s: State, parent: ExecId, attempt: int)
    requires Enabled(s, Claim(parent, attempt))
    ensures var t := Apply(s, Claim(parent, attempt)).table;
            parent in t.rows && t.rows[parent].attempt == attempt + 1 && t.rows[parent].status == Succeeded
  {
  }

  lemma LaterClaimIsHigher(s: State, parent: ExecId, attempt: int, events: seq<Event>, s': State, k: nat)
    requires Ok(s) && Enabled(s, Claim(parent, attempt)) && Reaches(Apply(s, Claim(parent, attempt)), events, s')
    requires k < |events| && events[k].Claim? && events[k].parent == parent
    ensures events[k].attempt >= attempt + 1
  {
    var all := [Claim(parent, attempt)] + events;
    assert all[1..] == events && all[k + 1] == events[k];
    FirstClaimIsLowest(s, all, s', k + 1);
  }

  /** A state that is reached from a reachable one is reachable. */
  lemma RunsOn(s: State, e: Event, events: seq<Event>, s': State)
    requires Reachable(s) && Enabled(s, e) && Reaches(Apply(s, e), events, s')
    ensures Reachable(s')
  {
    var s0, before :| Init(s0) && Reaches(s0, before, s);
    assert ([e] + events)[1..] == events;
    RunsJoin(s0, before, s, [e] + events, s');
  }

  lemma {:induction false} RunsJoin(s: State, a: seq<Event>, m: State, b: seq<Event>, t: State)
    requires Reaches(s, a, m) && Reaches(m, b, t)
    ensures Reaches(s, a + b, t)
    decreases |a|
  {
    if a == [] {
      assert a + b == b;
    } else {
      assert (a + b)[1..] == a[1..] + b;
      RunsJoin(Apply(s, a[0]), a[1..], m, b, t);
    }
  }

  // ----- an answer presupposes a claim -----

  ghost predicate HasRequest(s: State, parent: ExecId, attempt: int) {
    exists i :: 0 <= i < |s.threads| && SameRequest(AfterOf(s.threads[i]), AnswerRetry(parent, attempt, 0))
  }

  lemma StepBringsRequest(s: State, e: Event, parent: ExecId, attempt: int)
    requires Enabled(s, e) && HasRequest(Apply(s, e), parent, attempt) && e != Claim(parent, attempt)
    ensures HasRequest(s, parent, attempt)
  {
    var s' := Apply(s, e);
    var i :| 0 <= i < |s'.threads| && SameRequest(AfterOf(s'.threads[i]), AnswerRetry(parent, attempt, 0));
    match e
    case Trigger(j, t) => TriggerBringsNoRequest(s, j, t);
    case Launching(j, l) => LaunchBringsNoRequest(s, j, l);
    case Work(j, w) => WorkBringsNoRequest(s, j, w);
    case Dispatch(j, d) => DispatchBringsNoRequest(s, j, d);
    case _ =>
    assert i < |s.threads| && SameRequest(AfterOf(s.threads[i]), AnswerRetry(parent, attempt, 0));
  }

  /** The moved thread keeps its request or has none; a thread that is new has none. */
  ghost predicate NoNewRequest(ts: seq<Pc>, ts': seq<Pc>) {
    && |ts| <= |ts'|
    && forall i :: 0 <= i < |ts'| && IsRequest(ts'[i]) ==> i < |ts| && SameRequest(AfterOf(ts[i]), AfterOf(ts'[i]))
  }

  lemma TriggerBringsNoRequest(s: State, i: nat, t: TriggerStep)
    requires i < |s.threads| && CanTrigger(s, s.threads[i], t)
    ensures NoNewRequest(s.threads, DoTrigger(s, i, t).threads)
  {
  }

  lemma LaunchBringsNoRequest(s: State, i: nat, l: LaunchStep)
    requires i < |s.threads| && CanLaunch(s.threads[i], l)
    ensures NoNewRequest(s.threads, DoLaunch(s, i, l).threads)
  {
  }

  lemma WorkBringsNoRequest(s: State, i: nat, w: WorkStep)
    requires i < |s.threads| && CanWork(s, s.threads[i], w)
    ensures NoNewRequest(s.threads, DoWork(s, i, w).threads)
  {
  }

  lemma DispatchBringsNoRequest(s: State, i: nat, d: DispatchStep)
    requires i < |s.threads| && CanDispatch(s, s.threads[i], d)
    ensures NoNewRequest(s.threads, DoDispatch(s, i, d).threads)
  {
  }

  /** Whoever answers for a generation has been granted its claim in this run. */
  lemma {:induction false} AnswerFollowsClaim(s: State, events: seq<Event>, s': State, parent: ExecId, attempt: int)
    requires Reaches(s, events, s') && HasRequest(s', parent, attempt) && !HasRequest(s, parent, attempt)
    ensures exists k :: 0 <= k < |events| && events[k] == Claim(parent, attempt)
    decreases |events|
  {
    if events != [] {
      var rest := events[1..];
      if events[0] != Claim(parent, attempt) {
        if HasRequest(Apply(s, events[0]), parent, attempt) { StepBringsRequest(s, events[0], parent, attempt); }
        AnswerFollowsClaim(Apply(s, events[0]), rest, s', parent, attempt);
        var k :| 0 <= k < |rest| && rest[k] == Claim(parent, attempt);
        assert events[k + 1] == rest[k];
      }
    }
  }

  // ----- an answer that names another request's successor -----

  const A: HookId := "a"
  const B: HookId := "b"

  /** A state between these events: two hooks, an idle runner with room for one. */
  function Scene(rows: map<ExecId, Row>, nextId: ExecId, births: map<ExecId, Birth>, threads: seq<Pc>): State {
    State(0, map[B := NONE, A := B], {A, B}, Table(rows, nextId, births), None,
          Runner(1, 1, map[], 0, 0), Cancels({}, {}, {}), threads)
  }

  function Parent(handoff: Handoff, attempt: int): Row {
    Row(A, Succeeded, 0, Some(0), 0, [A], B, handoff, 0, attempt)
  }

  function Opening(): State {
    State(0, map[], {}, Table(map[], 1, map[]), None, Runner(1, 1, map[], 0, 0), Cancels({}, {}, {}), [])
  }

  function Refused(): State {
    Scene(map[1 := Parent(HandoffFailed, 1)], 2, map[1 := Birth(0, 0, 1)], [Gone])
  }

  lemma OneMore(s: State, e: Event, rest: seq<Event>, t: State)
    requires Enabled(s, e) && Reaches(Apply(s, e), rest, t)
    ensures Reaches(s, [e] + rest, t)
  {
    assert ([e] + rest)[1..] == rest;
  }

  /** A chain whose first handoff was refused. */
  lemma ToRefusal() returns (events: seq<Event>)
    ensures Init(Opening()) && Reaches(Opening(), events, Refused())
  {
    EmptyGraphIsWellFormed();
    var s2 := Scene(map[], 1, map[], []);
    events := Refusal();
    events := Success(events);
    assert Apply(s2, Load(A)) == Scene(map[], 1, map[], [Loaded(A, B)]);
    OneMore(s2, Load(A), events, Refused());
    events := TwoHooks([Load(A)] + events);
  }

  lemma TwoHooks(rest: seq<Event>) returns (events: seq<Event>)
    requires Reaches(Scene(map[], 1, map[], []), rest, Refused())
    ensures Reaches(Opening(), events, Refused())
  {
    var s0, s2 := Opening(), Scene(map[], 1, map[], []);
    var s1 := s0.(hooks := map[B := NONE], ever := {B});
    assert Walk(s1.hooks, {A} + {B}, NONE).Accepted? && Walk(s1.hooks, {A}, B).Accepted?;
    assert Apply(s1, CreateHook(A, B)) == s2;
    OneMore(s1, CreateHook(A, B), rest, Refused());
    events := [CreateHook(A, B)] + rest;
    assert Apply(s0, CreateHook(B, NONE)) == s1;
    OneMore(s0, CreateHook(B, NONE), events, Refused());
    events := [CreateHook(B, NONE)] + events;
  }

  lemma Refusal() returns (events: seq<Event>)
    ensures Reaches(Scene(map[1 := Parent(Pending, 1)], 2, map[1 := Birth(0, 0, 1)], [Dispatching(1, Leave)]), events, Refused())
  {
    var t := Scene(map[1 := Parent(Pending, 1)], 2, map[1 := Birth(0, 0, 1)], [RecordingFailure(1, Leave)]);
    var s := t.(threads := [Dispatching(1, Leave)]);
    assert Apply(t, Dispatch(0, RecordFailure(true))) == Refused();
    OneMore(t, Dispatch(0, RecordFailure(true)), [], Refused());
    assert Apply(s, Dispatch(0, Fails)) == t;
    OneMore(s, Dispatch(0, Fails), [Dispatch(0, RecordFailure(true))], Refused());
    events := [Dispatch(0, Fails)] + [Dispatch(0, RecordFailure(true))];
  }

  lemma Success(rest: seq<Event>) returns (events: seq<Event>)
    requires Reaches(Scene(map[1 := Parent(Pending, 1)], 2, map[1 := Birth(0, 0, 1)], [Dispatching(1, Leave)]), rest, Refused())
    ensures Reaches(Scene(map[], 1, map[], [Loaded(A, B)]), events, Refused())
  {
    var running := Row(A, Running, 0, None, 0, [A], B, NoHandoff, 0, 0);
    var s3 := Scene(map[], 1, map[], [Loaded(A, B)]);
    var s4 := Scene(map[1 := running], 2, map[1 := Birth(0, 0, 1)], [SyncRun(1)]);
    var s5 := s4.(threads := [SyncStore(1, Succeeded)]);
    var s6 := Scene(map[1 := Parent(Pending, 1)], 2, map[1 := Birth(0, 0, 1)], [Dispatching(1, Leave)]);
    assert Apply(s5, Trigger(0, SyncFinish(true, 0))) == s6;
    OneMore(s5, Trigger(0, SyncFinish(true, 0)), rest, Refused());
    events := [Trigger(0, SyncFinish(true, 0))] + rest;
    assert Apply(s4, Trigger(0, SyncExecute(Succeeded))) == s5;
    OneMore(s4, Trigger(0, SyncExecute(Succeeded)), events, Refused());
    events := [Trigger(0, SyncExecute(Succeeded))] + events;
    assert Apply(s3, Trigger(0, SyncInsert(0))) == s4;
    OneMore(s3, Trigger(0, SyncInsert(0)), events, Refused());
    events := [Trigger(0, SyncInsert(0))] + events;
  }

  /** After two claims, the first refused and the second carried out, the first request
      still has to read its answer. */
  function Overtaken(): State {
    var table := CommitSuccessor(Table(map[1 := Parent(Pending, 3)], 2, map[1 := Birth(0, 0, 1)]), map[B := NONE, A := B], 1, 0);
    Scene(table.rows, table.nextId, table.births, [Gone, Answering(1, 1, 0), Naming(2, B, AnswerRetry(1, 2, 2))])
    .(runner := Runner(1, 1, map[B := Slot(0, 2)], 0, 1))
  }

  lemma ToOvertaken() returns (events: seq<Event>)
    ensures Reaches(Refused().(table := ClaimRetry(Refused().table, 1, 1), threads := [Gone, Dispatching(1, AnswerRetry(1, 1, 0))]),
                    events, Overtaken())
  {
    var s9 := Scene(map[1 := Parent(Pending, 2)], 2, map[1 := Birth(0, 0, 1)], [Gone, Dispatching(1, AnswerRetry(1, 1, 0))]);
    var s10 := s9.(threads := [Gone, RecordingFailure(1, AnswerRetry(1, 1, 0))]);
    events := SecondRequest();
    events := SecondRefusal(events);
    assert Apply(s9, Dispatch(1, Fails)) == s10;
    OneMore(s9, Dispatch(1, Fails), events, Overtaken());
    events := [Dispatch(1, Fails)] + events;
    assert Refused().(table := ClaimRetry(Refused().table, 1, 1), threads := [Gone, Dispatching(1, AnswerRetry(1, 1, 0))]) == s9;
  }

  lemma SecondRefusal(rest: seq<Event>) returns (events: seq<Event>)
    requires Reaches(Scene(map[1 := Parent(HandoffFailed, 2)], 2, map[1 := Birth(0, 0, 1)], [Gone, Answering(1, 1, 0)]), rest, Overtaken())
    ensures Reaches(Scene(map[1 := Parent(Pending, 2)], 2, map[1 := Birth(0, 0, 1)], [Gone, RecordingFailure(1, AnswerRetry(1, 1, 0))]),
                    events, Overtaken())
  {
    var s10 := Scene(map[1 := Parent(Pending, 2)], 2, map[1 := Birth(0, 0, 1)], [Gone, RecordingFailure(1, AnswerRetry(1, 1, 0))]);
    var s11 := Scene(map[1 := Parent(HandoffFailed, 2)], 2, map[1 := Birth(0, 0, 1)], [Gone, Answering(1, 1, 0)]);
    assert Apply(s10, Dispatch(1, RecordFailure(true))) == s11;
    OneMore(s10, Dispatch(1, RecordFailure(true)), rest, Overtaken());
    events := [Dispatch(1, RecordFailure(true))] + rest;
  }

  lemma SecondRequest() returns (events: seq<Event>)
    ensures Reaches(Scene(map[1 := Parent(HandoffFailed, 2)], 2, map[1 := Birth(0, 0, 1)], [Gone, Answering(1, 1, 0)]),
                    events, Overtaken())
  {
    var s11 := Scene(map[1 := Parent(HandoffFailed, 2)], 2, map[1 := Birth(0, 0, 1)], [Gone, Answering(1, 1, 0)]);
    var s12 := Scene(map[1 := Parent(Pending, 3)], 2, map[1 := Birth(0, 0, 1)],
                     [Gone, Answering(1, 1, 0), Dispatching(1, AnswerRetry(1, 2, 0))]);
    var s13 := s12.(threads := [Gone, Answering(1, 1, 0), InTransaction(1, B, 0, AnswerRetry(1, 2, 0))],
                    runner := Runner(1, 1, map[B := Slot(0, 2)], 0, 1), conn := Some(2));
    assert PlanDispatch(s12.table, s12.hooks, 1) == Launch(B);
    assert Apply(s13, Dispatch(2, Commits(0))) == Overtaken();
    OneMore(s13, Dispatch(2, Commits(0)), [], Overtaken());
    events := [Dispatch(2, Commits(0))];
    assert |s12.runner.inFlight| == 0;
    assert Apply(s12, Dispatch(2, Admits)) == s13;
    OneMore(s12, Dispatch(2, Admits), events, Overtaken());
    events := [Dispatch(2, Admits)] + events;
    assert Apply(s11, Claim(1, 2)) == s12;
    OneMore(s11, Claim(1, 2), events, Overtaken());
    events := [Claim(1, 2)] + events;
  }

  /** A request is answered with 202 and an execution it has not started: its dispatch was
      refused, another request claimed the next generation and carried it out, and only
      then the row was read for the first one's answer. */
  lemma AnswerCanNameAnothersSuccessor()
    ensures Reachable(Refused()) && Enabled(Refused(), Claim(1, 1))
    ensures exists events :: Reaches(Apply(Refused(), Claim(1, 1)), events, Overtaken())
    ensures Overtaken().threads[1] == Answering(1, 1, 0) && Enabled(Overtaken(), Dispatch(1, Answer(true)))
    ensures ReplyToRetry(Overtaken().table, 1) == Started(2)
    ensures Overtaken().table.births[2] == Birth(1, 3, 1) && Overtaken().threads[1].own == 0
  {
    var before := ToRefusal();
    var s := Refused();
    var after := ToOvertaken();
    assert Apply(s, Claim(1, 1)) == s.(table := ClaimRetry(s.table, 1, 1), threads := [Gone, Dispatching(1, AnswerRetry(1, 1, 0))]);
  }
}
