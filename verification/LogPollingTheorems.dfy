/** What a reader of a rolling log can rely on, over whole runs. */
module LogPollingTheorems {
  import opened Utf8
  import opened OutputCapture
  import opened LogSinks
  import opened LogPolling

  lemma ReachableIsOk(s: State, events: seq<Event>, t: State)
    requires Init(s) && Reaches(s, events, t)
    ensures Ok(t)
  {
    assert Ok(s);
    RunKeepsOk(s, events, t);
  }

  // ----- exactly once -----

  lemma {:induction false} PickedInOrder(log: seq<LogChunk>, fate: seq<bool>)
    requires Increasing(log) && |fate| <= |log|
    ensures Increasing(Pick(log, fate))
    ensures Pick(log, fate) != [] ==> fate != [] && LastSeq(Pick(log, fate), 0) <= SeqAt(log, |fate| - 1)
    decreases |fate|
  {
    if fate != [] {
      var n := |fate| - 1;
      PickedInOrder(log, fate[..n]);
      var init := Pick(log, fate[..n]);
      assert n > 0 ==> SeqAt(log, n - 1) < SeqAt(log, n);
      assert init + [] == init;
      if fate[n] { IncreasingAppended(init, log[n]); }
    }
  }

  lemma {:induction false} PickedExactly(log: seq<LogChunk>, fate: seq<bool>, i: nat)
    requires Increasing(log) && |fate| <= |log| && i < |log|
    ensures log[i] in Pick(log, fate) <==> i < |fate| && fate[i]
    decreases |fate|
  {
    if fate != [] {
      var n := |fate| - 1;
      PickedExactly(log, fate[..n], i);
      assert i < n ==> SeqAt(log, i) < SeqAt(log, n);
      assert i > n ==> SeqAt(log, n) < SeqAt(log, i);
    }
  }

  /** Everything received was stored, is received once and in order; of the chunks behind
      the cursor, exactly those are missing that had been rolled off unread. */
  lemma EveryChunkIsReceivedOrRolledOff(s: State, events: seq<Event>, t: State)
    requires Init(s) && Reaches(s, events, t)
    ensures var c, stored := t.client, t.server.stored;
            && Increasing(c.received) && c.cursor == LastSeq(c.received, 0)
            && (forall x :: x in c.received ==> x in stored)
            && (forall i {:trigger stored[i]} :: 0 <= i < |stored| && stored[i] !in c.received && stored[i].seqNo <= c.cursor ==> i < t.server.base)
            && (forall i {:trigger stored[i]} :: 0 <= i < |stored| && stored[i].seqNo > c.cursor ==> stored[i] !in c.received)
  {
    ReachableIsOk(s, events, t);
    var c, stored := t.client, t.server.stored;
    PickedInOrder(stored, c.fate);
    PickedFrom(stored, c.fate);
    forall i {:trigger stored[i]} | 0 <= i < |stored|
      ensures stored[i] !in c.received && stored[i].seqNo <= c.cursor ==> i < t.server.base
      ensures stored[i].seqNo > c.cursor ==> stored[i] !in c.received
    {
      PickedExactly(stored, c.fate, i);
      PastCursor(stored, |c.fate|, c.cursor, i);
      assert i < |c.fate| ==> MissedIsGone(c.fate, t.server.base, i);
      assert stored[i].seqNo == SeqAt(stored, i);
    }
  }

  lemma {:induction false} PickedFrom(log: seq<LogChunk>, fate: seq<bool>)
    requires |fate| <= |log|
    ensures forall x :: x in Pick(log, fate) ==> x in log
    ensures fate != [] && fate[|fate| - 1] ==> LastSeq(Pick(log, fate), 0) == SeqAt(log, |fate| - 1)
    decreases |fate|
  {
    if fate != [] { PickedFrom(log, fate[..|fate| - 1]); }
  }

  // ----- the gap flag -----

  /** No hole goes unreported unless the view was given an answer without its oldest number;
      and nothing else is reported unless it was given one that was torn. */
  lemma GapFlagMeansHole(s: State, events: seq<Event>, t: State)
    requires Init(s) && Reaches(s, events, t)
    ensures Hole(t.client.fate) && !t.client.blind ==> t.client.gap
    ensures t.client.gap && !t.client.torn && Numbered(t.server.stored) ==> Hole(t.client.fate)
  {
    ReachableIsOk(s, events, t);
  }

  /** Without a hole what was received is one stretch of the log. */
  lemma {:induction false} NoHoleIsOneStretch(log: seq<LogChunk>, fate: seq<bool>) returns (first: nat)
    requires |fate| <= |log| && !Hole(fate)
    requires fate != [] ==> fate[|fate| - 1]
    ensures first <= |fate| && Pick(log, fate) == log[first..|fate|]
    ensures forall i :: 0 <= i < first ==> !fate[i]
  {
    first := 0;
    while first < |fate| && !fate[first]
      invariant 0 <= first <= |fate|
      invariant forall i :: 0 <= i < first ==> !fate[i]
    {
      first := first + 1;
    }
    if first < |fate| {
      forall j | first <= j < |fate| ensures fate[j] {
        assert fate[first];
      }
    }
    PickStretch(log, fate, first);
  }

  lemma PickStretch(log: seq<LogChunk>, fate: seq<bool>, first: nat)
    requires first <= |fate| <= |log| && forall i :: 0 <= i < |fate| ==> (fate[i] <==> i >= first)
    ensures Pick(log, fate) == log[first..|fate|]
  {
    PickExtended(log, [], fate, first);
    assert [] + log[first..|fate|] == log[first..|fate|];
  }

  // ----- one whole poll -----

  /** What a poll leaves behind, if the log is rolled off to `base` between the reads of the
      chunks and of the oldest number. */
  function AfterPoll(s: State, base: nat, moreFails: bool, callbackFails: bool): State {
    var server, c := s.server.(base := base), s.client;
    var found := FirstPage(Unread(Retained(s.server), c.cursor));
    var more := !moreFails && Unread(Retained(server), LastSeq(found, c.cursor)) != [];
    var a := Answer(server.finished, found, OldestSeq(Retained(server)), more,
                    s.server.base, base != s.server.base, false, moreFails);
    State(server, Received(c, a, false, callbackFails))
  }

  lemma OneMore(s: State, e: Event, rest: seq<Event>, t: State)
    requires CanStep(s, e) && Reaches(Step(s, e), rest, t)
    ensures Reaches(s, [e] + rest, t)
  {
    assert ([e] + rest)[1..] == rest;
  }

  /** The state between the two reads that should agree. */
  function BetweenReads(s: State, base: nat): State {
    var found := FirstPage(Unread(Retained(s.server), s.client.cursor));
    State(s.server.(base := base),
          s.client.(phase := SawChunks(Answer(s.server.finished, found, 0, false, s.server.base, base != s.server.base, false, false))))
  }

  lemma PollRuns(s: State, base: nat, moreFails: bool, callbackFails: bool) returns (events: seq<Event>)
    requires s.client.phase.Waiting?
    requires base == s.server.base || CanStep(s, Roll(base))
    ensures events != [] && Reaches(s, events, AfterPoll(s, base, moreFails, callbackFails))
  {
    var end: State;
    events, end := AnswerRuns(BetweenReads(s, base), moreFails, callbackFails);
    assert end == AfterPoll(s, base, moreFails, callbackFails);
    events := RequestRuns(s, base, events, end);
  }

  lemma RequestRuns(s: State, base: nat, rest: seq<Event>, end: State) returns (events: seq<Event>)
    requires s.client.phase.Waiting?
    requires base == s.server.base || CanStep(s, Roll(base))
    requires Reaches(BetweenReads(s, base), rest, end)
    ensures events != [] && Reaches(s, events, end)
  {
    var s1 := Step(s, Ask);
    var s2 := Step(s1, ReadStatus);
    var s3 := Step(s2, ReadChunks);
    events := rest;
    if base != s.server.base {
      OneMore(s3, Roll(base), events, end);
      events := [Roll(base)] + events;
    }
    OneMore(s2, ReadChunks, events, end);
    events := [ReadChunks] + events;
    OneMore(s1, ReadStatus, events, end);
    events := [ReadStatus] + events;
    OneMore(s, Ask, events, end);
    events := [Ask] + events;
  }

  lemma AnswerRuns(s: State, moreFails: bool, callbackFails: bool) returns (events: seq<Event>, end: State)
    requires s.client.phase.SawChunks?
    ensures end == (
      var a := s.client.phase.a;
      var more := !moreFails && Unread(Retained(s.server), NextSeq(a, s.client.cursor)) != [];
      s.(client := Received(s.client, a.(oldestSeq := OldestSeq(Retained(s.server)), oldestFailed := false,
                                         hasMore := more, moreFailed := moreFails), false, callbackFails)))
    ensures Reaches(s, events, end)
  {
    var s5 := Step(s, ReadOldest(false));
    var s6 := Step(s5, ReadMore(moreFails));
    end := Step(s6, Deliver(false, callbackFails));
    events := [];
    OneMore(s6, Deliver(false, callbackFails), events, end);
    events := [Deliver(false, callbackFails)] + events;
    OneMore(s5, ReadMore(moreFails), events, end);
    events := [ReadMore(moreFails)] + events;
    OneMore(s, ReadOldest(false), events, end);
    events := [ReadOldest(false)] + events;
  }

  lemma {:induction false} RunsJoin(s: State, a: seq<Event>, m: State, b: seq<Event>, t: State)
    requires Reaches(s, a, m) && Reaches(m, b, t)
    ensures Reaches(s, a + b, t)
    decreases |a|
  {
    if a == [] {
      assert a + b == b;
    } else {
      assert (a + b)[1..] == a[1..] + b;
      RunsJoin(Step(s, a[0]), a[1..], m, b, t);
    }
  }

  /** A test run's page, read under one lock, is the answer of a poll that nothing tears. */
  lemma PageIsOneAnswer(s: State, status: RunStatus)
    requires ServerOk(s.server) && s.client.phase.Waiting?
    ensures var p := PageOf(Retained(s.server), s.client.cursor, status, s.server.finished);
            AfterPoll(s, s.server.base, false, false)
            == State(s.server, Received(s.client, Answer(p.finished, p.chunks, p.oldestSeq, p.hasMore, s.server.base, false, false, false), false, false))
  {
    var kept := Retained(s.server);
    IncreasingSuffix(s.server.stored, s.server.base);
    var p := PageOf(kept, s.client.cursor, status, s.server.finished);
    HasMoreMeansSomethingPastThePage(kept, s.client.cursor, status, s.server.finished);
    SomethingUnread(kept, p.nextSeq);
    assert s.server.(base := s.server.base) == s.server;
  }

  lemma {:induction false} SomethingUnread(log: seq<LogChunk>, after: int)
    ensures Unread(log, after) != [] <==> exists c :: c in log && c.seqNo > after
    decreases |log|
  {
    if log != [] {
      SomethingUnread(log[1..], after);
      assert log[0] in log;
      assert forall c :: c in log ==> c == log[0] || c in log[1..];
    }
  }

  /** What a write does to a test run's log is to store a chunk and to roll some off. */
  lemma WriteIsStoreAndRoll(s: State, c: LogChunk, bytes: int, count: int) returns (base: nat)
    requires ServerOk(s.server) && !s.server.finished && LastSeq(s.server.stored, 0) < c.seqNo
    requires Retained(s.server) == Keep(s.server.stored, bytes, count)
    ensures CanStep(s, Store(c)) && CanStep(Step(s, Store(c)), Roll(base))
    ensures Retained(Step(Step(s, Store(c)), Roll(base)).server) == Keep(s.server.stored + [c], bytes, count)
  {
    base := NewBase(s.server.stored, s.server.base, c, bytes, count);
    StoreThenRoll(s, c, base);
  }

  lemma StoreThenRoll(s: State, c: LogChunk, base: nat)
    requires !s.server.finished && LastSeq(s.server.stored, 0) < c.seqNo
    requires s.server.base <= base <= |s.server.stored|
    ensures CanStep(s, Store(c)) && CanStep(Step(s, Store(c)), Roll(base))
    ensures Retained(Step(Step(s, Store(c)), Roll(base)).server) == (s.server.stored + [c])[base..]
  {
  }

  lemma NewBase(stored: seq<LogChunk>, before: nat, c: LogChunk, bytes: int, count: int) returns (base: nat)
    requires before <= |stored| && |Keep(stored, bytes, count)| == |stored| - before
    ensures before <= base < |stored + [c]| && (stored + [c])[base..] == Keep(stored + [c], bytes, count)
  {
    KeepOfAppended(stored, c, bytes, count);
    KeepIsEnd(stored + [c], bytes, count);
    base := |stored + [c]| - |Keep(stored + [c], bytes, count)|;
  }

  // ----- where the protocol falls short -----

  /** A view that has received the first `n` chunks of a log, and nothing else. */
  function Following(log: seq<LogChunk>, n: nat): Client
    requires n <= |log|
  {
    Client(LastSeq(log[..n], 0), log[..n], false, 0, Waiting, Copies(true, n), false, false, false)
  }

  /** A log of three. */
  function Three(text: Bytes): seq<LogChunk> {
    [LogChunk(1, Stdout, text), LogChunk(2, Stdout, text), LogChunk(3, Stdout, text)]
  }

  function Torn3(text: Bytes): State {
    State(Server(Three(text), 2, false), Following(Three(text), 3).(gap := true, torn := true))
  }

  lemma FirstRead(text: Bytes)
    ensures var s := State(Server(Three(text)[..1], 0, false), Following([], 0));
            AfterPoll(s, 0, false, false) == State(s.server, Following(Three(text), 1))
  {
    var log := Three(text)[..1];
    assert log[0..] == log == [LogChunk(1, Stdout, text)] && log[1..] == [];
    assert Unread(log[0..], 0) == log && Unread(log[0..], 1) == [];
    assert [] + Copies(false, 0) + Copies(true, 1) == Copies(true, 1);
    assert [] + log == log;
  }

  lemma TornRead(text: Bytes)
    ensures AfterPoll(State(Server(Three(text), 0, false), Following(Three(text), 1)), 2, false, false) == Torn3(text)
  {
    var log := Three(text);
    assert log[0..] == log && log[1..][1..] == log[2..] == [LogChunk(3, Stdout, text)] && log[2..][1..] == [];
    assert Unread(log[1..], 1) == log[1..] by {
      assert Unread(log[2..], 1) == log[2..];
    }
    assert Copies(true, 1) + Copies(false, 0) + Copies(true, 2) == Copies(true, 3);
    assert log[..1] + log[1..] == log[..3] == log;
  }

  /** The reads behind a database answer can be torn apart: then the flag reports a loss
      although every chunk was received. */
  lemma TornAnswerReportsAFalseGap(text: Bytes)
    ensures var s, t := State(Server([], 0, false), Following([], 0)), Torn3(text);
            && Init(s) && (exists events :: Reaches(s, events, t))
            && t.client.gap && !t.client.blind && Numbered(t.server.stored)
            && t.client.received == t.server.stored != [] && !Lost(t.client.fate, t.server.base)
  {
    var log := Three(text);
    assert log[..3] == log;
    var events := TornRun(text);
  }

  lemma TornRun(text: Bytes) returns (events: seq<Event>)
    ensures Reaches(State(Server([], 0, false), Following([], 0)), events, Torn3(text))
  {
    var log, t := Three(text), Torn3(text);
    var s1 := State(Server(log[..1], 0, false), Following([], 0));
    var m1 := State(Server(log[..1], 0, false), Following(log, 1));
    var m2 := State(Server(log[..2], 0, false), Following(log, 1));
    var m3 := State(Server(log, 0, false), Following(log, 1));
    FirstRead(text);
    TornRead(text);
    assert [] + [log[0]] == log[..1] && log[..1] + [log[1]] == log[..2] && log[..2] + [log[2]] == log;
    events := PollRuns(m3, 2, false, false);
    OneMore(m2, Store(log[2]), events, t);
    events := [Store(log[2])] + events;
    OneMore(m1, Store(log[1]), events, t);
    events := [Store(log[1])] + events;
    var first := PollRuns(s1, 0, false, false);
    RunsJoin(s1, first, m1, events, t);
    events := first + events;
    OneMore(State(Server([], 0, false), Following([], 0)), Store(log[0]), events, t);
    events := [Store(log[0])] + events;
  }

  // ----- what a raised flag says -----

  /** A stored chunk past a received one has rolled off unread, where the first `base` chunks
      are gone: a hole, or a chunk ahead of the view that it can no longer get. */
  ghost predicate Lost(fate: seq<bool>, base: nat) {
    exists i, j {:trigger IsLost(fate, base, i, j)} :: 0 <= i < j && IsLost(fate, base, i, j)
  }

  predicate IsLost(fate: seq<bool>, base: nat, i: nat, j: nat) {
    j < base && i < |fate| && fate[i] && (j < |fate| ==> !fate[j])
  }

  predicate Raises(c: Client, a: Answer) { c.cursor > 0 && a.oldestSeq > c.cursor + 1 }

  /** The answer brings the chunk past the cursor. */
  predicate BringsNext(c: Client, a: Answer) { a.chunks != [] && a.chunks[0].seqNo == c.cursor + 1 }

  /** An answer that raises the flag reports the chunk past the cursor as lost. That is false
      if and only if the answer itself brings this chunk, which the view could check; if it
      does not, the chunk is gone and will never be received. */
  lemma RaisedFlagIsFalseIffChunkIsThere(s: State, statusFails: bool, callbackFails: bool)
    requires Ok(s) && s.client.phase.Answered? && Numbered(s.server.stored)
    requires Raises(s.client, s.client.phase.a)
    ensures var c, a, stored, t := s.client, s.client.phase.a, s.server.stored, Step(s, Deliver(statusFails, callbackFails)).client;
            && t.gap && c.cursor < |stored| && stored[c.cursor].seqNo == c.cursor + 1
            && (BringsNext(c, a) ==> stored[c.cursor] in t.received)
            && (!BringsNext(c, a) ==> c.cursor < s.server.base && stored[c.cursor] !in t.received)
            && (!BringsNext(c, a) ==> Lost(t.fate, s.server.base))
  {
    var c, a, stored := s.client, s.client.phase.a, s.server.stored;
    var t := Step(s, Deliver(statusFails, callbackFails)).client;
    DeliveryKeepsClient(s, statusFails, callbackFails);
    assert SeqAt(stored, |c.fate| - 1) == c.cursor == |c.fate|;
    NextIsMissing(s, statusFails, callbackFails);
    PickedExactly(stored, t.fate, c.cursor);
  }

  lemma NextIsMissing(s: State, statusFails: bool, callbackFails: bool)
    requires Ok(s) && s.client.phase.Answered? && Numbered(s.server.stored)
    requires Raises(s.client, s.client.phase.a)
    ensures var c, a, t := s.client, s.client.phase.a, Step(s, Deliver(statusFails, callbackFails)).client;
            && |c.fate| == c.cursor < a.oldestSeq - 1 <= s.server.base < |s.server.stored|
            && (BringsNext(c, a) <==> c.cursor < |t.fate| && t.fate[c.cursor])
            && (BringsNext(c, a) <==> a.chunks != [] && a.lost <= c.cursor)
            && (!BringsNext(c, a) ==> Lost(t.fate, s.server.base))
  {
    var c, a, stored := s.client, s.client.phase.a, s.server.stored;
    var t := Step(s, Deliver(statusFails, callbackFails)).client;
    assert SeqAt(stored, |c.fate| - 1) == c.cursor == |c.fate|;
    assert SeqAt(stored, s.server.base) == s.server.base + 1;
    DeliveryTells(s, statusFails, callbackFails, c.cursor);
    DeliveryTells(s, statusFails, callbackFails, c.cursor - 1);
    if a.chunks != [] { assert a.chunks[0] == stored[Start(c, a)]; }
    assert c.cursor - 1 < |t.fate| && t.fate[c.cursor - 1];
    assert !BringsNext(c, a) ==> IsLost(t.fate, s.server.base, c.cursor - 1, c.cursor);
  }

  /** However the chunks are numbered: the chunk stored next past the cursor is lost exactly
      if the answer does not bring it and it is gone by now. A number that a failed insert
      has left unused raises the flag like a lost chunk. */
  lemma RaisedFlagInAnyNumbering(s: State, statusFails: bool, callbackFails: bool)
    requires Ok(s) && s.client.phase.Answered? && Raises(s.client, s.client.phase.a)
    ensures var n, a, stored := |s.client.fate|, s.client.phase.a, s.server.stored;
            var t := Step(s, Deliver(statusFails, callbackFails)).client;
            && 0 < n <= s.server.base < |stored|
            && (stored[n] in t.received <==> a.chunks != [] && a.chunks[0] == stored[n])
  {
    var c, a, stored := s.client, s.client.phase.a, s.server.stored;
    var t := Step(s, Deliver(statusFails, callbackFails)).client;
    var n := |c.fate|;
    DeliveryKeepsClient(s, statusFails, callbackFails);
    DeliveryTells(s, statusFails, callbackFails, n);
    PickedExactly(stored, t.fate, n);
    if a.chunks != [] {
      assert a.chunks[0] == stored[Start(c, a)];
      assert n < Start(c, a) ==> SeqAt(stored, n) < SeqAt(stored, Start(c, a));
    }
  }

  /** Nothing at all was lost behind a raised flag, as of the read of the oldest number, if
      and only if the answer brings the chunk past the cursor and reaches up to the oldest
      one: a view that had no hole before can tell from the answer. */
  lemma RaisedFlagIsVoidIffAnswerIsWhole(s: State, statusFails: bool, callbackFails: bool)
    requires Ok(s) && s.client.phase.Answered? && Numbered(s.server.stored)
    requires Raises(s.client, s.client.phase.a) && !Hole(s.client.fate)
    ensures var c, a, t := s.client, s.client.phase.a, Step(s, Deliver(statusFails, callbackFails)).client;
            && 0 <= a.oldestSeq - 1 <= s.server.base
            && (!Lost(t.fate, a.oldestSeq - 1) <==> BringsNext(c, a) && NextSeq(a, c.cursor) >= a.oldestSeq - 1)
  {
    var c, a := s.client, s.client.phase.a;
    var t := Step(s, Deliver(statusFails, callbackFails)).client;
    NextIsMissing(s, statusFails, callbackFails);
    CursorIsCount(s, statusFails, callbackFails);
    var known := a.oldestSeq - 1;
    DeliveryTells(s, statusFails, callbackFails, c.cursor - 1);
    if !BringsNext(c, a) {
      assert IsLost(t.fate, known, c.cursor - 1, c.cursor);
    } else if t.cursor < known {
      assert IsLost(t.fate, known, t.cursor - 1, t.cursor);
    } else {
      WholeAnswerLosesNothing(s, statusFails, callbackFails, known);
    }
  }

  lemma CursorIsCount(s: State, statusFails: bool, callbackFails: bool)
    requires Ok(s) && s.client.phase.Answered? && Numbered(s.server.stored) && s.client.fate != []
    ensures var t := Step(s, Deliver(statusFails, callbackFails)).client;
            t.cursor == NextSeq(s.client.phase.a, s.client.cursor) == |t.fate| && t.fate != [] && t.fate[|t.fate| - 1]
  {
    var t := Step(s, Deliver(statusFails, callbackFails)).client;
    DeliveryKeepsClient(s, statusFails, callbackFails);
    DeliveryTells(s, statusFails, callbackFails, 0);
    assert SeqAt(s.server.stored, |t.fate| - 1) == |t.fate|;
  }

  lemma WholeAnswerLosesNothing(s: State, statusFails: bool, callbackFails: bool, known: nat)
    requires s.client.phase.Answered? && !Hole(s.client.fate) && s.client.phase.a.lost <= |s.client.fate|
    requires known <= |Step(s, Deliver(statusFails, callbackFails)).client.fate|
    ensures !Lost(Step(s, Deliver(statusFails, callbackFails)).client.fate, known)
  {
    var t := Step(s, Deliver(statusFails, callbackFails)).client;
    if Lost(t.fate, known) {
      var i, j :| 0 <= i < j && IsLost(t.fate, known, i, j);
      DeliveryTells(s, statusFails, callbackFails, i);
      DeliveryTells(s, statusFails, callbackFails, j);
    }
  }

  // ----- what fails unnoticed -----

  /** A database answer whose last read fails without saying so ends the stream of a
      finished log, complete exactly when what was unread fits one page. */
  lemma SilentFailureStrandsLongBacklogs(s: State)
    requires Ok(s) && s.server.finished && s.client.phase.Waiting?
    ensures var t := AfterPoll(s, s.server.base, true, false);
            && (exists events :: Reaches(s, events, t))
            && t.client.phase.Done? && t.server == s.server
            && (|t.client.fate| == |t.server.stored|
                <==> |s.server.stored| - Max(|s.client.fate|, s.server.base) <= MAX_CHUNKS_PER_RESPONSE)
            && (|t.client.fate| != |t.server.stored| ==>
                  t.server.stored != [] && t.client.cursor < SeqAt(t.server.stored, |t.server.stored| - 1))
  {
    var t := AfterPoll(s, s.server.base, true, false);
    var events := PollRuns(s, s.server.base, true, false);
    RunKeepsOk(s, events, t);
    var stored, base, n := s.server.stored, s.server.base, |s.client.fate|;
    PageFrom(stored, base, n, s.client.cursor);
    if |stored| - Max(n, base) > MAX_CHUNKS_PER_RESPONSE {
      PageIsFull(stored, base, n, s.client.cursor);
    }
    if |t.client.fate| != |stored| {
      assert |t.client.fate| > 0 ==> SeqAt(stored, |t.client.fate| - 1) < SeqAt(stored, |stored| - 1);
      assert SeqAt(stored, 0) <= SeqAt(stored, |stored| - 1);
    }
  }

  lemma PageIsFull(log: seq<LogChunk>, base: nat, n: nat, cursor: int)
    requires Increasing(log) && base <= |log| && n <= |log| && CursorAt(log, n, cursor)
    requires log != [] ==> SeqAt(log, 0) > 0
    requires |log| - Max(n, base) > MAX_CHUNKS_PER_RESPONSE
    ensures |FirstPage(Unread(log[base..], cursor))| == MAX_CHUNKS_PER_RESPONSE
  {
    UnreadFrom(log, base, n, cursor);
  }

  /** A callback that keeps failing keeps the view polling a finished log: every answer
      resets the failure count before the callback raises it to one again. */
  lemma FailingCallbackPollsAgain(s: State) returns (events: seq<Event>)
    requires Ok(s) && s.server.finished && s.client.phase.Waiting? && s.client.failures == 1 && !s.client.unsure
    requires |s.client.fate| == |s.server.stored|
    ensures events != [] && Reaches(s, events, s)
  {
    events := PollRuns(s, s.server.base, false, true);
    var stored, base := s.server.stored, s.server.base;
    UnreadFrom(stored, base, |s.client.fate|, s.client.cursor);
    assert stored[|stored|..] == [];
    assert base < |stored| - 1 ==> SeqAt(stored, base) < SeqAt(stored, |stored| - 1);
    assert base < |stored| ==> OldestSeq(stored[base..]) == SeqAt(stored, base);
    assert s.client.received + [] == s.client.received;
    assert AfterPoll(s, base, false, true) == s;
  }

  // ----- the end of a stream -----

  /** When the view stops by itself, everything that is still retained has been received,
      and a log that never rolled off has been received whole, unless the last read behind
      its last answer failed. */
  lemma DoneMeansComplete(s: State, events: seq<Event>, t: State)
    requires Init(s) && Reaches(s, events, t)
    requires t.client.phase.Done? && !t.client.unsure
    ensures t.server.finished
    ensures forall x :: x in Retained(t.server) ==> x in t.client.received
    ensures t.server.base == 0 ==> t.client.received == t.server.stored
  {
    ReachableIsOk(s, events, t);
    var c, stored, base := t.client, t.server.stored, t.server.base;
    forall x | x in Retained(t.server) ensures x in c.received {
      var i :| base <= i < |stored| && stored[i] == x;
      PickedExactly(stored, c.fate, i);
      assert MissedIsGone(c.fate, base, i);
    }
    if base == 0 {
      forall i | 0 <= i < |c.fate| ensures c.fate[i] {
        assert MissedIsGone(c.fate, base, i);
      }
      PickStretch(stored, c.fate, 0);
      assert stored[0..|stored|] == stored;
    }
  }

  function PhaseRank(p: Phase): nat {
    match p
    case Waiting => 6
    case Asked => 5
    case SawStatus(_) => 4
    case SawChunks(_) => 3
    case SawOldest(_) => 2
    case Answered(_) => 1
    case _ => 0
  }

  /** The status of this request was read before the run finished. */
  predicate Stale(p: Phase) {
    match p
    case SawStatus(finished) => !finished
    case SawChunks(a) => !a.finished
    case SawOldest(a) => !a.finished
    case Answered(a) => !a.finished
    case _ => false
  }

  function Backlog(s: State): nat {
    var behind := Max(|s.client.fate|, s.server.base);
    if behind <= |s.server.stored| then |s.server.stored| - behind else 0
  }

  /** How much polling is left once the run has finished. */
  function Rank(s: State): nat {
    if s.client.phase.Done? || s.client.phase.GivenUp? then 0
    else 24 * (Backlog(s) + if Stale(s.client.phase) then 1 else 0)
         + 7 * (if s.client.failures < 3 then 3 - s.client.failures else 0) + PhaseRank(s.client.phase)
  }

  predicate IsCallbackFailure(e: Event) { e.Deliver? && (e.statusFails || e.callbackFails) }

  function CallbackFailures(events: seq<Event>): nat {
    if events == [] then 0
    else (if IsCallbackFailure(events[0]) then 1 else 0) + CallbackFailures(events[1..])
  }

  lemma StepCosts(s: State, e: Event)
    requires Ok(s) && s.server.finished && CanStep(s, e)
    ensures Step(s, e).server.finished
    ensures Rank(Step(s, e)) < Rank(s) + if IsCallbackFailure(e) then 14 else 0
  {
    if e.Deliver? { DeliveryCosts(s, e.statusFails, e.callbackFails); } else { ReadCosts(s, e); }
  }

  lemma ReadCosts(s: State, e: Event)
    requires s.server.finished && CanStep(s, e) && !e.Deliver?
    requires !s.client.phase.GivenUp? ==> s.client.failures < MAX_CONSECUTIVE_FAILURES
    ensures Rank(Step(s, e)) < Rank(s)
  {
  }

  lemma DeliveryCosts(s: State, statusFails: bool, callbackFails: bool)
    requires Ok(s) && s.server.finished && s.client.phase.Answered?
    ensures Rank(Step(s, Deliver(statusFails, callbackFails))) < Rank(s) + if statusFails || callbackFails then 14 else 0
  {
    var a := s.client.phase.a;
    var t := Step(s, Deliver(statusFails, callbackFails));
    DeliveryTells(s, statusFails, callbackFails, 0);
    assert Backlog(t) <= Backlog(s);
    if a.finished && a.hasMore {
      assert |a.chunks| == MAX_CHUNKS_PER_RESPONSE;
      assert Backlog(t) < Backlog(s);
    }
  }

  /** After the run has finished, only so many more steps are possible: the backlog, the
      three strikes, and the callback failures bound them. */
  lemma {:induction false} PollingEnds(s: State, events: seq<Event>, t: State)
    requires Ok(s) && s.server.finished && Reaches(s, events, t)
    ensures |events| + Rank(t) <= Rank(s) + 14 * CallbackFailures(events)
    decreases |events|
  {
    if events != [] {
      StepCosts(s, events[0]);
      StepKeepsOk(s, events[0]);
      PollingEnds(Step(s, events[0]), events[1..], t);
    }
  }

  /** What the client and its server do next when nothing fails. */
  function NextEvent(p: Phase): Event {
    match p
    case Waiting => Ask
    case Asked => ReadStatus
    case SawStatus(_) => ReadChunks
    case SawChunks(_) => ReadOldest(false)
    case SawOldest(_) => ReadMore(false)
    case _ => Deliver(false, false)
  }

  /** No read has failed unnoticed that decides about the end. */
  predicate Certain(c: Client) {
    (c.phase.Done? ==> !c.unsure) && (c.phase.Answered? ==> !c.phase.a.moreFailed)
  }

  lemma NextEventIsEnabled(s: State)
    requires !s.client.phase.GivenUp? && !s.client.phase.Done?
    ensures var e := NextEvent(s.client.phase);
            && CanStep(s, e) && Step(s, e).server == s.server && !Step(s, e).client.phase.GivenUp?
            && (Certain(s.client) ==> Certain(Step(s, e).client))
  {
  }

  /** The view never stalls, and when nothing fails it comes to its end by itself. */
  lemma {:induction false} ViewCompletes(s: State) returns (events: seq<Event>, t: State)
    requires Ok(s) && s.server.finished && !s.client.phase.GivenUp?
    ensures Reaches(s, events, t) && t.client.phase.Done?
    ensures t.server == s.server && (Certain(s.client) ==> !t.client.unsure)
    decreases Rank(s)
  {
    if s.client.phase.Done? {
      return [], s;
    }
    var e := NextEvent(s.client.phase);
    NextEventIsEnabled(s);
    StepCosts(s, e);
    StepKeepsOk(s, e);
    events, t := ViewCompletes(Step(s, e));
    OneMore(s, e, events, t);
    events := [e] + events;
  }

  // ----- from the process to the page -----

  /** Chunk i of a log, as a sink numbers it. */
  function Number(log: seq<Chunk>): seq<LogChunk>
    decreases |log|
  {
    if log == [] then []
    else
      var n := |log| - 1;
      Number(log[..n]) + [LogChunk(n + 1, log[n].stream, log[n].text)]
  }

  function Plain(log: seq<LogChunk>): seq<Chunk>
    decreases |log|
  {
    if log == [] then []
    else
      var last := log[|log| - 1];
      Plain(log[..|log| - 1]) + [Chunk(last.stream, last.text)]
  }

  lemma {:induction false} PlainOfNumbered(log: seq<Chunk>)
    ensures Plain(Number(log)) == log
    decreases |log|
  {
    if log != [] {
      var n := |log| - 1;
      PlainOfNumbered(log[..n]);
      var init := Number(log[..n]);
      assert (init + [LogChunk(n + 1, log[n].stream, log[n].text)])[..|init|] == init;
      assert log[..n] + [log[n]] == log;
    }
  }

  /** A view that followed a log to its end, while nothing rolled off, shows of each stream
      exactly the text that the capture recorded. */
  lemma ViewShowsTheOutput(s: State, events: seq<Event>, t: State, log: seq<Chunk>)
    requires Init(s) && Reaches(s, events, t) && t.server.stored == Number(log)
    requires t.client.phase.Done? && !t.client.unsure && t.server.base == 0
    ensures TextsOf(Plain(t.client.received)) == TextsOf(log)
  {
    DoneMeansComplete(s, events, t);
    PlainOfNumbered(log);
  }
}
