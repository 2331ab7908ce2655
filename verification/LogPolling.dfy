/** A client follows a log that is still growing at one end and rolling off at the other.
    The four reads behind an answer are steps of their own, so that writes can come between
    them; a test run's page, taken under one lock, is the special case where none does. */
module LogPolling {
  import opened LogSinks

  // ----- state -----

  /** The log: every chunk ever stored, how many of them have been rolled off, and whether
      the run has finished. */
  datatype Server = Server(stored: seq<LogChunk>, base: nat, finished: bool)

  /** What has been read for an answer, and four records of how: how many chunks had been
      rolled off when the chunks were read, whether more were before the oldest number was,
      and whether one of the two statements failed whose errors nobody looks at. Nothing the
      client does depends on the records. */
  datatype Answer = Answer(finished: bool, chunks: seq<LogChunk>, oldestSeq: int, hasMore: bool,
                           lost: nat, torn: bool, oldestFailed: bool, moreFailed: bool)

  datatype Phase =
    | Waiting                      // for its timer
    | Asked                        // request sent
    | SawStatus(finished: bool)
    | SawChunks(a: Answer)
    | SawOldest(a: Answer)
    | Answered(a: Answer)
    | Done
    | GivenUp

  /** The view, and four records of its past: the fate of every stored chunk behind the
      cursor, true if it was received; whether it has been given an answer that was torn, or
      one without its oldest number; whether the last answer it was given lacked its last read. */
  datatype Client = Client(cursor: int, received: seq<LogChunk>, gap: bool, failures: nat, phase: Phase,
                           fate: seq<bool>, torn: bool, blind: bool, unsure: bool)

  datatype State = State(server: Server, client: Client)

  datatype Event =
    | Store(c: LogChunk)
    | Roll(base: nat)
    | Finish
    | Ask
    | ReadStatus
    | ReadChunks
    | ReadOldest(fails: bool)
    | ReadMore(fails: bool)
    | Lose                         // the request fails on either side
    | Deliver(statusFails: bool, callbackFails: bool)

  const MAX_CONSECUTIVE_FAILURES: nat := 3

  function Max(a: nat, b: nat): nat { if a < b then b else a }

  function Retained(s: Server): seq<LogChunk> {
    if s.base <= |s.stored| then s.stored[s.base..] else []
  }

  predicate InRequest(p: Phase) { !p.Waiting? && !p.Done? && !p.GivenUp? }

  /** Numbers only grow; the newest chunk is never rolled off; a finished log is left alone. */
  predicate CanStep(s: State, e: Event) {
    match e
    case Store(c) => !s.server.finished && LastSeq(s.server.stored, 0) < c.seqNo
    case Roll(base) => !s.server.finished && s.server.base <= base < |s.server.stored|
    case Finish => !s.server.finished
    case Ask => s.client.phase.Waiting?
    case ReadStatus => s.client.phase.Asked?
    case ReadChunks => s.client.phase.SawStatus?
    case ReadOldest(_) => s.client.phase.SawChunks?
    case ReadMore(_) => s.client.phase.SawOldest?
    case Lose => InRequest(s.client.phase)
    case Deliver(_, _) => s.client.phase.Answered?
  }

  function NextSeq(a: Answer, cursor: int): int { LastSeq(a.chunks, cursor) }

  /** One failed poll. */
  function Failure(c: Client): Client {
    if c.failures + 1 >= MAX_CONSECUTIVE_FAILURES
    then c.(failures := c.failures + 1, phase := GivenUp)
    else c.(failures := c.failures + 1, phase := Waiting)
  }

  /** An answer that moves the cursor settles the fate of every chunk it moves past. */
  function Settled(fate: seq<bool>, a: Answer): seq<bool> {
    if a.chunks == [] then fate
    else fate + Copies(false, Max(|fate|, a.lost) - |fate|) + Copies(true, |a.chunks|)
  }

  function Copies(b: bool, n: nat): (r: seq<bool>)
    ensures |r| == n && forall i :: 0 <= i < n ==> r[i] == b
  {
    seq(n, i => b)
  }

  /** The status callback is called on every answer, the closing one on the last. */
  function Received(c: Client, a: Answer, statusFails: bool, callbackFails: bool): Client {
    var d := c.(failures := 0,
                gap := c.gap || (c.cursor > 0 && a.oldestSeq > c.cursor + 1),
                cursor := NextSeq(a, c.cursor),
                received := c.received + a.chunks,
                fate := Settled(c.fate, a),
                torn := c.torn || a.torn, blind := c.blind || a.oldestFailed, unsure := a.moreFailed);
    if statusFails then Failure(d)
    else if a.hasMore || !a.finished then d.(phase := Waiting)
    else if callbackFails then Failure(d)
    else d.(phase := Done)
  }

  /** History only: a roll-off between the two reads that should agree. */
  function Torn(p: Phase, moved: bool): Phase {
    if p.SawChunks? && moved then SawChunks(p.a.(torn := true)) else p
  }

  function Step(s: State, e: Event): State
    requires CanStep(s, e)
  {
    match e
    case Store(c) => s.(server := s.server.(stored := s.server.stored + [c]))
    case Roll(base) => s.(server := s.server.(base := base), client := s.client.(phase := Torn(s.client.phase, base != s.server.base)))
    case Finish => s.(server := s.server.(finished := true))
    case Ask => s.(client := s.client.(phase := Asked))
    case ReadStatus => s.(client := s.client.(phase := SawStatus(s.server.finished)))
    case ReadChunks =>
      var found := FirstPage(Unread(Retained(s.server), s.client.cursor));
      s.(client := s.client.(phase := SawChunks(Answer(s.client.phase.finished, found, 0, false, s.server.base, false, false, false))))
    case ReadOldest(fails) =>
      var oldest := if fails then 0 else OldestSeq(Retained(s.server));
      s.(client := s.client.(phase := SawOldest(s.client.phase.a.(oldestSeq := oldest, oldestFailed := fails))))
    case ReadMore(fails) =>
      var a := s.client.phase.a;
      var more := !fails && Unread(Retained(s.server), NextSeq(a, s.client.cursor)) != [];
      s.(client := s.client.(phase := Answered(a.(hasMore := more, moreFailed := fails))))
    case Lose => s.(client := Failure(s.client))
    case Deliver(statusFails, callbackFails) => s.(client := Received(s.client, s.client.phase.a, statusFails, callbackFails))
  }

  predicate Init(s: State) {
    s == State(Server([], 0, false), Client(0, [], false, 0, Waiting, [], false, false, false))
  }

  ghost predicate Reaches(s: State, events: seq<Event>, t: State)
    decreases |events|
  {
    if events == [] then t == s
    else CanStep(s, events[0]) && Reaches(Step(s, events[0]), events[1..], t)
  }

  // ----- what every step keeps -----

  ghost predicate ServerOk(s: Server) {
    && Increasing(s.stored) && s.base <= |s.stored|
    && (s.stored != [] ==> s.base < |s.stored| && SeqAt(s.stored, 0) > 0)
  }

  /** The stored chunks whose fate is to have been received. */
  function Pick(log: seq<LogChunk>, fate: seq<bool>): seq<LogChunk>
    requires |fate| <= |log|
    decreases |fate|
  {
    if fate == [] then []
    else
      var n := |fate| - 1;
      Pick(log, fate[..n]) + (if fate[n] then [log[n]] else [])
  }

  /** A cursor lies just past the first `n` chunks. */
  ghost predicate CursorAt(log: seq<LogChunk>, n: nat, cursor: int)
    requires n <= |log|
  {
    cursor == if n == 0 then 0 else SeqAt(log, n - 1)
  }

  /** A missed chunk has been rolled off. */
  predicate MissedIsGone(fate: seq<bool>, base: nat, i: nat)
    requires i < |fate|
  {
    fate[i] || i < base
  }

  /** What the client holds is what the fate of the chunks behind its cursor says. */
  ghost predicate ClientOk(s: State) {
    var c, stored := s.client, s.server.stored;
    && |c.fate| <= |stored|
    && c.received == Pick(stored, c.fate)
    && CursorAt(stored, |c.fate|, c.cursor)
    && (c.fate != [] ==> c.fate[|c.fate| - 1])
    && (forall i {:trigger MissedIsGone(c.fate, s.server.base, i)} :: 0 <= i < |c.fate| ==> MissedIsGone(c.fate, s.server.base, i))
    && (!c.phase.GivenUp? ==> c.failures < MAX_CONSECUTIVE_FAILURES)
  }

  function Start(c: Client, a: Answer): nat { Max(|c.fate|, a.lost) }

  function End(c: Client, a: Answer): nat { Start(c, a) + |a.chunks| }

  /** The chunks read are the first page of what was unread and retained then; for a
      finished log that is still so. */
  ghost predicate ChunksOk(s: State, a: Answer) {
    var c, stored := s.client, s.server.stored;
    && a.lost <= s.server.base && (c.fate != [] && a.chunks == [] ==> a.lost < |c.fate|)
    && End(c, a) <= |stored| && a.chunks == stored[Start(c, a)..End(c, a)]
    && (a.finished ==> s.server.finished && a.lost == s.server.base
                       && (End(c, a) == |stored| || |a.chunks| == MAX_CHUNKS_PER_RESPONSE))
  }

  /** The oldest number read, if it was, lies between what was lost then and what is now,
      and is the number past what was lost unless the answer is torn. */
  ghost predicate OldestOk(s: State, a: Answer) {
    var stored, base := s.server.stored, s.server.base;
    && (a.oldestFailed ==> a.oldestSeq == 0)
    && (!a.oldestFailed && s.client.fate != [] && base < |stored| ==>
          && a.lost < |stored|
          && SeqAt(stored, a.lost) <= a.oldestSeq <= SeqAt(stored, base)
          && (!a.torn ==> a.oldestSeq == SeqAt(stored, a.lost)))
  }

  ghost predicate MoreOk(s: State, a: Answer) {
    a.finished ==> (a.hasMore ==> End(s.client, a) < |s.server.stored|)
                   && (!a.hasMore && !a.moreFailed ==> End(s.client, a) == |s.server.stored|)
  }

  ghost predicate PhaseOk(s: State) {
    match s.client.phase
    case SawStatus(finished) => finished ==> s.server.finished
    case SawChunks(a) => ChunksOk(s, a) && (!a.torn ==> a.lost == s.server.base)
    case SawOldest(a) => ChunksOk(s, a) && OldestOk(s, a)
    case Answered(a) => ChunksOk(s, a) && OldestOk(s, a) && MoreOk(s, a)
    case Done => s.server.finished && (!s.client.unsure ==> |s.client.fate| == |s.server.stored|)
    case _ => true
  }

  /** A chunk was missed behind one that was received. */
  ghost predicate Hole(fate: seq<bool>) {
    exists i, j {:trigger fate[i], fate[j]} :: 0 <= i < j < |fate| && fate[i] && !fate[j]
  }

  ghost predicate GapOk(s: State) {
    && (Hole(s.client.fate) && !s.client.blind ==> s.client.gap)
    && (s.client.gap && !s.client.torn && Numbered(s.server.stored) ==> Hole(s.client.fate))
  }

  ghost predicate Ok(s: State) {
    ServerOk(s.server) && ClientOk(s) && PhaseOk(s) && GapOk(s)
  }

  // ----- facts about logs -----

  lemma PastCursor(log: seq<LogChunk>, n: nat, cursor: int, i: nat)
    requires Increasing(log) && n <= |log| && CursorAt(log, n, cursor) && i < |log|
    requires SeqAt(log, 0) > 0
    ensures SeqAt(log, i) > cursor <==> i >= n
  {
    assert i > 0 ==> SeqAt(log, 0) < SeqAt(log, i);
    assert 0 < n <= i ==> SeqAt(log, n - 1) < SeqAt(log, i);
    assert i < n - 1 ==> SeqAt(log, i) < SeqAt(log, n - 1);
  }

  /** Past a cursor lies what follows the chunks behind it and has not been rolled off. */
  lemma UnreadFrom(log: seq<LogChunk>, base: nat, n: nat, cursor: int)
    requires Increasing(log) && base <= |log| && n <= |log| && CursorAt(log, n, cursor)
    requires log != [] ==> SeqAt(log, 0) > 0
    ensures Max(n, base) <= |log| && Unread(log[base..], cursor) == log[Max(n, base)..]
  {
    var rest := log[base..];
    IncreasingSuffix(log, base);
    UnreadIsSuffix(rest, cursor);
    var u := Unread(rest, cursor);
    var k := |rest| - |u|;
    assert u == log[base + k..];
    if base + k < |log| {
      assert SeqAt(rest, k) == SeqAt(log, base + k);
      PastCursor(log, n, cursor, base + k);
    }
    if k > 0 {
      assert SeqAt(rest, k - 1) == SeqAt(log, base + k - 1);
      PastCursor(log, n, cursor, base + k - 1);
    }
  }

  lemma {:induction false} PickOfLonger(log: seq<LogChunk>, c: LogChunk, fate: seq<bool>)
    requires |fate| <= |log|
    ensures Pick(log + [c], fate) == Pick(log, fate)
    decreases |fate|
  {
    if fate != [] { PickOfLonger(log, c, fate[..|fate| - 1]); }
  }

  /** More fates: from `first` on the chunks were received, before that missed. */
  lemma {:induction false} PickExtended(log: seq<LogChunk>, fate: seq<bool>, more: seq<bool>, first: nat)
    requires |fate| <= first <= |more| <= |log| && more[..|fate|] == fate
    requires forall i :: |fate| <= i < |more| ==> (more[i] <==> i >= first)
    ensures Pick(log, more) == Pick(log, fate) + log[first..|more|]
    decreases |more|
  {
    var n := |more| - 1;
    if |more| == |fate| {
      assert more == fate;
    } else if first <= n {
      PickExtended(log, fate, more[..n], first);
      assert log[first..n] + [log[n]] == log[first..n + 1];
    } else {
      PickExtended(log, fate, more[..n], n);
    }
  }

  // ----- every step keeps the invariant -----

  lemma StoreKeepsOk(s: State, c: LogChunk)
    requires Ok(s) && CanStep(s, Store(c))
    ensures Ok(Step(s, Store(c)))
  {
    var t := Step(s, Store(c));
    IncreasingAppended(s.server.stored, c);
    PickOfLonger(s.server.stored, c, s.client.fate);
    var more := s.server.stored + [c];
    assert forall i {:trigger SeqAt(more, i)} :: 0 <= i < |s.server.stored| ==> SeqAt(more, i) == SeqAt(s.server.stored, i);
    StoreKeepsPhase(s, c);
    if Numbered(more) { NumberedPrefix(s.server.stored, c); }
  }

  lemma NumberedPrefix(log: seq<LogChunk>, c: LogChunk)
    requires Numbered(log + [c])
    ensures Numbered(log)
  {
    assert forall i {:trigger log[i]} :: 0 <= i < |log| ==> log[i] == (log + [c])[i];
  }

  lemma StoreKeepsPhase(s: State, c: LogChunk)
    requires Ok(s) && CanStep(s, Store(c))
    ensures PhaseOk(Step(s, Store(c)))
  {
  }

  lemma RollKeepsOk(s: State, base: nat)
    requires Ok(s) && CanStep(s, Roll(base))
    ensures Ok(Step(s, Roll(base)))
  {
    var t := Step(s, Roll(base));
    RollKeepsPhase(s, base);
    forall i | 0 <= i < |t.client.fate| ensures MissedIsGone(t.client.fate, base, i) {
      assert MissedIsGone(s.client.fate, s.server.base, i);
    }
  }

  lemma RollKeepsPhase(s: State, base: nat)
    requires Ok(s) && CanStep(s, Roll(base))
    ensures PhaseOk(Step(s, Roll(base)))
  {
    assert s.server.base < base ==> SeqAt(s.server.stored, s.server.base) < SeqAt(s.server.stored, base);
  }

  lemma ReadsKeepOk(s: State, e: Event)
    requires Ok(s) && CanStep(s, e) && (e.ReadChunks? || e.ReadOldest? || e.ReadMore?)
    ensures Ok(Step(s, e))
  {
    var t := Step(s, e);
    if e.ReadChunks? {
      ChunksAreRead(s);
    } else if e.ReadOldest? {
      OldestIsRead(s, e.fails);
    } else {
      MoreIsRead(s, e.fails);
    }
  }

  lemma ChunksAreRead(s: State)
    requires ServerOk(s.server) && s.client.phase.SawStatus? && (s.client.phase.finished ==> s.server.finished)
    requires |s.client.fate| <= |s.server.stored| && CursorAt(s.server.stored, |s.client.fate|, s.client.cursor)
    ensures ChunksOk(s, Step(s, ReadChunks).client.phase.a)
  {
    var page := FirstPage(Unread(s.server.stored[s.server.base..], s.client.cursor));
    PageFrom(s.server.stored, s.server.base, |s.client.fate|, s.client.cursor);
    PageIsRead(s, page);
  }

  lemma PageIsRead(s: State, page: seq<LogChunk>)
    requires s.client.phase.SawStatus? && s.server.base <= |s.server.stored| && (s.client.phase.finished ==> s.server.finished)
    requires page == FirstPage(Unread(s.server.stored[s.server.base..], s.client.cursor))
    requires var first := Max(|s.client.fate|, s.server.base);
             && first + |page| <= |s.server.stored| && page == s.server.stored[first..first + |page|]
             && (first + |page| == |s.server.stored| || |page| == MAX_CHUNKS_PER_RESPONSE)
    requires s.client.fate != [] && page == [] ==> s.server.base < |s.client.fate|
    ensures ChunksOk(s, Step(s, ReadChunks).client.phase.a)
  {
    assert Step(s, ReadChunks).client.phase.a.chunks == page;
  }

  lemma PageFrom(log: seq<LogChunk>, base: nat, n: nat, cursor: int)
    requires Increasing(log) && base <= |log| && n <= |log| && CursorAt(log, n, cursor)
    requires log != [] ==> SeqAt(log, 0) > 0 && base < |log|
    ensures var first, page := Max(n, base), FirstPage(Unread(log[base..], cursor));
            && first + |page| <= |log| && page == log[first..first + |page|]
            && (first + |page| == |log| || |page| == MAX_CHUNKS_PER_RESPONSE)
            && (n > 0 && page == [] ==> base < n)
  {
    UnreadFrom(log, base, n, cursor);
  }

  lemma OldestIsRead(s: State, fails: bool)
    requires ServerOk(s.server) && ClientOk(s) && PhaseOk(s) && s.client.phase.SawChunks?
    ensures PhaseOk(Step(s, ReadOldest(fails)))
  {
    var a := s.client.phase.a;
    var stored, base := s.server.stored, s.server.base;
    if base < |stored| {
      assert stored[base..][0] == stored[base];
      assert a.lost < base ==> SeqAt(stored, a.lost) < SeqAt(stored, base);
    }
  }

  lemma MoreIsRead(s: State, fails: bool)
    requires ServerOk(s.server) && ClientOk(s) && PhaseOk(s) && s.client.phase.SawOldest?
    ensures PhaseOk(Step(s, ReadMore(fails)))
  {
    if s.client.phase.a.finished { MoreMeansPastTheEnd(s); }
  }

  lemma MoreMeansPastTheEnd(s: State)
    requires ServerOk(s.server) && ClientOk(s) && s.client.phase.SawOldest?
    requires ChunksOk(s, s.client.phase.a) && s.client.phase.a.finished
    ensures var a := s.client.phase.a;
            Unread(Retained(s.server), NextSeq(a, s.client.cursor)) != [] <==> End(s.client, a) < |s.server.stored|
  {
    var c, a, stored, base := s.client, s.client.phase.a, s.server.stored, s.server.base;
    var behind := if a.chunks == [] then |c.fate| else End(c, a);
    CursorAfter(s, a);
    UnreadFrom(stored, base, behind, NextSeq(a, c.cursor));
  }

  /** Where an answer leaves the cursor. */
  lemma CursorAfter(s: State, a: Answer)
    requires ClientOk(s) && End(s.client, a) <= |s.server.stored|
    requires a.chunks == s.server.stored[Start(s.client, a)..End(s.client, a)]
    ensures var behind := if a.chunks == [] then |s.client.fate| else End(s.client, a);
            CursorAt(s.server.stored, behind, NextSeq(a, s.client.cursor))
  {
  }

  /** What a delivered answer does to the view. */
  lemma DeliveryKeepsClient(s: State, statusFails: bool, callbackFails: bool)
    requires ServerOk(s.server) && ClientOk(s) && PhaseOk(s) && s.client.phase.Answered?
    ensures ClientOk(Step(s, Deliver(statusFails, callbackFails)))
  {
    var t := Step(s, Deliver(statusFails, callbackFails));
    var c, a := s.client, s.client.phase.a;
    CursorAfter(s, a);
    PickSettled(s.server.stored, c.fate, a);
    MissedAreGone(s, statusFails, callbackFails);
  }

  lemma MissedAreGone(s: State, statusFails: bool, callbackFails: bool)
    requires s.client.phase.Answered? && s.client.phase.a.lost <= s.server.base
    requires forall i {:trigger MissedIsGone(s.client.fate, s.server.base, i)} ::
               0 <= i < |s.client.fate| ==> MissedIsGone(s.client.fate, s.server.base, i)
    ensures var fate := Step(s, Deliver(statusFails, callbackFails)).client.fate;
            forall i {:trigger MissedIsGone(fate, s.server.base, i)} :: 0 <= i < |fate| ==> MissedIsGone(fate, s.server.base, i)
  {
    var fate := Step(s, Deliver(statusFails, callbackFails)).client.fate;
    forall i | 0 <= i < |fate| ensures MissedIsGone(fate, s.server.base, i) {
      DeliveryTells(s, statusFails, callbackFails, i);
      if i < |s.client.fate| { assert MissedIsGone(s.client.fate, s.server.base, i); }
    }
  }

  lemma PickSettled(log: seq<LogChunk>, fate: seq<bool>, a: Answer)
    requires |fate| <= |log| && Max(|fate|, a.lost) + |a.chunks| <= |log|
    requires a.chunks == log[Max(|fate|, a.lost)..Max(|fate|, a.lost) + |a.chunks|]
    ensures var settled := Settled(fate, a);
            && |settled| == (if a.chunks == [] then |fate| else Max(|fate|, a.lost) + |a.chunks|)
            && Pick(log, settled) == Pick(log, fate) + a.chunks
            && (a.chunks != [] ==> settled[|settled| - 1])
  {
    if a.chunks != [] {
      var first := Max(|fate|, a.lost);
      SettledFates(fate, a, first);
      PickExtended(log, fate, Settled(fate, a), first);
    }
  }

  lemma SettledFates(fate: seq<bool>, a: Answer, first: nat)
    requires a.chunks != [] && first == Max(|fate|, a.lost)
    ensures var settled := Settled(fate, a);
            && |settled| == first + |a.chunks| && settled[..|fate|] == fate
            && forall i :: |fate| <= i < |settled| ==> (settled[i] <==> i >= first)
  {
  }

  /** An answer tells which of the chunks it moves past were gone: exactly those that had
      been rolled off when the chunks were read. */
  lemma DeliveryTells(s: State, statusFails: bool, callbackFails: bool, i: nat)
    requires s.client.phase.Answered?
    ensures var a, t := s.client.phase.a, Step(s, Deliver(statusFails, callbackFails)).client;
            && |s.client.fate| <= |t.fate|
            && (i < |s.client.fate| ==> t.fate[i] == s.client.fate[i])
            && (|s.client.fate| <= i < |t.fate| ==> (t.fate[i] <==> i >= a.lost))
  {
  }

  /** The gap flag goes up with a hole, and unless the answer was torn only with one. */
  lemma DeliveryKeepsGap(s: State, statusFails: bool, callbackFails: bool)
    requires Ok(s) && s.client.phase.Answered?
    ensures GapOk(Step(s, Deliver(statusFails, callbackFails)))
  {
    var t := Step(s, Deliver(statusFails, callbackFails));
    var c, a, stored := s.client, s.client.phase.a, s.server.stored;
    if Hole(t.client.fate) && !t.client.blind && !c.gap { HoleIsSeen(s, statusFails, callbackFails); }
    if t.client.gap && !t.client.torn && Numbered(stored) { GapIsHole(s, statusFails, callbackFails); }
  }

  lemma HoleIsSeen(s: State, statusFails: bool, callbackFails: bool)
    requires Ok(s) && s.client.phase.Answered? && !s.client.blind && !s.client.phase.a.oldestFailed
    requires Hole(Step(s, Deliver(statusFails, callbackFails)).client.fate) && !s.client.gap
    ensures Step(s, Deliver(statusFails, callbackFails)).client.gap
  {
    var t := Step(s, Deliver(statusFails, callbackFails));
    var c, a, stored := s.client, s.client.phase.a, s.server.stored;
    var i, j :| 0 <= i < j < |t.client.fate| && t.client.fate[i] && !t.client.fate[j];
    DeliveryTells(s, statusFails, callbackFails, i);
    DeliveryTells(s, statusFails, callbackFails, j);
    if j >= |c.fate| {
      assert i < |c.fate| < a.lost + 1;
      assert SeqAt(stored, |c.fate| - 1) < SeqAt(stored, |c.fate|);
      assert |c.fate| < a.lost ==> SeqAt(stored, |c.fate|) < SeqAt(stored, a.lost);
    }
  }

  lemma GapIsHole(s: State, statusFails: bool, callbackFails: bool)
    requires Ok(s) && s.client.phase.Answered? && !s.client.torn && !s.client.phase.a.torn && Numbered(s.server.stored)
    requires Step(s, Deliver(statusFails, callbackFails)).client.gap
    ensures Hole(Step(s, Deliver(statusFails, callbackFails)).client.fate)
  {
    var t := Step(s, Deliver(statusFails, callbackFails));
    var c, a, stored := s.client, s.client.phase.a, s.server.stored;
    if c.gap {
      var i, j :| 0 <= i < j < |c.fate| && c.fate[i] && !c.fate[j];
      DeliveryTells(s, statusFails, callbackFails, i);
      DeliveryTells(s, statusFails, callbackFails, j);
    } else {
      var n := |c.fate|;
      assert a.oldestSeq > c.cursor + 1;
      assert n < a.lost;
      assert a.chunks != [];
      DeliveryTells(s, statusFails, callbackFails, n - 1);
      DeliveryTells(s, statusFails, callbackFails, n);
      assert t.client.fate[n - 1] && !t.client.fate[n];
    }
  }

  lemma DeliveryKeepsOk(s: State, statusFails: bool, callbackFails: bool)
    requires Ok(s) && s.client.phase.Answered?
    ensures Ok(Step(s, Deliver(statusFails, callbackFails)))
  {
    DeliveryKeepsClient(s, statusFails, callbackFails);
    DeliveryKeepsGap(s, statusFails, callbackFails);
  }

  lemma OtherKeepsOk(s: State, e: Event)
    requires Ok(s) && CanStep(s, e) && (e.Finish? || e.Ask? || e.ReadStatus? || e.Lose?)
    ensures Ok(Step(s, e))
  {
    OtherKeepsPhase(s, e);
  }

  lemma OtherKeepsPhase(s: State, e: Event)
    requires PhaseOk(s) && CanStep(s, e) && (e.Finish? || e.Ask? || e.ReadStatus? || e.Lose?)
    ensures PhaseOk(Step(s, e))
  {
  }

  lemma StepKeepsOk(s: State, e: Event)
    requires Ok(s) && CanStep(s, e)
    ensures Ok(Step(s, e))
  {
    match e {
      case Store(c) => StoreKeepsOk(s, c);
      case Roll(base) => RollKeepsOk(s, base);
      case ReadChunks => ReadsKeepOk(s, e);
      case ReadOldest(_) => ReadsKeepOk(s, e);
      case ReadMore(_) => ReadsKeepOk(s, e);
      case Deliver(x, y) => DeliveryKeepsOk(s, x, y);
      case _ => OtherKeepsOk(s, e);
    }
  }

  lemma {:induction false} RunKeepsOk(s: State, events: seq<Event>, t: State)
    requires Ok(s) && Reaches(s, events, t)
    ensures Ok(t)
    decreases |events|
  {
    if events != [] {
      StepKeepsOk(s, events[0]);
      RunKeepsOk(Step(s, events[0]), events[1..], t);
    }
  }
}
