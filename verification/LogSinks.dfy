/** The two sinks behind a capture: a test run keeps its log in memory, an execution keeps
    it in table rows. Both roll the oldest chunks off and never the newest. */
module LogSinks {
  import opened Utf8
  import opened OutputCapture

  datatype LogChunk = LogChunk(seqNo: int, stream: Stream, text: Bytes)

  // ----- what a log should retain -----

  function Size(log: seq<LogChunk>): nat {
    if log == [] then 0 else |log[0].text| + Size(log[1..])
  }

  /** Within the byte cap and the count cap, either of which is off at zero; a single
      chunk always fits. */
  predicate Fits(log: seq<LogChunk>, bytes: int, count: int) {
    |log| <= 1 || ((bytes <= 0 || Size(log) <= bytes) && (count <= 0 || |log| <= count))
  }

  /** Drop from the head until the rest fits. */
  function Keep(log: seq<LogChunk>, bytes: int, count: int): (kept: seq<LogChunk>)
    ensures |kept| <= |log|
  {
    if Fits(log, bytes, count) then log else Keep(log[1..], bytes, count)
  }

  /** `kept` is the longest suffix of `log` that fits. */
  ghost predicate IsLongestFit(log: seq<LogChunk>, kept: seq<LogChunk>, bytes: int, count: int) {
    && |kept| <= |log| && kept == log[|log| - |kept|..]
    && Fits(kept, bytes, count)
    && (log != [] ==> kept != [])
    && forall k {:trigger log[k..]} :: 0 <= k <= |log| && Fits(log[k..], bytes, count) ==> |log| - k <= |kept|
  }

  lemma {:induction false} KeepIsLongestFit(log: seq<LogChunk>, bytes: int, count: int)
    ensures IsLongestFit(log, Keep(log, bytes, count), bytes, count)
    decreases |log|
  {
    var kept := Keep(log, bytes, count);
    if !Fits(log, bytes, count) {
      var rest := log[1..];
      KeepIsLongestFit(rest, bytes, count);
      forall k {:trigger log[k..]} | 0 <= k <= |log| && Fits(log[k..], bytes, count)
        ensures |log| - k <= |kept|
      {
        if k > 0 {
          assert log[k..] == rest[k - 1..];
        }
      }
    }
  }

  /** Dropping part of what would be dropped anyway makes no difference. */
  lemma {:induction false} KeepOfSuffix(log: seq<LogChunk>, d: nat, bytes: int, count: int)
    requires d <= |log| - |Keep(log, bytes, count)|
    ensures Keep(log[d..], bytes, count) == Keep(log, bytes, count)
    decreases d
  {
    if d == 0 {
      assert log[0..] == log;
    } else {
      assert log[1..][d - 1..] == log[d..];
      KeepOfSuffix(log[1..], d - 1, bytes, count);
    }
  }

  lemma {:induction false} SizeOfAppended(log: seq<LogChunk>, c: LogChunk)
    ensures Size(log + [c]) == Size(log) + |c.text|
    decreases |log|
  {
    if log != [] {
      assert (log + [c])[1..] == log[1..] + [c];
      SizeOfAppended(log[1..], c);
    } else {
      assert log + [c] == [c];
    }
  }

  /** A longer log does not fit where a shorter one did not, so what was rolled off once
      stays rolled off. */
  lemma {:induction false} KeepOfAppended(log: seq<LogChunk>, c: LogChunk, bytes: int, count: int)
    ensures |Keep(log + [c], bytes, count)| <= |Keep(log, bytes, count)| + 1
    decreases |log|
  {
    if !Fits(log, bytes, count) {
      SizeOfAppended(log, c);
      assert (log + [c])[1..] == log[1..] + [c];
      KeepOfAppended(log[1..], c, bytes, count);
    }
  }

  /** Rolling off after every write leaves what rolling off once at the end would: any
      suffix that has not lost too much is as good as the whole history. */
  lemma KeepIsIncremental(log: seq<LogChunk>, d: nat, c: LogChunk, bytes: int, count: int)
    requires d <= |log| - |Keep(log, bytes, count)|
    ensures Keep(log[d..] + [c], bytes, count) == Keep(log + [c], bytes, count)
  {
    KeepOfAppended(log, c, bytes, count);
    assert (log + [c])[d..] == log[d..] + [c];
    KeepOfSuffix(log + [c], d, bytes, count);
  }

  lemma {:induction false} KeepIsEnd(log: seq<LogChunk>, bytes: int, count: int)
    ensures var kept := Keep(log, bytes, count);
            |kept| <= |log| && kept == log[|log| - |kept|..] && (log != [] ==> kept != [])
    decreases |log|
  {
    if !Fits(log, bytes, count) {
      KeepIsEnd(log[1..], bytes, count);
    } else {
      assert log[0..] == log;
    }
  }

  /** What is kept, in plain terms: the newest chunk at least; within both caps, but for a
      single chunk; and one chunk more would not be. */
  ghost predicate IsFullest(kept: seq<LogChunk>, log: seq<LogChunk>, bytes: int, count: int) {
    && 0 < |kept| <= |log| && kept == log[|log| - |kept|..]
    && (bytes > 0 && |kept| > 1 ==> Size(kept) <= bytes)
    && (count > 0 ==> |kept| <= count)
    && (|kept| < |log| ==> (bytes > 0 && Size(log[|log| - |kept| - 1..]) > bytes) || (count > 0 && |kept| == count))
  }

  lemma KeptIsFullest(log: seq<LogChunk>, bytes: int, count: int)
    requires log != []
    ensures IsFullest(Keep(log, bytes, count), log, bytes, count)
  {
    KeepIsEnd(log, bytes, count);
    OneMoreWouldNotFit(log, bytes, count);
  }

  lemma {:induction false} OneMoreWouldNotFit(log: seq<LogChunk>, bytes: int, count: int)
    ensures var kept := Keep(log, bytes, count);
            && Fits(kept, bytes, count)
            && (|kept| < |log| ==> !Fits(log[|log| - |kept| - 1..], bytes, count))
    decreases |log|
  {
    if !Fits(log, bytes, count) {
      var rest := log[1..];
      var kept := Keep(rest, bytes, count);
      OneMoreWouldNotFit(rest, bytes, count);
      if |kept| < |rest| {
        TailOfTail(log, |rest| - |kept| - 1);
      } else {
        assert log[0..] == log;
      }
    }
  }

  lemma TailOfTail(log: seq<LogChunk>, k: nat)
    requires k < |log|
    ensures log[1..][k..] == log[k + 1..]
  {
  }

  /** What a write rolls off from what was kept is what it would roll off from everything. */
  lemma KeepOfWrite(log: seq<LogChunk>, c: LogChunk, bytes: int, count: int)
    ensures Keep(Keep(log, bytes, count) + [c], bytes, count) == Keep(log + [c], bytes, count)
  {
    KeepIsEnd(log, bytes, count);
    KeepIsIncremental(log, |log| - |Keep(log, bytes, count)|, c, bytes, count);
  }

  /** Chunk i has sequence number i + 1. */
  ghost predicate Numbered(log: seq<LogChunk>) {
    forall i {:trigger log[i]} :: 0 <= i < |log| ==> log[i].seqNo == i + 1
  }

  function SeqAt(log: seq<LogChunk>, i: nat): int
    requires i < |log|
  {
    log[i].seqNo
  }

  ghost predicate Increasing(log: seq<LogChunk>) {
    forall i, j {:trigger SeqAt(log, i), SeqAt(log, j)} :: 0 <= i < j < |log| ==> SeqAt(log, i) < SeqAt(log, j)
  }

  lemma IncreasingSuffix(log: seq<LogChunk>, k: nat)
    requires Increasing(log) && k <= |log|
    ensures Increasing(log[k..])
  {
    var rest := log[k..];
    forall i, j | 0 <= i < j < |rest| ensures SeqAt(rest, i) < SeqAt(rest, j) {
      assert SeqAt(log, k + i) < SeqAt(log, k + j);
    }
  }

  lemma IncreasingAppended(log: seq<LogChunk>, c: LogChunk)
    requires Increasing(log) && (log != [] ==> LastSeq(log, 0) < c.seqNo)
    ensures Increasing(log + [c])
  {
    var more := log + [c];
    forall i, j | 0 <= i < j < |more| ensures SeqAt(more, i) < SeqAt(more, j) {
      if i < |log| - 1 { assert SeqAt(log, i) < SeqAt(log, |log| - 1); }
      if j < |log| { assert SeqAt(log, i) < SeqAt(log, j); }
    }
  }

  // ----- pages -----

  const MAX_CHUNKS_PER_RESPONSE: nat := 500

  /** The chunks past a cursor. */
  function Unread(log: seq<LogChunk>, after: int): seq<LogChunk> {
    if log == [] then []
    else if log[0].seqNo <= after then Unread(log[1..], after)
    else [log[0]] + Unread(log[1..], after)
  }

  function FirstPage(unread: seq<LogChunk>): seq<LogChunk> {
    if |unread| <= MAX_CHUNKS_PER_RESPONSE then unread else unread[..MAX_CHUNKS_PER_RESPONSE]
  }

  function LastSeq(log: seq<LogChunk>, otherwise: int): int {
    if log == [] then otherwise else log[|log| - 1].seqNo
  }

  function OldestSeq(log: seq<LogChunk>): int {
    if log == [] then 0 else log[0].seqNo
  }

  lemma {:induction false} UnreadAt(log: seq<LogChunk>, after: int, k: nat)
    requires k <= |log|
    requires forall i {:trigger SeqAt(log, i)} :: 0 <= i < |log| ==> (SeqAt(log, i) > after <==> i >= k)
    ensures Unread(log, after) == log[k..]
    decreases |log|
  {
    if log != [] {
      var rest := log[1..];
      assert SeqAt(log, 0) > after <==> k == 0;
      forall i | 0 <= i < |rest| ensures SeqAt(rest, i) > after <==> i >= k - 1 {
        assert SeqAt(rest, i) == SeqAt(log, i + 1);
      }
      UnreadAt(rest, after, if k == 0 then 0 else k - 1);
      if k == 0 { assert [log[0]] + rest[0..] == log[0..]; } else { assert rest[k - 1..] == log[k..]; }
    }
  }

  /** Of an increasing log, the unread chunks are the ones from some position on. */
  lemma UnreadIsSuffix(log: seq<LogChunk>, after: int)
    requires Increasing(log)
    ensures var u := Unread(log, after);
            && |u| <= |log| && u == log[|log| - |u|..]
            && (forall i {:trigger SeqAt(log, i)} :: 0 <= i < |log| ==> (SeqAt(log, i) > after <==> i >= |log| - |u|))
  {
    var k := 0;
    while k < |log| && SeqAt(log, k) <= after
      invariant 0 <= k <= |log|
      invariant forall i {:trigger SeqAt(log, i)} :: 0 <= i < k ==> SeqAt(log, i) <= after
    {
      k := k + 1;
    }
    forall i {:trigger SeqAt(log, i)} | k <= i < |log| ensures SeqAt(log, i) > after {
      assert i > k ==> SeqAt(log, k) < SeqAt(log, i);
    }
    UnreadAt(log, after, k);
  }

  lemma {:induction false} UnreadOfAppended(log: seq<LogChunk>, c: LogChunk, after: int)
    ensures Unread(log + [c], after) == Unread(log, after) + (if c.seqNo <= after then [] else [c])
    decreases |log|
  {
    if log == [] {
      assert log + [c] == [c];
    } else {
      assert (log + [c])[1..] == log[1..] + [c];
      UnreadOfAppended(log[1..], c, after);
    }
  }

  // ----- a test run -----

  const MAX_TEST_RUN_CHUNKS: int := 20000

  datatype RunStatus = Running | Succeeded | Failed | Canceled | TimedOut

  datatype Page = Page(chunks: seq<LogChunk>, nextSeq: int, oldestSeq: int, hasMore: bool,
                       status: RunStatus, finished: bool)

  /** The page that answers a poll, for a log with these chunks retained. */
  function PageOf(retained: seq<LogChunk>, after: int, status: RunStatus, finished: bool): Page {
    var chunks := FirstPage(Unread(retained, after));
    Page(chunks, LastSeq(chunks, after), OldestSeq(retained), |Unread(retained, after)| > MAX_CHUNKS_PER_RESPONSE,
         status, finished)
  }

  /** The answer says that more is waiting exactly when something retained lies past it. */
  lemma HasMoreMeansSomethingPastThePage(retained: seq<LogChunk>, after: int, status: RunStatus, finished: bool)
    requires Increasing(retained)
    ensures var p := PageOf(retained, after, status, finished);
            && (p.hasMore <==> exists c :: c in retained && c.seqNo > p.nextSeq)
            && (forall c :: c in retained && after < c.seqNo <= p.nextSeq ==> c in p.chunks)
            && (forall c :: c in p.chunks ==> c in retained && after < c.seqNo)
            && Increasing(p.chunks) && |p.chunks| <= MAX_CHUNKS_PER_RESPONSE
            && (p.hasMore ==> |p.chunks| == MAX_CHUNKS_PER_RESPONSE)
  {
    UnreadIsSuffix(retained, after);
    var u := Unread(retained, after);
    var p := PageOf(retained, after, status, finished);
    var first := |retained| - |u|;
    PageIsSlice(retained, first, p.chunks);
    forall c | c in p.chunks ensures c in retained && after < c.seqNo {
      var i :| 0 <= i < |p.chunks| && p.chunks[i] == c;
      assert c == retained[first + i] && SeqAt(retained, first + i) > after;
    }
    if p.hasMore {
      assert SeqAt(retained, first + MAX_CHUNKS_PER_RESPONSE - 1) < SeqAt(retained, first + MAX_CHUNKS_PER_RESPONSE);
      assert retained[first + MAX_CHUNKS_PER_RESPONSE] in retained;
    }
    forall c | c in retained ensures c.seqNo > p.nextSeq ==> p.hasMore
                             ensures after < c.seqNo <= p.nextSeq ==> c in p.chunks
    {
      var i :| 0 <= i < |retained| && retained[i] == c;
      PageHasIt(retained, first, p.chunks, after, i);
    }
  }

  lemma PageHasIt(retained: seq<LogChunk>, first: nat, page: seq<LogChunk>, after: int, i: nat)
    requires first <= |retained| && page == FirstPage(retained[first..]) && Increasing(retained)
    requires i < |retained| && forall k {:trigger SeqAt(retained, k)} :: 0 <= k < |retained| ==> (SeqAt(retained, k) > after <==> k >= first)
    ensures after < retained[i].seqNo <= LastSeq(page, after) ==> retained[i] in page
    ensures retained[i].seqNo > LastSeq(page, after) ==> |retained| - first > MAX_CHUNKS_PER_RESPONSE
  {
    assert SeqAt(retained, i) == retained[i].seqNo;
    if page != [] {
      assert SeqAt(retained, first + |page| - 1) == LastSeq(page, after);
      if i < first { assert SeqAt(retained, i) < SeqAt(retained, first + |page| - 1); }
    }
    if first <= i < first + |page| { assert page[i - first] == retained[i]; }
    if i >= first + |page| {
      assert page != [] ==> SeqAt(retained, first + |page| - 1) < SeqAt(retained, i);
    }
  }

  lemma PageIsSlice(retained: seq<LogChunk>, first: nat, page: seq<LogChunk>)
    requires first <= |retained| && page == FirstPage(retained[first..]) && Increasing(retained)
    ensures Increasing(page)
    ensures page == retained[first..first + |page|]
  {
    forall i, j | 0 <= i < j < |page| ensures SeqAt(page, i) < SeqAt(page, j) {
      assert SeqAt(retained, first + i) < SeqAt(retained, first + j);
    }
  }

  class TestRun {
    const limitBytes: int
    /** the cap on the number of records */
    const limitChunks: int
    const startedAt: int
    var chunks: seq<LogChunk>
    var seqNo: int
    var retained: int
    var status: RunStatus
    var finished: bool
    /** meaningful once finished */
    var finishedAt: int
    var cancelClosed: bool
    /** history: every chunk ever written */
    ghost var written: seq<LogChunk>

    /** The retained chunks are the longest end of everything written that fits both
        caps, and the running total is their exact size. */
    ghost predicate Valid()
      reads this
    {
      && limitChunks > 0
      && seqNo == |written| && Numbered(written)
      && chunks == Keep(written, limitBytes, limitChunks)
      && retained == Size(chunks)
    }

    constructor (limitBytes: int, now: int)
      ensures Valid() && written == [] && startedAt == now
      ensures this.limitBytes == limitBytes && limitChunks == MAX_TEST_RUN_CHUNKS
      ensures status == Running && !finished && !cancelClosed
    {
      this.limitBytes := limitBytes;
      limitChunks := MAX_TEST_RUN_CHUNKS;
      startedAt, finishedAt := now, now;
      chunks, seqNo, retained, status, finished, cancelClosed, written := [], 0, 0, Running, false, false, [];
    }

    method WriteChunk(stream: Stream, text: Bytes)
      requires Valid()
      modifies this`seqNo, this`chunks, this`retained, this`written
      ensures Valid()
      ensures written == old(written) + [LogChunk(|old(written)| + 1, stream, text)]
      ensures IsFullest(chunks, written, limitBytes, limitChunks) && retained == Size(chunks)
    {
      Record(stream, text);
      KeptIsFullest(written, limitBytes, limitChunks);
    }

    method Record(stream: Stream, text: Bytes)
      requires Valid()
      modifies this`seqNo, this`chunks, this`retained, this`written
      ensures Valid() && written == old(written) + [LogChunk(|old(written)| + 1, stream, text)]
    {
      seqNo := seqNo + 1;
      ghost var c := LogChunk(seqNo, stream, text);
      KeepOfWrite(written, c, limitBytes, limitChunks);
      SizeOfAppended(chunks, c);
      chunks := chunks + [LogChunk(seqNo, stream, text)];
      retained := retained + |text|;
      written := written + [c];
      RollOff();
    }

    /** Both loops of a write: bytes first, then the number of records. */
    method RollOff()
      requires limitChunks > 0 && retained == Size(chunks)
      modifies this`chunks, this`retained
      ensures chunks == Keep(old(chunks), limitBytes, limitChunks)
      ensures retained == Size(chunks)
    {
      ghost var kept := Keep(chunks, limitBytes, limitChunks);
      while retained > 0 && limitBytes > 0 && retained > limitBytes && |chunks| > 1
        invariant retained == Size(chunks)
        invariant Keep(chunks, limitBytes, limitChunks) == kept
        decreases |chunks|
      {
        retained := retained - |chunks[0].text|;
        chunks := chunks[1..];
      }
      while |chunks| > limitChunks
        invariant retained == Size(chunks)
        invariant Keep(chunks, limitBytes, limitChunks) == kept
        invariant limitBytes <= 0 || retained <= limitBytes || |chunks| <= 1
        decreases |chunks|
      {
        retained := retained - |chunks[0].text|;
        chunks := chunks[1..];
      }
    }

    /** page: one poll's worth, read under the lock. */
    method GetPage(after: int) returns (p: Page)
      requires Valid()
      ensures p == PageOf(Keep(written, limitBytes, limitChunks), after, status, finished)
    {
      var found: seq<LogChunk> := [];
      var nextSeq := after;
      var hasMore := false;
      var oldest := 0;
      if |chunks| > 0 {
        oldest := chunks[0].seqNo;
      }
      var i := 0;
      while i < |chunks|
        invariant 0 <= i <= |chunks|
        invariant found == Unread(chunks[..i], after) && |found| <= MAX_CHUNKS_PER_RESPONSE
        invariant nextSeq == LastSeq(found, after)
        invariant !hasMore
      {
        assert chunks[..i + 1] == chunks[..i] + [chunks[i]];
        UnreadOfAppended(chunks[..i], chunks[i], after);
        if chunks[i].seqNo <= after {
          i := i + 1;
          continue;
        }
        if |found| == MAX_CHUNKS_PER_RESPONSE {
          hasMore := true;
          UnreadOfConcat(chunks[..i], chunks[i..], after);
          assert chunks == chunks[..i] + chunks[i..];
          break;
        }
        found := found + [chunks[i]];
        nextSeq := chunks[i].seqNo;
        i := i + 1;
      }
      assert i == |chunks| ==> chunks[..i] == chunks;
      return Page(found, nextSeq, oldest, hasMore, status, finished);
    }

    method Finish(outcome: RunStatus, now: int)
      modifies this`status, this`finished, this`finishedAt
      ensures status == outcome && finished && finishedAt == now
    {
      status := outcome;
      finished := true;
      finishedAt := now;
    }

    /** requestCancel: the run is tested under its lock, the switch is closed after the lock has
        been dropped; `finishes` says that the run finishes in between. The answer is that of
        the test, and the switch closes once however often a stop is asked for. */
    method RequestCancel(finishes: bool, outcome: RunStatus, now: int) returns (ok: bool)
      modifies this`cancelClosed, this`status, this`finished, this`finishedAt
      ensures ok == !old(finished)
      ensures cancelClosed == (old(cancelClosed) || ok)
      ensures finished == (old(finished) || finishes)
      ensures !(ok && finishes) ==> status == old(status) && finishedAt == old(finishedAt)
    {
      if finished {
        return false;
      }
      if finishes {
        Finish(outcome, now);
      }
      if !cancelClosed {
        cancelClosed := true;
      }
      return true;
    }
  }

  lemma {:induction false} UnreadOfConcat(a: seq<LogChunk>, b: seq<LogChunk>, after: int)
    ensures Unread(a + b, after) == Unread(a, after) + Unread(b, after)
    decreases |a|
  {
    if a == [] {
      assert a + b == b;
    } else {
      assert (a + b)[1..] == a[1..] + b;
      UnreadOfConcat(a[1..], b, after);
    }
  }

  // ----- an execution's sink -----

  /** What the statements of one write do: whether the insert fails, and how many rows
      the roll-off deletes before a read or a delete fails. */
  datatype Faults = Faults(insertFails: bool, goodDeletes: nat)

  /** `rows` is an end of the inserted rows, with everything the cap has room for. */
  ghost predicate IsLogEnd(inserted: seq<LogChunk>, rows: seq<LogChunk>, newest: int, bytes: int) {
    && |Keep(inserted, bytes, 0)| <= |rows| <= |inserted|
    && rows == inserted[|inserted| - |rows|..]
    && Increasing(inserted) && LastSeq(inserted, 0) <= newest
  }

  lemma StoreOne(inserted: seq<LogChunk>, rows: seq<LogChunk>, newest: int, c: LogChunk, bytes: int)
    requires IsLogEnd(inserted, rows, newest, bytes) && newest < c.seqNo
    ensures IsLogEnd(inserted + [c], rows + [c], c.seqNo, bytes)
    ensures Size(rows + [c]) == Size(rows) + |c.text|
    ensures Increasing(rows + [c])
  {
    var d := |inserted| - |rows|;
    KeepOfAppended(inserted, c, bytes, 0);
    SizeOfAppended(rows, c);
    assert (inserted + [c])[d..] == inserted[d..] + [c];
    IncreasingAppended(inserted, c);
    IncreasingSuffix(inserted + [c], d);
  }

  lemma TrimOne(inserted: seq<LogChunk>, rows: seq<LogChunk>, newest: int, bytes: int)
    requires IsLogEnd(inserted, rows, newest, bytes) && !Fits(rows, bytes, 0)
    ensures IsLogEnd(inserted, rows[1..], newest, bytes)
    ensures Size(rows) == |rows[0].text| + Size(rows[1..])
    ensures SeqAt(rows, 0) < LastSeq(rows, 0)
  {
    var d := |inserted| - |rows|;
    KeepOfSuffix(inserted, d, bytes, 0);
    assert inserted[d..][1..] == inserted[d + 1..];
    assert SeqAt(inserted, d) < SeqAt(inserted, |inserted| - 1);
  }

  lemma NewestIsAlone(inserted: seq<LogChunk>, rows: seq<LogChunk>, newest: int, bytes: int)
    requires IsLogEnd(inserted, rows, newest, bytes) && rows != [] && rows[0].seqNo == newest
    ensures rows == Keep(inserted, bytes, 0)
  {
    var d := |inserted| - |rows|;
    assert |rows| > 1 ==> SeqAt(inserted, d) < SeqAt(inserted, |inserted| - 1);
    FittingEndIsKept(inserted, rows, newest, bytes);
  }

  lemma FittingEndIsKept(inserted: seq<LogChunk>, rows: seq<LogChunk>, newest: int, bytes: int)
    requires IsLogEnd(inserted, rows, newest, bytes) && Fits(rows, bytes, 0)
    ensures rows == Keep(inserted, bytes, 0)
  {
    KeepOfSuffix(inserted, |inserted| - |rows|, bytes, 0);
  }

  class ExecutionLogSink {
    const limitBytes: int
    var seqNo: int
    var retained: int
    /** the stored rows of this execution, in sequence order */
    var rows: seq<LogChunk>
    /** history: every row ever inserted */
    ghost var inserted: seq<LogChunk>

    /** Whatever has failed, the byte total is exact, what is stored is an end of what
        was inserted, and nothing within the cap is missing. */
    ghost predicate Valid()
      reads this
    {
      retained == Size(rows) && IsLogEnd(inserted, rows, seqNo, limitBytes)
    }

    constructor (limitBytes: int)
      ensures Valid() && inserted == [] && this.limitBytes == limitBytes
    {
      this.limitBytes := limitBytes;
      seqNo, retained, rows, inserted := 0, 0, [], [];
    }

    method WriteChunk(stream: Stream, text: Bytes, faults: Faults)
      requires Valid()
      modifies this
      ensures Valid() && seqNo == old(seqNo) + 1
      ensures inserted == if faults.insertFails then old(inserted) else old(inserted) + [LogChunk(seqNo, stream, text)]
      ensures faults.insertFails ==> rows == old(rows)
      ensures !faults.insertFails && faults.goodDeletes >= |inserted| ==> IsFullest(rows, inserted, limitBytes, 0)
    {
      Record(stream, text, faults);
      if !faults.insertFails { KeptIsFullest(inserted, limitBytes, 0); }
    }

    method Record(stream: Stream, text: Bytes, faults: Faults)
      requires Valid()
      modifies this
      ensures Valid() && seqNo == old(seqNo) + 1
      ensures inserted == if faults.insertFails then old(inserted) else old(inserted) + [LogChunk(seqNo, stream, text)]
      ensures faults.insertFails ==> rows == old(rows)
      ensures !faults.insertFails && faults.goodDeletes >= |inserted| ==> rows == Keep(inserted, limitBytes, 0)
    {
      seqNo := seqNo + 1;
      if faults.insertFails {
        return;
      }
      Insert(stream, text);
      Trim(faults.goodDeletes);
    }

    /** The insert that got through. */
    method Insert(stream: Stream, text: Bytes)
      requires retained == Size(rows) && IsLogEnd(inserted, rows, seqNo - 1, limitBytes)
      modifies this`rows, this`retained, this`inserted
      ensures Valid() && rows != [] && LastSeq(rows, 0) == seqNo
      ensures inserted == old(inserted) + [LogChunk(seqNo, stream, text)]
    {
      ghost var c := LogChunk(seqNo, stream, text);
      StoreOne(inserted, rows, seqNo - 1, c, limitBytes);
      inserted := inserted + [c];
      rows := rows + [LogChunk(seqNo, stream, text)];
      retained := retained + |text|;
    }

    /** trim: the row with the newest number is never dropped. */
    method Trim(goodDeletes: nat)
      requires Valid() && rows != [] && LastSeq(rows, 0) == seqNo
      modifies this`rows, this`retained
      ensures Valid()
      ensures goodDeletes >= |inserted| ==> rows == Keep(inserted, limitBytes, 0)
    {
      var deletes := 0;
      while limitBytes > 0 && retained > limitBytes
        invariant Valid() && rows != [] && LastSeq(rows, 0) == seqNo
        invariant |rows| <= |inserted| - deletes
        decreases |rows|
      {
        var oldest := rows[0];
        if deletes >= goodDeletes || oldest.seqNo == seqNo {
          if deletes < goodDeletes { NewestIsAlone(inserted, rows, seqNo, limitBytes); }
          return;
        }
        TrimOne(inserted, rows, seqNo, limitBytes);
        rows := rows[1..];
        retained := retained - |oldest.text|;
        deletes := deletes + 1;
      }
      FittingEndIsKept(inserted, rows, seqNo, limitBytes);
    }
  }

  /** A log within its caps loses nothing, at any time on the way. */
  lemma FittingLogKeepsEverything(log: seq<LogChunk>, bytes: int, count: int, n: nat)
    requires Fits(log, bytes, count) && n <= |log|
    ensures Keep(log[..n], bytes, count) == log[..n]
  {
    SizeOfPrefix(log, n);
  }

  lemma {:induction false} SizeOfPrefix(log: seq<LogChunk>, n: nat)
    requires n <= |log|
    ensures Size(log[..n]) <= Size(log)
    decreases |log|
  {
    if n < |log| {
      var init, last := log[..|log| - 1], log[|log| - 1];
      assert log == init + [last] && init[..n] == log[..n];
      SizeOfAppended(init, last);
      SizeOfPrefix(init, n);
    } else {
      assert log[..n] == log;
    }
  }

  /** What a test run retains is numbered without a hole and ends with the newest chunk. */
  lemma RetainedIsContiguous(written: seq<LogChunk>, bytes: int, count: int)
    requires Numbered(written)
    ensures var kept := Keep(written, bytes, count);
            && Increasing(kept)
            && forall i {:trigger kept[i]} :: 0 <= i < |kept| ==> kept[i].seqNo == |written| - |kept| + i + 1
  {
    KeepIsLongestFit(written, bytes, count);
    var kept := Keep(written, bytes, count);
    assert forall i {:trigger kept[i]} :: 0 <= i < |kept| ==> kept[i] == written[|written| - |kept| + i];
  }
}
