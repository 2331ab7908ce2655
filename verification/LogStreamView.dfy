/** The two ends of a poll as code: the log endpoint of an execution and the poll function
    of the view. Both are tied to the steps of LogPolling. */
module LogStreamView {
  import opened LogSinks
  import opened LogPolling
  import opened LogPollingTheorems

  datatype Option<T> = None | Some(value: T)

  /** What the log endpoint serves: its reads are separate statements, so the log may be a
      different one at each; None stands for a statement that fails unnoticed. */
  ghost predicate Serves(p: Page, chunksRead: Server, oldestRead: Option<Server>, moreRead: Option<Server>, after: int) {
    && p.chunks == FirstPage(Unread(Retained(chunksRead), after))
    && p.nextSeq == LastSeq(p.chunks, after)
    && p.oldestSeq == (if oldestRead.Some? then OldestSeq(Retained(oldestRead.value)) else 0)
    && (p.hasMore <==> moreRead.Some? && exists c :: c in Retained(moreRead.value) && c.seqNo > p.nextSeq)
  }

  /** The log endpoint: the rows past the cursor up to the limit, then the two later reads. */
  method Logs(finished: bool, status: RunStatus, chunksRead: Server, oldestRead: Option<Server>, moreRead: Option<Server>, after: int)
      returns (p: Page)
    ensures Serves(p, chunksRead, oldestRead, moreRead, after)
    ensures p.finished == finished && p.status == status
  {
    var chunks, nextSeq := ReadRows(Retained(chunksRead), after);
    var oldest := 0;
    if oldestRead.Some? && |Retained(oldestRead.value)| > 0 {
      oldest := Retained(oldestRead.value)[0].seqNo;
    }
    var hasMore := false;
    if moreRead.Some? {
      hasMore := AnyPast(Retained(moreRead.value), nextSeq);
    }
    return Page(chunks, nextSeq, oldest, hasMore, status, finished);
  }

  /** The rows past the cursor in order, no more than a page of them. */
  method ReadRows(rows: seq<LogChunk>, after: int) returns (chunks: seq<LogChunk>, nextSeq: int)
    ensures chunks == FirstPage(Unread(rows, after)) && nextSeq == LastSeq(chunks, after)
  {
    chunks, nextSeq := [], after;
    var i := 0;
    while i < |rows| && |chunks| < MAX_CHUNKS_PER_RESPONSE
      invariant 0 <= i <= |rows|
      invariant chunks == Unread(rows[..i], after) && |chunks| <= MAX_CHUNKS_PER_RESPONSE
      invariant nextSeq == LastSeq(chunks, after)
    {
      assert rows[..i + 1] == rows[..i] + [rows[i]];
      UnreadOfAppended(rows[..i], rows[i], after);
      if rows[i].seqNo > after {
        chunks := chunks + [rows[i]];
        nextSeq := rows[i].seqNo;
      }
      i := i + 1;
    }
    assert rows == rows[..i] + rows[i..];
    UnreadOfConcat(rows[..i], rows[i..], after);
  }

  method AnyPast(rows: seq<LogChunk>, after: int) returns (found: bool)
    ensures found <==> exists c :: c in rows && c.seqNo > after
  {
    found := false;
    var k := 0;
    while k < |rows| && !found
      invariant 0 <= k <= |rows|
      invariant found <==> exists c :: c in rows[..k] && c.seqNo > after
    {
      found := rows[k].seqNo > after;
      k := k + 1;
    }
    assert k == |rows| ==> rows[..k] == rows;
  }

  /** The page served is the answer that the four reads of the protocol build, whatever
      writers do between them. `s1` to `s3` are the states right before the reads of the chunks,
      of the oldest number and of whether there is more. */
  lemma LogsServesTheAnswer(s1: State, s2: State, s3: State, oldestFails: bool, moreFails: bool, p: Page)
    requires s1.client.phase.SawStatus?
    requires s2.client.phase.SawChunks?
    requires s2.client.(phase := SawChunks(s2.client.phase.a.(torn := false))) == Step(s1, ReadChunks).client
    requires s3.client == Step(s2, ReadOldest(oldestFails)).client
    requires Serves(p, s1.server, if oldestFails then None else Some(s2.server),
                    if moreFails then None else Some(s3.server), s1.client.cursor)
    requires p.finished == s1.client.phase.finished
    ensures var a := Step(s3, ReadMore(moreFails)).client.phase.a;
            && AsAnswer(p) == a.(lost := 0, torn := false, oldestFailed := false, moreFailed := false)
            && p.nextSeq == NextSeq(a, s1.client.cursor)
  {
    SomethingUnread(Retained(s3.server), p.nextSeq);
  }

  datatype Timer = Soon | Later | Stopped

  function AsAnswer(p: Page): Answer { Answer(p.finished, p.chunks, p.oldestSeq, p.hasMore, 0, false, false, false) }

  class View {
    const startedFinished: bool
    var cursor: int
    var chunks: seq<LogChunk>
    var gap: bool
    var finished: bool
    var failed: bool
    var consecutiveFailures: nat
    var timer: Timer

    /** The client that this view is, with the records of its past left blank. */
    ghost function AsClient(): Client
      reads this
    {
      var phase := if failed then GivenUp else if timer == Stopped then Done else Waiting;
      Client(cursor, chunks, gap, consecutiveFailures, phase, [], false, false, false)
    }

    constructor (initiallyFinished: bool)
      ensures AsClient() == Client(0, [], false, 0, Waiting, [], false, false, false)
      ensures startedFinished == initiallyFinished && finished == initiallyFinished
    {
      startedFinished := initiallyFinished;
      cursor, chunks, gap, finished, failed, consecutiveFailures := 0, [], false, initiallyFinished, false, 0;
      timer := Soon;
    }

    /** One round of poll, from the moment the fetch settles. The status callback is called on
        every page; the closing one only by a view that saw its source running. Either may
        throw, and then the round counts as failed. */
    method Poll(fetched: Option<Page>, statusFails: bool, callbackFails: bool)
      requires !failed && timer != Stopped
      modifies this
      ensures fetched == None ==> AsClient() == Failure(old(AsClient()))
      ensures fetched.Some? && fetched.value.nextSeq == LastSeq(fetched.value.chunks, old(cursor)) ==>
        AsClient() == Received(old(AsClient()), AsAnswer(fetched.value), statusFails, callbackFails && !startedFinished).(fate := [])
      ensures fetched == None ==>
        && cursor == old(cursor) && chunks == old(chunks) && gap == old(gap) && finished == old(finished)
        && consecutiveFailures == old(consecutiveFailures) + 1
        && (failed <==> consecutiveFailures >= 3) && timer == if failed then Stopped else Later
      ensures fetched.Some? ==>
        var p := fetched.value;
        var thrown := statusFails || (!p.hasMore && p.finished && !startedFinished && callbackFails);
        && cursor == (if p.chunks == [] then old(cursor) else p.nextSeq) && chunks == old(chunks) + p.chunks
        && gap == (old(gap) || (old(cursor) > 0 && p.oldestSeq > old(cursor) + 1)) && finished == p.finished
        && !failed && consecutiveFailures == (if thrown then 1 else 0)
        && timer == if thrown then Later else if p.hasMore then Soon else if !p.finished then Later else Stopped
    {
      Round(fetched, statusFails, callbackFails);
    }

    /** The body of poll: the poll that follows comes at once if more is waiting, after the
        interval if the source still runs or something was thrown, and else not at all. */
    method Round(fetched: Option<Page>, statusFails: bool, callbackFails: bool)
      requires !failed && timer != Stopped
      modifies this
      ensures fetched == None ==>
        && cursor == old(cursor) && chunks == old(chunks) && gap == old(gap) && finished == old(finished)
        && consecutiveFailures == old(consecutiveFailures) + 1
        && (failed <==> consecutiveFailures >= 3) && timer == if failed then Stopped else Later
      ensures fetched.Some? ==>
        var p := fetched.value;
        var thrown := statusFails || (!p.hasMore && p.finished && !startedFinished && callbackFails);
        && cursor == (if p.chunks == [] then old(cursor) else p.nextSeq) && chunks == old(chunks) + p.chunks
        && gap == (old(gap) || (old(cursor) > 0 && p.oldestSeq > old(cursor) + 1)) && finished == p.finished
        && !failed && consecutiveFailures == (if thrown then 1 else 0)
        && timer == if thrown then Later else if p.hasMore then Soon else if !p.finished then Later else Stopped
    {
      match fetched {
        case Some(p) =>
          consecutiveFailures := 0;
          Show(p);
          finished := p.finished;
          if statusFails {
            CountFailure();
          } else if p.hasMore {
            timer := Soon;
          } else if !p.finished {
            timer := Later;
          } else {
            timer := Stopped;
            if !startedFinished && callbackFails {
              CountFailure();
            }
          }
        case None =>
          CountFailure();
      }
    }

    /** Moves the view past a page. */
    method Show(p: Page)
      modifies this`gap, this`cursor, this`chunks
      ensures gap == (old(gap) || (old(cursor) > 0 && p.oldestSeq > old(cursor) + 1))
      ensures cursor == if p.chunks == [] then old(cursor) else p.nextSeq
      ensures chunks == old(chunks) + p.chunks
    {
      if cursor > 0 && p.oldestSeq > cursor + 1 {
        gap := true;
      }
      if |p.chunks| > 0 {
        cursor := p.nextSeq;
        chunks := chunks + p.chunks;
      }
    }

    /** The catch branch of poll. */
    method CountFailure()
      requires !failed
      modifies this`consecutiveFailures, this`failed, this`timer
      ensures consecutiveFailures == old(consecutiveFailures) + 1
      ensures failed <==> consecutiveFailures >= MAX_CONSECUTIVE_FAILURES
      ensures timer == if failed then Stopped else Later
    {
      consecutiveFailures := consecutiveFailures + 1;
      if consecutiveFailures >= MAX_CONSECUTIVE_FAILURES {
        failed := true;
        timer := Stopped;
        return;
      }
      timer := Later;
    }
  }
}
