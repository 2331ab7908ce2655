/** One execution as the executor sees it: two readers, a capture, and a select between
    exit, timeout and cancellation. Which bytes arrive, and when, is given. */
module Executor {
  import opened Utf8
  import opened OutputCapture

  datatype ExecuteResult = ExecuteResult(success: bool, canceled: bool, timedOut: bool, output: Bytes, error: Bytes)

  /** What waiting for the process said. */
  datatype Wait = Clean | Failed(message: Bytes)

  /** The case that the select takes. `cancelClosed` is what the cancel channel shows
      when the exit case asks. */
  datatype Ending = Exited(wait: Wait, cancelClosed: bool) | Expired(message: Bytes) | Stopped

  const NEWLINE: byte := 10

  /** strings.TrimLeft(s, "\n") */
  function TrimNewlines(s: Bytes): Bytes
    decreases |s|
  {
    if s != [] && s[0] == NEWLINE then TrimNewlines(s[1..]) else s
  }

  /** `t` is `s` without the newlines at its head, and without anything else. */
  ghost predicate IsWithoutHeadNewlines(t: Bytes, s: Bytes) {
    && |t| <= |s| && t == s[|s| - |t|..]
    && (forall i :: 0 <= i < |s| - |t| ==> s[i] == NEWLINE)
    && (t != [] ==> t[0] != NEWLINE)
  }

  lemma {:induction false} TrimNewlinesTakesTheHead(s: Bytes)
    ensures IsWithoutHeadNewlines(TrimNewlines(s), s)
    decreases |s|
  {
    if s != [] && s[0] == NEWLINE {
      TrimNewlinesTakesTheHead(s[1..]);
    } else {
      assert s[0..] == s;
    }
  }

  predicate EndsWith(t: Bytes, s: Bytes) { |s| <= |t| && t[|t| - |s|..] == s }

  /** The reason ends the text, whatever the output was, on a line of its own, and is all
      of the text if there was no output. */
  lemma ReasonIsLast(t: Bytes, text: Bytes, reason: Bytes)
    requires IsWithoutHeadNewlines(t, text + [NEWLINE] + reason)
    requires reason != [] && reason[0] != NEWLINE
    ensures EndsWith(t, reason)
    ensures t == reason || t[|t| - |reason| - 1] == NEWLINE
    ensures text == [] ==> t == reason
  {
    var whole := text + [NEWLINE] + reason;
    assert whole[|text| + 1] == reason[0];
    assert whole[|text| + 1..] == reason;
    assert |t| >= |reason|;
    assert t[|t| - |reason|..] == whole[|whole| - |reason|..];
    if |t| > |reason| { assert t[|t| - |reason| - 1] == whole[|text|]; }
    assert text == [] ==> |whole| == |reason| + 1 && whole[0] == NEWLINE;
  }

  function CancelMessage(): Bytes {
    // "execution canceled"
    [101, 120, 101, 99, 117, 116, 105, 111, 110, 32, 99, 97, 110, 99, 101, 108, 101, 100]
  }

  predicate IsCanceled(ending: Ending) { ending == Stopped || (ending.Exited? && ending.cancelClosed) }

  /** Why a run that was stopped early was stopped. */
  function Reason(ending: Ending): Bytes
    requires IsCanceled(ending) || ending.Expired?
  {
    if ending.Expired? then ending.message else CancelMessage()
  }

  /** abortResult */
  method AbortResult(capture: StreamCapture, reason: Bytes, wasCanceled: bool, wasTimeout: bool, stderrFirst: bool)
      returns (r: ExecuteResult)
    requires capture.Consistent() && !capture.sealed && capture.LanesOk()
    modifies capture, capture.stdout, capture.stderr
    ensures capture.Consistent() && capture.sealed
    ensures Captured(capture, old(capture.written))
    ensures |old(capture.sink)| <= |capture.sink| <= |old(capture.sink)| + 2
    ensures capture.sink[..|old(capture.sink)|] == old(capture.sink)
    ensures !r.success && r.canceled == wasCanceled && r.timedOut == wasTimeout && r.output == capture.stdout.buf
    ensures IsWithoutHeadNewlines(r.error, capture.stderr.buf + [NEWLINE] + reason)
  {
    var out, errOut := capture.Result(stderrFirst);
    TrimNewlinesTakesTheHead(errOut + [NEWLINE] + reason);
    return ExecuteResult(false, wasCanceled, wasTimeout, out, TrimNewlines(errOut + [NEWLINE] + reason));
  }

  /** A capture that was fed these streams has recorded every one that is valid UTF-8. */
  ghost predicate Captured(capture: StreamCapture, streams: Both)
    reads capture.stdout, capture.stderr
  {
    && (Valid(streams.out) ==> capture.Recorded().out == streams.out)
    && (Valid(streams.err) ==> capture.Recorded().err == streams.err)
  }

  /** The select of run and what follows it. */
  method Settle(capture: StreamCapture, ending: Ending, stderrFirst: bool) returns (r: ExecuteResult)
    requires capture.Consistent() && !capture.sealed && capture.LanesOk()
    modifies capture, capture.stdout, capture.stderr
    ensures capture.Consistent() && capture.sealed
    ensures Captured(capture, old(capture.written))
    ensures |old(capture.sink)| <= |capture.sink| <= |old(capture.sink)| + 2
    ensures capture.sink[..|old(capture.sink)|] == old(capture.sink)
    ensures r.success <==> ending == Exited(Clean, false)
    ensures r.canceled <==> IsCanceled(ending)
    ensures r.timedOut <==> ending.Expired?
    ensures r.output == capture.stdout.buf
    ensures ending == Exited(Clean, false) ==> r.error == capture.stderr.buf
    ensures ending.Exited? && ending.wait.Failed? && !ending.cancelClosed ==>
              r.error == if capture.stderr.buf == [] then ending.wait.message else capture.stderr.buf
    ensures IsCanceled(ending) || ending.Expired? ==>
              IsWithoutHeadNewlines(r.error, capture.stderr.buf + [NEWLINE] + Reason(ending))
  {
    match ending {
      case Stopped =>
        r := AbortResult(capture, CancelMessage(), true, false, stderrFirst);
      case Expired(message) =>
        r := AbortResult(capture, message, false, true, stderrFirst);
      case Exited(wait, cancelClosed) =>
        if cancelClosed {
          r := AbortResult(capture, CancelMessage(), true, false, stderrFirst);
          return;
        }
        var out, errOut := capture.Result(stderrFirst);
        match wait {
          case Clean =>
            r := ExecuteResult(true, false, false, out, errOut);
          case Failed(message) =>
            r := ExecuteResult(false, false, false, out, if errOut == [] then message else errOut);
        }
    }
  }

  /** The reads of both pumpStream loops, in the order in which the capture admits them. */
  method Pump(capture: StreamCapture, pieces: seq<Chunk>)
    requires capture.Consistent() && !capture.sealed && capture.LanesOk() && capture.written == Both([], [])
    modifies capture`pending, capture`sink, capture`raw, capture`written, capture.stdout, capture.stderr
    ensures capture.Consistent() && capture.LanesOk() && capture.written == TextsOf(pieces)
    ensures old(capture.sink) == [] ==> Arrives(capture.sink, pieces)
  {
    for i := 0 to |pieces|
      invariant capture.Consistent() && capture.LanesOk() && capture.written == TextsOf(pieces[..i])
      invariant old(capture.sink) == [] ==> Arrives(capture.sink, pieces[..i])
    {
      ghost var before := capture.sink;
      PumpOne(capture, pieces[i]);
      NextPiece(pieces, i, before, capture.sink);
    }
    assert pieces[..|pieces|] == pieces;
  }

  method PumpOne(capture: StreamCapture, piece: Chunk)
    requires capture.Consistent() && !capture.sealed && capture.LanesOk()
    modifies capture`pending, capture`sink, capture`raw, capture`written, capture.stdout, capture.stderr
    ensures capture.Consistent() && capture.LanesOk() && capture.written == old(capture.written).Plus(piece)
    ensures Grows(capture.sink, old(capture.sink), piece.stream)
  {
    capture.Write(piece.stream, piece.text);
  }

  lemma NextPiece(pieces: seq<Chunk>, i: nat, before: seq<Chunk>, after: seq<Chunk>)
    requires i < |pieces| && Grows(after, before, pieces[i].stream)
    ensures TextsOf(pieces[..i + 1]) == TextsOf(pieces[..i]).Plus(pieces[i])
    ensures Arrives(before, pieces[..i]) ==> Arrives(after, pieces[..i + 1])
  {
    assert pieces[..i + 1] == pieces[..i] + [pieces[i]] && pieces[..i + 1][..i] == pieces[..i];
    if Arrives(before, pieces[..i]) { OneMoreArrives(before, pieces[..i], pieces[i], after); }
  }

  /** The reads that come after the capture was sealed. */
  method PumpLate(capture: StreamCapture, late: seq<Chunk>)
    requires capture.Consistent() && capture.sealed
    modifies capture`pending, capture`sink, capture`raw, capture`written, capture.stdout, capture.stderr
    ensures capture.Consistent()
    ensures Untouched(capture, old(capture.sink), old(capture.stdout.buf), old(capture.stderr.buf))
  {
    for i := 0 to |late|
      invariant capture.Consistent()
      invariant Untouched(capture, old(capture.sink), old(capture.stdout.buf), old(capture.stderr.buf))
    {
      capture.Write(late[i].stream, late[i].text);
    }
  }

  ghost predicate Untouched(capture: StreamCapture, sink: seq<Chunk>, out: Bytes, errOut: Bytes)
    reads capture`sink, capture.stdout, capture.stderr
  {
    capture.sink == sink && capture.stdout.buf == out && capture.stderr.buf == errOut
  }

  /** The log the sink was handed records every stream that is valid UTF-8 as it was. */
  ghost predicate Records(log: seq<Chunk>, streams: Both) {
    var recorded := TextsOf(log);
    && Valid(recorded.out) && Valid(recorded.err)
    && (Valid(streams.out) ==> recorded.out == streams.out)
    && (Valid(streams.err) ==> recorded.err == streams.err)
  }

  /** run: the capture is fed `pieces`, the select settles the outcome, and readers that
      were not waited for may still deliver `late`. However each stream was cut and the
      two interleaved, a stream that is valid UTF-8 reaches the sink unchanged, and is
      reported as the longest rune-aligned end of itself within the cap. Nothing that
      comes late reaches the sink or the report. */
  method Run(pieces: seq<Chunk>, late: seq<Chunk>, ending: Ending, tailBytes: int, stderrFirst: bool)
      returns (r: ExecuteResult, log: seq<Chunk>)
    ensures Records(log, TextsOf(pieces))
    ensures exists k :: 0 <= k <= |log| <= k + 2 && Arrives(log[..k], pieces)
    ensures r.success <==> ending == Exited(Clean, false)
    ensures r.canceled <==> ending == Stopped || (ending.Exited? && ending.cancelClosed)
    ensures r.timedOut <==> ending.Expired?
    ensures r.output == TrimTail(TextsOf(log).out, tailBytes)
    ensures ending == Exited(Clean, false) ==> r.error == TrimTail(TextsOf(log).err, tailBytes)
    ensures ending.Exited? && ending.wait.Failed? && !ending.cancelClosed ==>
              var errOut := TrimTail(TextsOf(log).err, tailBytes);
              r.error == if errOut == [] then ending.wait.message else errOut
    ensures IsCanceled(ending) || ending.Expired? ==>
              IsWithoutHeadNewlines(r.error, TrimTail(TextsOf(log).err, tailBytes) + [NEWLINE] + Reason(ending))
              && (Reason(ending) != [] && Reason(ending)[0] != NEWLINE ==> EndsWith(r.error, Reason(ending)))
  {
    var capture := Feed(pieces, tailBytes);
    ghost var before := capture.sink;
    r, log := Conclude(capture, late, ending, stderrFirst);
    assert Arrives(log[..|before|], pieces);
    if (IsCanceled(ending) || ending.Expired?) && Reason(ending) != [] && Reason(ending)[0] != NEWLINE {
      ReasonIsLast(r.error, TrimTail(TextsOf(log).err, tailBytes), Reason(ending));
    }
  }

  /** A capture that has been fed all reads up to the outcome. */
  method Feed(pieces: seq<Chunk>, tailBytes: int) returns (capture: StreamCapture)
    ensures fresh(capture) && fresh(capture.stdout) && fresh(capture.stderr)
    ensures capture.Consistent() && !capture.sealed && capture.LanesOk() && capture.hasSink
    ensures capture.written == TextsOf(pieces) && capture.stdout.limit == tailBytes
    ensures Arrives(capture.sink, pieces)
  {
    capture := new StreamCapture(tailBytes, true);
    Pump(capture, pieces);
  }

  /** The outcome, then whatever comes late. */
  method Conclude(capture: StreamCapture, late: seq<Chunk>, ending: Ending, stderrFirst: bool)
      returns (r: ExecuteResult, log: seq<Chunk>)
    requires capture.Consistent() && !capture.sealed && capture.LanesOk() && capture.hasSink
    modifies capture, capture.stdout, capture.stderr
    ensures Records(log, old(capture.written))
    ensures |old(capture.sink)| <= |log| <= |old(capture.sink)| + 2 && log[..|old(capture.sink)|] == old(capture.sink)
    ensures r.success <==> ending == Exited(Clean, false)
    ensures r.canceled <==> ending == Stopped || (ending.Exited? && ending.cancelClosed)
    ensures r.timedOut <==> ending.Expired?
    ensures r.output == TrimTail(TextsOf(log).out, capture.stdout.limit)
    ensures ending == Exited(Clean, false) ==> r.error == TrimTail(TextsOf(log).err, capture.stdout.limit)
    ensures ending.Exited? && ending.wait.Failed? && !ending.cancelClosed ==>
              var errOut := TrimTail(TextsOf(log).err, capture.stdout.limit);
              r.error == if errOut == [] then ending.wait.message else errOut
    ensures IsCanceled(ending) || ending.Expired? ==>
              IsWithoutHeadNewlines(r.error, TrimTail(TextsOf(log).err, capture.stdout.limit) + [NEWLINE] + Reason(ending))
  {
    r := Settle(capture, ending, stderrFirst);
    log := Drain(capture, late);
  }

  /** Readers that outlive the select: the capture is sealed, and its record stands. */
  method Drain(capture: StreamCapture, late: seq<Chunk>) returns (log: seq<Chunk>)
    requires capture.Consistent() && capture.sealed && capture.hasSink
    modifies capture`pending, capture`sink, capture`raw, capture`written, capture.stdout, capture.stderr
    ensures log == old(capture.sink) && TextsOf(log) == old(capture.Recorded())
    ensures var texts := TextsOf(log);
            && Valid(texts.out) && Valid(texts.err)
            && old(capture.stdout.buf) == TrimTail(texts.out, capture.stdout.limit)
            && old(capture.stderr.buf) == TrimTail(texts.err, capture.stdout.limit)
  {
    PumpLate(capture, late);
    log := capture.sink;
  }
}
