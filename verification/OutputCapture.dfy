/** The output pipeline up to the sink: the tail buffer keeps a rune-aligned end of what
    it is given, and the capture reassembles runes that a read has cut in half. */
module OutputCapture {
  import opened Utf8

  // ----- the tail buffer -----

  /** The first position from `p` on that does not hold a continuation byte. */
  function Boundary(s: Bytes, p: nat): (q: nat)
    requires p <= |s|
    ensures p <= q <= |s|
    ensures q == |s| || RuneStart(s[q])
    ensures forall i :: p <= i < q ==> IsTail(s[i])
    decreases |s| - p
  {
    if p < |s| && !RuneStart(s[p]) then Boundary(s, p + 1) else p
  }

  /** One-shot trimming of a whole history; a limit of zero or less means no cap. */
  function TrimTail(s: Bytes, limit: int): Bytes {
    if limit <= 0 || |s| <= limit then s else s[Boundary(s, |s| - limit)..]
  }

  /** The result is a valid suffix within the limit, and every valid suffix within the
      limit is a suffix of it. */
  lemma TrimTailIsLongest(s: Bytes, limit: int)
    requires Valid(s)
    ensures var t := TrimTail(s, limit);
            && Valid(t) && |t| <= |s| && t == s[|s| - |t|..]
            && (limit > 0 ==> |t| <= limit)
            && (limit <= 0 ==> t == s)
    ensures forall q :: 0 <= q <= |s| && (limit > 0 ==> |s| - q <= limit) && Valid(s[q..]) ==> |s[q..]| <= |TrimTail(s, limit)|
  {
    TrimTailIsValid(s, limit);
    forall q | 0 <= q <= |s| && (limit > 0 ==> |s| - q <= limit) && Valid(s[q..])
      ensures |s[q..]| <= |TrimTail(s, limit)|
    {
      NoLongerSuffix(s, limit, q);
    }
  }

  lemma TrimTailIsValid(s: Bytes, limit: int)
    requires Valid(s)
    ensures var t := TrimTail(s, limit);
            && Valid(t) && |t| <= |s| && t == s[|s| - |t|..]
            && (limit > 0 ==> |t| <= limit)
            && (limit <= 0 ==> t == s)
  {
    SplitAtRuneStart(s, |s| - |TrimTail(s, limit)|);
  }

  lemma NoLongerSuffix(s: Bytes, limit: int, q: nat)
    requires Valid(s) && q <= |s| && (limit > 0 ==> |s| - q <= limit) && Valid(s[q..])
    ensures |s| - q <= |TrimTail(s, limit)|
  {
    SplitAtRuneStart(s, q);
  }

  /** The buffer had to be cut again: the cut is where one cut of the history would be. */
  lemma CutAgain(whole: Bytes, off: nat, limit: int)
    requires 0 < limit && off <= |whole| && |whole| - off > limit
    ensures TrimTail(whole[off..], limit) == TrimTail(whole, limit)
  {
    BoundaryInSuffix(whole, off, |whole| - limit);
    CutAt(whole, off, whole[off..], limit, Boundary(whole, |whole| - limit));
  }

  lemma CutAt(whole: Bytes, off: nat, cut: Bytes, limit: int, b: nat)
    requires 0 < limit && off <= b <= |whole| && cut == whole[off..] && |cut| > limit
    requires Boundary(cut, |cut| - limit) == b - off
    ensures TrimTail(cut, limit) == whole[b..]
  {
    SliceOfSlice(whole, off, b);
  }

  lemma SliceOfSlice(s: Bytes, off: nat, b: nat)
    requires off <= b <= |s|
    ensures s[off..][b - off..] == s[b..]
  {
  }

  /** The buffer did not have to be cut again: the earlier cut is still the right one. */
  lemma EarlierCutStands(history: Bytes, piece: Bytes, limit: int)
    requires piece != [] ==> RuneStart(piece[0])
    requires 0 < limit < |history| && |TrimTail(history, limit)| + |piece| <= limit
    ensures TrimTail(history, limit) + piece == TrimTail(history + piece, limit)
  {
    var b := Boundary(history, |history| - limit);
    BoundaryUnmoved(history, piece, |history| - limit, |history + piece| - limit);
    SuffixOfConcat(history, piece, b);
  }

  lemma SuffixOfConcat(a: Bytes, b: Bytes, k: nat)
    requires k <= |a|
    ensures a[k..] + b == (a + b)[k..]
  {
  }

  /** Trimming what is left of a history is trimming the history. A piece that began with
      a continuation byte could break this; valid text never does. */
  lemma TrimTailIsIncremental(history: Bytes, piece: Bytes, limit: int)
    requires piece != [] ==> RuneStart(piece[0])
    ensures TrimTail(TrimTail(history, limit) + piece, limit) == TrimTail(history + piece, limit)
  {
    var kept := TrimTail(history, limit);
    if limit <= 0 || |history + piece| <= limit {
      assert kept == history;
    } else if |kept| + |piece| > limit {
      var off := |history| - |kept|;
      assert kept + piece == (history + piece)[off..] by {
        assert kept == history[off..];
      }
      CutAgain(history + piece, off, limit);
    } else {
      EarlierCutStands(history, piece, limit);
    }
  }

  lemma {:induction false} BoundaryInSuffix(s: Bytes, off: nat, p: nat)
    requires off <= p <= |s|
    ensures Boundary(s[off..], p - off) == Boundary(s, p) - off
    decreases |s| - p
  {
    if p < |s| && !RuneStart(s[p]) { BoundaryInSuffix(s, off, p + 1); }
  }

  lemma BoundaryUnmoved(history: Bytes, piece: Bytes, p: nat, q: nat)
    requires p <= |history| && p <= q <= Boundary(history, p)
    requires piece != [] ==> RuneStart(piece[0])
    ensures Boundary(history + piece, q) == Boundary(history, p)
  {
    var whole := history + piece;
    var b := Boundary(history, p);
    var c := Boundary(whole, q);
    assert b < |whole| ==> RuneStart(whole[b]);
    assert forall i :: q <= i < b ==> IsTail(whole[i]);
  }

  /** tailBuffer. `history` is everything appended so far. */
  class TailBuffer {
    const limit: int
    var buf: Bytes
    ghost var history: Bytes

    ghost predicate IsTrimmed()
      reads this
    {
      Valid(history) && buf == TrimTail(history, limit)
    }

    constructor (limit: int)
      ensures this.limit == limit && history == [] && IsTrimmed()
    {
      this.limit := limit;
      buf := [];
      history := [];
    }

    method Append(s: Bytes)
      requires IsTrimmed() && Valid(s)
      modifies this
      ensures IsTrimmed() && history == old(history) + s
    {
      AppendedText(history, s, limit);
      history := history + s;
      buf := buf + s;
      if limit <= 0 || |buf| <= limit {
        return;
      }
      var cut := CutPoint(buf, limit);
      buf := buf[cut..];
    }
  }

  lemma AppendedText(history: Bytes, s: Bytes, limit: int)
    requires Valid(history) && Valid(s)
    ensures Valid(history + s)
    ensures TrimTail(TrimTail(history, limit) + s, limit) == TrimTail(history + s, limit)
  {
    HeadIsStart(s);
    TrimTailIsIncremental(history, s, limit);
    ValidConcat(history, s);
  }

  /** Where to cut: not inside a rune. */
  method CutPoint(buf: Bytes, limit: int) returns (cut: nat)
    requires 0 < limit < |buf|
    ensures cut == Boundary(buf, |buf| - limit)
  {
    cut := |buf| - limit;
    while cut < |buf| && !RuneStart(buf[cut])
      invariant |buf| - limit <= cut <= |buf|
      invariant Boundary(buf, cut) == Boundary(buf, |buf| - limit)
    {
      cut := cut + 1;
    }
  }

  /** Appending pieces one by one. */
  function AppendAll(buf: Bytes, pieces: seq<Bytes>, limit: int): Bytes
    decreases |pieces|
  {
    if pieces == [] then buf else AppendAll(TrimTail(buf + pieces[0], limit), pieces[1..], limit)
  }

  /** However a text is cut into valid pieces, what remains is one cut of the whole. */
  lemma {:induction false} AppendAllIsOneTrim(history: Bytes, pieces: seq<Bytes>, limit: int)
    requires Valid(history) && forall p :: p in pieces ==> Valid(p)
    ensures AppendAll(TrimTail(history, limit), pieces, limit) == TrimTail(history + Flatten(pieces), limit)
    ensures Valid(TrimTail(history + Flatten(pieces), limit))
    decreases |pieces|
  {
    if pieces == [] {
      assert history + [] == history;
      TrimTailIsLongest(history, limit);
    } else {
      var longer := history + pieces[0];
      HeadIsStart(pieces[0]);
      TrimTailIsIncremental(history, pieces[0], limit);
      ValidConcat(history, pieces[0]);
      AppendAllIsOneTrim(longer, pieces[1..], limit);
      Associative(history, pieces[0], Flatten(pieces[1..]));
    }
  }

  lemma Associative(a: Bytes, b: Bytes, c: Bytes)
    ensures (a + b) + c == a + (b + c)
  {
  }

  // ----- runes cut by a read -----

  /** How many bytes the sequence led by `lead` has; a byte that leads nothing counts as one. */
  function RuneLenFor(lead: byte): nat {
    if lead < 0x80 then 1
    else if 0xC0 <= lead <= 0xDF then 2
    else if 0xE0 <= lead <= 0xEF then 3
    else if 0xF0 <= lead <= 0xF7 then 4
    else 1
  }

  function Scan(b: Bytes, back: nat): (n: nat)
    requires back >= 1
    ensures n <= |b| && n <= 3
    decreases 5 - back
  {
    if back > 4 || back > |b| then 0
    else if !RuneStart(b[|b| - back]) then Scan(b, back + 1)
    else if RuneLenFor(b[|b| - back]) > back then back
    else 0
  }

  /** incompleteTailLen */
  function IncompleteTail(b: Bytes): nat { Scan(b, 1) }

  method IncompleteTailLen(b: Bytes) returns (n: nat)
    ensures n == IncompleteTail(b)
  {
    var back := 1;
    while back <= 4 && back <= |b|
      invariant 1 <= back <= 5
      invariant Scan(b, back) == IncompleteTail(b)
    {
      var lead := b[|b| - back];
      if !RuneStart(lead) {
        back := back + 1;
        continue;
      }
      if RuneLenFor(lead) > back {
        return back;
      }
      return 0;
    }
    return 0;
  }

  /** What is held back is at most three bytes and is not a complete text. */
  lemma {:induction false} ScanIsShort(b: Bytes, back: nat)
    requires back >= 1
    ensures var n := Scan(b, back);
            && n <= |b| && n <= 3
            && (n > 0 ==> RuneLenFor(b[|b| - n]) > n && RuneStart(b[|b| - n]))
    decreases 5 - back
  {
    if back <= 4 && back <= |b| && !RuneStart(b[|b| - back]) { ScanIsShort(b, back + 1); }
  }

  lemma HeldBackIsIncomplete(p: Bytes)
    requires p != [] && RuneLenFor(p[0]) > |p|
    ensures !Valid(p)
  {
    if Valid(p) { LeadTellsLength(p[..RuneAt(p)]); }
  }

  lemma LeadTellsLength(r: Bytes)
    requires IsRune(r)
    ensures RuneLenFor(r[0]) == |r|
  {
  }

  /** The scan looks no further back than the first byte of a text that begins with a lead. */
  lemma {:induction false} ScanStaysInside(b: Bytes, t: Bytes, back: nat)
    requires 1 <= back <= |t| <= |b| && t == b[|b| - |t|..] && RuneStart(t[0])
    ensures Scan(b, back) == Scan(t, back)
    decreases 5 - back
  {
    assert b[|b| - back] == t[|t| - back];
    if back <= 4 && !RuneStart(t[|t| - back]) {
      assert back < |t|;
      ScanStaysInside(b, t, back + 1);
    }
  }

  /** Wherever a valid text is cut, exactly the beginning of an unfinished last rune is held
      back: what is emitted is whole runes, and what is held back is a proper part of the rune
      that goes on in what is still to come. */
  lemma ExactlyTheUnfinishedRuneWaits(complete: Bytes, held: Bytes, coming: Bytes)
    requires Valid(complete + held + coming) && |held| == IncompleteTail(complete + held)
    ensures Valid(complete) && Valid(held + coming)
    ensures held != [] ==> |held| < RuneAt(held + coming)
  {
    EmittedIsValid(complete, held, coming);
    Associative(complete, held, coming);
    ValidConcat(complete, held + coming);
    if held != [] {
      HeldLeadIsLonger(complete, held);
      RuneIsLonger(held + coming, |held|);
    }
  }

  lemma EmittedIsValid(complete: Bytes, held: Bytes, coming: Bytes)
    requires Valid(complete + held + coming) && |held| == IncompleteTail(complete + held)
    ensures Valid(complete)
  {
    var b := complete + held;
    CompletePartIsValid(b + coming, |b|);
    PrefixOfSum(b, coming);
    PrefixOfSum(complete, held);
  }

  lemma PrefixOfSum(a: Bytes, b: Bytes)
    ensures (a + b)[..|a|] == a
  {
  }

  lemma HeldLeadIsLonger(complete: Bytes, held: Bytes)
    requires held != [] && |held| == IncompleteTail(complete + held)
    ensures RuneLenFor(held[0]) > |held|
  {
    ScanIsShort(complete + held, 1);
  }

  lemma RuneIsLonger(rest: Bytes, n: nat)
    requires rest != [] && Valid(rest) && RuneLenFor(rest[0]) > n
    ensures n < RuneAt(rest)
  {
    LeadTellsLength(rest[..RuneAt(rest)]);
  }

  lemma {:induction false} CompletePartIsValid(whole: Bytes, k: nat)
    requires Valid(whole) && k <= |whole|
    ensures Valid(whole[..k][..k - IncompleteTail(whole[..k])])
    decreases |whole|
  {
    if k > 0 {
      if k < RuneAt(whole) {
        PartialRune(whole[..k], whole);
      } else {
        var n := RuneAt(whole);
        CompletePartIsValid(whole[n..], k - n);
        HeadIsStart(whole[n..]);
        BehindFirstRune(whole, n, k);
      }
    }
  }

  lemma BehindFirstRune(whole: Bytes, n: nat, k: nat)
    requires 0 < n <= k <= |whole| && IsRune(whole[..n])
    requires n < |whole| ==> RuneStart(whole[n..][0])
    requires Valid(whole[n..][..k - n][..k - n - IncompleteTail(whole[n..][..k - n])])
    ensures Valid(whole[..k][..k - IncompleteTail(whole[..k])])
  {
    SlicePastFirst(whole, n, k);
    PastFirstRune(whole[..k], whole[..n], whole[n..][..k - n]);
  }

  lemma SlicePastFirst(whole: Bytes, n: nat, k: nat)
    requires n <= k <= |whole|
    ensures whole[..k] == whole[..n] + whole[n..][..k - n]
    ensures k > n ==> whole[n..][..k - n][0] == whole[n..][0]
  {
  }

  /** The first rune changes nothing about what is held back behind it. */
  lemma PastFirstRune(b: Bytes, r: Bytes, tail: Bytes)
    requires b == r + tail && IsRune(r)
    requires tail != [] ==> RuneStart(tail[0])
    requires Valid(tail[..|tail| - IncompleteTail(tail)])
    ensures Valid(b[..|b| - IncompleteTail(b)])
  {
    if tail == [] {
      assert b == r;
      WholeRune(b);
      RuneIsFound(r, []);
      assert r + [] == r && b[..|b|] == b;
    } else {
      ScanStaysInside(b, tail, 1);
      var complete := tail[..|tail| - IncompleteTail(tail)];
      RuneIsFound(r, complete);
      assert b[..|b| - IncompleteTail(b)] == r + complete;
    }
  }

  /** A proper part of the first rune is held back altogether. */
  lemma PartialRune(b: Bytes, whole: Bytes)
    requires 0 < |b| < RuneAt(whole) && |b| <= |whole| && b == whole[..|b|]
    ensures IncompleteTail(b) == |b|
  {
    var r := whole[..RuneAt(whole)];
    RuneBytes(r);
    LeadTellsLength(r);
    assert forall i :: 0 <= i < |b| ==> b[i] == r[i];
    ScanToHead(b, 1);
  }

  lemma WholeRune(b: Bytes)
    requires IsRune(b)
    ensures IncompleteTail(b) == 0
  {
    RuneBytes(b);
    LeadTellsLength(b);
    ScanToHead(b, 1);
  }

  /** Over continuation bytes the scan walks to the lead. */
  lemma {:induction false} ScanToHead(b: Bytes, back: nat)
    requires 1 <= back <= |b| <= 4 && RuneStart(b[0]) && forall i :: 0 < i < |b| ==> IsTail(b[i])
    ensures Scan(b, back) == if RuneLenFor(b[0]) > |b| then |b| else 0
    decreases 5 - back
  {
    if back < |b| {
      assert IsTail(b[|b| - back]);
      ScanToHead(b, back + 1);
    }
  }

  // ----- one stream of the capture -----

  /** What has become of one stream: the bytes held back, the raw text handed on
      (history), and the text recorded for it. */
  datatype Lane = Lane(pending: Bytes, raw: Bytes, text: Bytes)

  function LaneWrite(l: Lane, chunk: Bytes): Lane {
    var buf := l.pending + chunk;
    var keep := IncompleteTail(buf);
    Lane(buf[|buf| - keep..], l.raw + buf[..|buf| - keep], l.text + ToValid(buf[..|buf| - keep]))
  }

  function LaneFlush(l: Lane): Lane {
    Lane([], l.raw + l.pending, l.text + ToValid(l.pending))
  }

  method CutTail(buf: Bytes) returns (complete: Bytes, rest: Bytes)
    ensures buf == complete + rest && |rest| == IncompleteTail(buf)
  {
    var keep := IncompleteTailLen(buf);
    Halves(buf, |buf| - keep);
    return buf[..|buf| - keep], buf[|buf| - keep..];
  }

  lemma Halves(buf: Bytes, k: nat)
    requires k <= |buf|
    ensures buf == buf[..k] + buf[k..]
  {
  }

  lemma LaneWriteCuts(l: Lane, chunk: Bytes, complete: Bytes, rest: Bytes)
    requires l.pending + chunk == complete + rest && |rest| == IncompleteTail(l.pending + chunk)
    ensures LaneWrite(l, chunk) == Lane(rest, l.raw + complete, l.text + ToValid(complete))
  {
    var buf := l.pending + chunk;
    assert (complete + rest)[..|complete|] == complete && (complete + rest)[|complete|..] == rest;
    assert |complete| == |buf| - IncompleteTail(buf);
  }

  /** Some continuation makes the bytes valid UTF-8. */
  ghost predicate Completable(s: Bytes) {
    exists whole :: Valid(whole) && |s| <= |whole| && s == whole[..|s|]
  }

  /** For arbitrary bytes nothing written is lost, repeated or reordered, at most three
      bytes wait, and everything recorded is valid; as long as the stream is the beginning
      of a valid text, what is recorded is what was written. */
  ghost predicate LaneOk(l: Lane, written: Bytes) {
    && l.raw + l.pending == written
    && |l.pending| <= 3
    && (l.pending != [] ==> RuneLenFor(l.pending[0]) > |l.pending|)
    && Valid(l.text)
    && (Completable(written) ==> Valid(l.raw) && l.text == l.raw)
  }

  lemma CompletablePrefix(a: Bytes, b: Bytes)
    requires Completable(a + b)
    ensures Completable(a)
  {
    var whole :| Valid(whole) && |a + b| <= |whole| && a + b == whole[..|a + b|];
    assert a == (a + b)[..|a|];
    assert a == whole[..|a|];
  }

  /** After a valid beginning the rest of a completable text is completable. */
  lemma CompletableRest(a: Bytes, b: Bytes)
    requires Completable(a + b) && Valid(a)
    ensures Completable(b)
  {
    var whole :| Valid(whole) && |a + b| <= |whole| && a + b == whole[..|a + b|];
    PrefixSplits(whole, a, b);
    ValidConcat(a, whole[|a|..]);
  }

  lemma PrefixSplits(whole: Bytes, a: Bytes, b: Bytes)
    requires |a + b| <= |whole| && a + b == whole[..|a + b|]
    ensures whole == a + whole[|a|..] && b == whole[|a|..][..|b|]
  {
    assert a == (a + b)[..|a|] && b == (a + b)[|a|..];
  }

  lemma CompleteTextOf(buf: Bytes)
    requires Completable(buf)
    ensures Valid(buf[..|buf| - IncompleteTail(buf)])
  {
    var whole :| Valid(whole) && |buf| <= |whole| && buf == whole[..|buf|];
    CompletePartIsValid(whole, |buf|);
  }

  /** Moving bytes from one end of a concatenation to the other. */
  lemma Regroup(raw: Bytes, pending: Bytes, chunk: Bytes, k: nat)
    requires k <= |pending + chunk|
    ensures raw + pending + chunk == raw + (pending + chunk)
    ensures (raw + (pending + chunk)[..k]) + (pending + chunk)[k..] == raw + pending + chunk
  {
    var buf := pending + chunk;
    assert buf == buf[..k] + buf[k..];
  }

  lemma LaneWriteKeepsBytes(l: Lane, written: Bytes, chunk: Bytes)
    requires LaneOk(l, written)
    ensures var m := LaneWrite(l, chunk);
            && m.raw + m.pending == written + chunk
            && |m.pending| <= 3
            && (m.pending != [] ==> RuneLenFor(m.pending[0]) > |m.pending|)
            && Valid(m.text)
  {
    var buf := l.pending + chunk;
    var k := |buf| - IncompleteTail(buf);
    Halves(buf, k);
    LaneWriteCuts(l, chunk, buf[..k], buf[k..]);
    HeldBack(buf, k);
    CleanedText(l.text, buf[..k]);
    BytesAreConserved(l.raw, l.pending, chunk, buf[..k], buf[k..]);
  }

  lemma BytesAreConserved(raw: Bytes, pending: Bytes, chunk: Bytes, complete: Bytes, rest: Bytes)
    requires pending + chunk == complete + rest
    ensures (raw + complete) + rest == (raw + pending) + chunk
  {
    Associative(raw, complete, rest);
    Associative(raw, pending, chunk);
  }

  lemma HeldBack(buf: Bytes, k: nat)
    requires k == |buf| - IncompleteTail(buf)
    ensures |buf[k..]| <= 3
    ensures buf[k..] != [] ==> RuneLenFor(buf[k..][0]) > |buf[k..]|
  {
    ScanIsShort(buf, 1);
  }

  lemma CleanedText(text: Bytes, more: Bytes)
    requires Valid(text)
    ensures Valid(text + ToValid(more))
  {
    ToValidIsIdentityOnValid(more);
    ValidConcat(text, ToValid(more));
  }

  lemma LaneWriteKeepsText(l: Lane, written: Bytes, chunk: Bytes)
    requires LaneOk(l, written) && Completable(written + chunk)
    ensures var m := LaneWrite(l, chunk);
            Valid(m.raw) && m.text == m.raw
  {
    var buf := l.pending + chunk;
    CompletablePrefix(written, chunk);
    Regroup(l.raw, l.pending, chunk, |buf|);
    CompletableRest(l.raw, buf);
    CompleteTextOf(buf);
    var complete := buf[..|buf| - IncompleteTail(buf)];
    ToValidIsIdentityOnValid(complete);
    ValidConcat(l.raw, complete);
  }

  lemma LaneWriteKeepsOk(l: Lane, written: Bytes, chunk: Bytes)
    requires LaneOk(l, written)
    ensures LaneOk(LaneWrite(l, chunk), written + chunk)
  {
    LaneWriteKeepsBytes(l, written, chunk);
    if Completable(written + chunk) { LaneWriteKeepsText(l, written, chunk); }
  }

  /** When a stream ends as a valid text nothing waits, and the record is the stream. */
  lemma ValidStreamIsComplete(l: Lane, written: Bytes)
    requires LaneOk(l, written) && Valid(written)
    ensures l.pending == [] && l.text == written
  {
    assert written == written[..|written|];
    assert Completable(written);
    ValidConcat(l.raw, l.pending);
    if l.pending != [] { HeldBackIsIncomplete(l.pending); }
    assert l.raw + [] == l.raw;
  }

  lemma LaneFlushKeepsText(l: Lane, written: Bytes)
    requires LaneOk(l, written)
    ensures var m := LaneFlush(l);
            m.raw == written && Valid(m.text) && (Valid(written) ==> m.text == written)
  {
    ToValidIsIdentityOnValid(l.pending);
    ValidConcat(l.text, ToValid(l.pending));
    if Valid(written) {
      ValidStreamIsComplete(l, written);
      assert l.text + [] == l.text;
    }
  }

  // ----- streamCapture -----

  datatype Stream = Stdout | Stderr

  datatype Chunk = Chunk(stream: Stream, text: Bytes)

  /** One value per stream. */
  datatype Both = Both(out: Bytes, err: Bytes) {
    function Of(st: Stream): Bytes { if st == Stderr then err else out }

    function With(st: Stream, b: Bytes): Both { if st == Stderr then this.(err := b) else this.(out := b) }

    function Plus(c: Chunk): Both { With(c.stream, Of(c.stream) + c.text) }
  }

  lemma PlusNothing(b: Both, st: Stream)
    ensures b.Plus(Chunk(st, [])) == b
  {
    assert b.Of(st) + [] == b.Of(st);
  }

  /** The texts of each stream, in order. */
  function TextsOf(chunks: seq<Chunk>): Both
    decreases |chunks|
  {
    if chunks == [] then Both([], []) else TextsOf(chunks[..|chunks| - 1]).Plus(chunks[|chunks| - 1])
  }

  lemma TextsOfAppended(chunks: seq<Chunk>, c: Chunk)
    ensures TextsOf(chunks + [c]) == TextsOf(chunks).Plus(c)
  {
    assert (chunks + [c])[..|chunks|] == chunks;
  }

  /** At most one chunk, of this stream, has been added. */
  ghost predicate Grows(sink: seq<Chunk>, before: seq<Chunk>, st: Stream) {
    sink == before || (|sink| == |before| + 1 && sink[..|before|] == before && sink[|before|].stream == st)
  }

  /** The chunks are in the order of the pieces: each piece has brought at most one, of its
      own stream. */
  ghost predicate Arrives(log: seq<Chunk>, pieces: seq<Chunk>)
    decreases |pieces|
  {
    if pieces == [] then log == []
    else
      var n := |pieces| - 1;
      Arrives(log, pieces[..n])
      || (log != [] && log[|log| - 1].stream == pieces[n].stream && Arrives(log[..|log| - 1], pieces[..n]))
  }

  lemma OneMoreArrives(log: seq<Chunk>, pieces: seq<Chunk>, c: Chunk, more: seq<Chunk>)
    requires Arrives(log, pieces) && Grows(more, log, c.stream)
    ensures Arrives(more, pieces + [c])
  {
    assert (pieces + [c])[..|pieces|] == pieces;
  }

  class StreamCapture {
    const stdout: TailBuffer
    const stderr: TailBuffer
    const hasSink: bool
    /** the held-back bytes; a stream without an entry holds none */
    var pending: Both
    var sealed: bool
    /** what the sink has been handed, in order; nothing if there is none */
    var sink: seq<Chunk>
    /** history: the raw text handed to emit, and the bytes accepted before sealing */
    ghost var raw: Both
    ghost var written: Both

    ghost function Recorded(): Both
      reads stdout, stderr
    {
      Both(stdout.history, stderr.history)
    }

    ghost function LaneOf(st: Stream): Lane
      reads this`pending, this`raw, stdout, stderr
    {
      Lane(pending.Of(st), raw.Of(st), Recorded().Of(st))
    }

    /** The buffers hold the trimmed record, and the sink has got exactly the record. */
    ghost predicate Consistent()
      reads this`sink, stdout, stderr
    {
      && stdout != stderr && stdout.limit == stderr.limit
      && stdout.IsTrimmed() && stderr.IsTrimmed()
      && (if hasSink then TextsOf(sink) == Recorded() else sink == [])
    }

    ghost predicate LanesOk()
      reads this, stdout, stderr
    {
      LaneOk(LaneOf(Stdout), written.out) && LaneOk(LaneOf(Stderr), written.err)
    }

    constructor (tailBytes: int, hasSink: bool)
      ensures Consistent() && LanesOk() && !sealed && stdout.limit == tailBytes && this.hasSink == hasSink
      ensures written == Both([], []) && sink == []
      ensures fresh(stdout) && fresh(stderr)
    {
      stdout := new TailBuffer(tailBytes);
      stderr := new TailBuffer(tailBytes);
      this.hasSink := hasSink;
      pending := Both([], []);
      sealed := false;
      sink := [];
      raw := Both([], []);
      written := Both([], []);
    }

    /** Records text for the buffer and for the sink alike. */
    method Emit(st: Stream, text: Bytes)
      requires Consistent()
      modifies this`sink, this`raw, stdout, stderr
      ensures Consistent()
      ensures raw == old(raw).Plus(Chunk(st, text))
      ensures Recorded() == old(Recorded()).Plus(Chunk(st, ToValid(text)))
      ensures sink == if hasSink && text != [] then old(sink) + [Chunk(st, ToValid(text))] else old(sink)
    {
      raw := raw.Plus(Chunk(st, text));
      if text == [] {
        PlusNothing(old(raw), st);
        PlusNothing(Recorded(), st);
        return;
      }
      var clean := ToValid(text);
      ToValidIsIdentityOnValid(text);
      if st == Stderr {
        stderr.Append(clean);
      } else {
        stdout.Append(clean);
      }
      if hasSink {
        TextsOfAppended(sink, Chunk(st, clean));
        sink := sink + [Chunk(st, clean)];
      }
    }

    /** A write to one stream; once sealed, writes change nothing. */
    method Write(st: Stream, chunk: Bytes)
      requires Consistent() && (!sealed ==> LanesOk())
      modifies this`pending, this`sink, this`raw, this`written, stdout, stderr
      ensures Consistent()
      ensures old(sealed) ==> written == old(written) && sink == old(sink)
                              && stdout.buf == old(stdout.buf) && stderr.buf == old(stderr.buf)
      ensures !old(sealed) ==> LanesOk() && written == old(written).Plus(Chunk(st, chunk))
      ensures Grows(sink, old(sink), st)
    {
      if chunk == [] {
        PlusNothing(written, st);
        return;
      }
      if sealed {
        return;
      }
      Accept(st, chunk);
    }

    method Accept(st: Stream, chunk: Bytes)
      requires Consistent() && LanesOk()
      modifies this`pending, this`sink, this`raw, this`written, stdout, stderr
      ensures Consistent() && LanesOk() && written == old(written).Plus(Chunk(st, chunk))
      ensures Grows(sink, old(sink), st)
    {
      LaneWriteKeepsOk(LaneOf(st), written.Of(st), chunk);
      Take(st, chunk);
      written := written.Plus(Chunk(st, chunk));
    }

    /** The part of a write behind its guards. */
    method Take(st: Stream, chunk: Bytes)
      requires Consistent()
      modifies this`pending, this`sink, this`raw, stdout, stderr
      ensures Consistent()
      ensures LaneOf(st) == LaneWrite(old(LaneOf(st)), chunk)
      ensures forall o :: o != st ==> LaneOf(o) == old(LaneOf(o))
      ensures Grows(sink, old(sink), st)
    {
      var complete, rest := CutTail(pending.Of(st) + chunk);
      ghost var l := LaneOf(st);
      LaneWriteCuts(l, chunk, complete, rest);
      Split(st, complete, rest);
    }

    /** What is complete is emitted, the rest waits. */
    method Split(st: Stream, complete: Bytes, rest: Bytes)
      requires Consistent()
      modifies this`pending, this`sink, this`raw, stdout, stderr
      ensures Consistent()
      ensures var l := old(LaneOf(st)); LaneOf(st) == Lane(rest, l.raw + complete, l.text + ToValid(complete))
      ensures forall o :: o != st ==> LaneOf(o) == old(LaneOf(o))
      ensures Grows(sink, old(sink), st)
    {
      pending := pending.With(st, rest);
      Emit(st, complete);
    }

    /** Gives up waiting for the rest of a cut rune on one stream. */
    method Flush(st: Stream)
      requires Consistent()
      modifies this`pending, this`sink, this`raw, stdout, stderr
      ensures Consistent()
      ensures LaneOf(st) == LaneFlush(old(LaneOf(st)))
      ensures forall o :: o != st ==> LaneOf(o) == old(LaneOf(o))
      ensures Grows(sink, old(sink), st)
    {
      var leftover := pending.Of(st);
      if |leftover| > 0 {
        Split(st, leftover, []);
      } else {
        PlusNothing(raw, st);
        PlusNothing(Recorded(), st);
      }
    }

    /** result: seals the capture. Map iteration order decides which stream is flushed
        first. A stream that is a complete valid text is recorded as it was written; its
        result is the longest rune-aligned end of it that the cap allows. */
    method Result(stderrFirst: bool) returns (out: Bytes, errOut: Bytes)
      requires Consistent() && !sealed && LanesOk()
      modifies this, stdout, stderr
      ensures Consistent() && sealed && written == old(written) && raw == written
      ensures out == TrimTail(Recorded().out, stdout.limit) && errOut == TrimTail(Recorded().err, stdout.limit)
      ensures Valid(written.out) ==> Recorded().out == written.out
      ensures Valid(written.err) ==> Recorded().err == written.err
      ensures |old(sink)| <= |sink| <= |old(sink)| + 2 && sink[..|old(sink)|] == old(sink)
    {
      LaneFlushKeepsText(LaneOf(Stdout), written.out);
      LaneFlushKeepsText(LaneOf(Stderr), written.err);
      GiveUpWaiting(stderrFirst);
      sealed := true;
      return stdout.buf, stderr.buf;
    }

    method GiveUpWaiting(stderrFirst: bool)
      requires Consistent()
      modifies this`pending, this`sink, this`raw, stdout, stderr
      ensures Consistent()
      ensures LaneOf(Stdout) == LaneFlush(old(LaneOf(Stdout)))
      ensures LaneOf(Stderr) == LaneFlush(old(LaneOf(Stderr)))
      ensures |old(sink)| <= |sink| <= |old(sink)| + 2 && sink[..|old(sink)|] == old(sink)
    {
      if stderrFirst {
        Flush(Stderr);
        Flush(Stdout);
      } else {
        Flush(Stdout);
        Flush(Stderr);
      }
    }
  }
}
