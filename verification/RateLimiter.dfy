/** The fixed-window rate limiter: one window per key, swept lazily. */
module RateLimiter {

  datatype Option<T> = None | Some(value: T)

  datatype Window = Window(count: nat, start: int)

  /** One request and its answer. */
  datatype Request = Request(key: string, time: int, allowed: bool)

  // ----- what the limiter should answer -----

  /** A request opens a new window when the last one is a window length old, and is counted
      in it otherwise. */
  function Next(before: Option<Window>, time: int, length: int): Window {
    if before == None || time - before.value.start >= length then Window(1, time)
    else Window(before.value.count + 1, before.value.start)
  }

  /** A key's window after a history, if nothing were ever swept. */
  function WindowOf(log: seq<Request>, key: string, length: int): Option<Window>
    decreases |log|
  {
    if log == [] then None
    else
      var last := log[|log| - 1];
      var before := WindowOf(log[..|log| - 1], key, length);
      if last.key == key then Some(Next(before, last.time, length)) else before
  }

  predicate CountsAsAllowed(w: Option<Window>, limit: int) { w.Some? && w.value.count <= limit }

  ghost predicate InOrder(log: seq<Request>) {
    forall i, j :: 0 <= i < j < |log| ==> log[i].time <= log[j].time
  }

  /** Every answer is that of a limiter that never sweeps. */
  ghost predicate Faithful(log: seq<Request>, limit: int, length: int) {
    forall i {:trigger log[i]} :: 0 <= i < |log| ==>
      (log[i].allowed <==> CountsAsAllowed(WindowOf(log[..i + 1], log[i].key, length), limit))
  }

  /** The requests of one key. */
  function Only(log: seq<Request>, key: string): seq<Request>
    decreases |log|
  {
    if log == [] then []
    else Only(log[..|log| - 1], key) + (if log[|log| - 1].key == key then [log[|log| - 1]] else [])
  }

  /** What other keys do makes no difference. */
  lemma {:induction false} KeysAreIndependent(log: seq<Request>, key: string, length: int)
    ensures WindowOf(Only(log, key), key, length) == WindowOf(log, key, length)
    decreases |log|
  {
    if log != [] {
      var init, last := log[..|log| - 1], log[|log| - 1];
      KeysAreIndependent(init, key, length);
      if last.key == key {
        assert Only(log, key)[..|Only(log, key)| - 1] == Only(init, key);
      } else {
        assert Only(log, key) == Only(init, key);
      }
    }
  }

  // ----- how much gets through -----

  /** How many requests of a key were allowed at times from `from` up to, not including, `to`. */
  function AllowedIn(log: seq<Request>, key: string, from: int, to: int): nat
    decreases |log|
  {
    if log == [] then 0
    else
      var last := log[|log| - 1];
      AllowedIn(log[..|log| - 1], key, from, to) + (if last.key == key && last.allowed && from <= last.time < to then 1 else 0)
  }

  function Cap(limit: int): nat { if limit <= 0 then 0 else limit }

  function AtMost(n: nat, limit: int): nat { if n <= Cap(limit) then n else Cap(limit) }

  /** What the current window says about what got through since `from`. The request that
      opened a window earlier than that is not among it; a window opened since has at most
      one before it. */
  predicate Accounts(window: Option<Window>, allowed: nat, limit: int, length: int, from: int) {
    match window
    case None => allowed == 0
    case Some(w) =>
      && w.count > 0
      && if w.start < from then allowed <= AtMost(w.count - 1, limit - 1)
         else if w.start < from + length then allowed <= Cap(limit - 1) + AtMost(w.count, limit)
         else allowed <= Cap(limit - 1) + Cap(limit)
  }

  lemma NextAccounts(before: Option<Window>, allowed: nat, time: int, limit: int, length: int, from: int)
    requires Accounts(before, allowed, limit, length, from)
    requires time < from ==> allowed == 0
    requires before.Some? ==> before.value.start <= time
    ensures var w := Next(before, time, length);
            var more := if w.count <= limit && from <= time < from + length then 1 else 0;
            Accounts(Some(w), allowed + more, limit, length, from)
  {
  }

  lemma {:induction false} NoneYet(log: seq<Request>, key: string, from: int, to: int)
    requires forall i :: 0 <= i < |log| ==> log[i].time < from
    ensures AllowedIn(log, key, from, to) == 0
    decreases |log|
  {
    if log != [] { NoneYet(log[..|log| - 1], key, from, to); }
  }

  lemma {:induction false} WindowsAccount(log: seq<Request>, key: string, limit: int, length: int, from: int)
    requires InOrder(log) && Faithful(log, limit, length)
    ensures Accounts(WindowOf(log, key, length), AllowedIn(log, key, from, from + length), limit, length, from)
    decreases |log|
  {
    if log != [] {
      var init, last := log[..|log| - 1], log[|log| - 1];
      FaithfulPrefix(log, limit, length);
      WindowsAccount(init, key, limit, length, from);
      if last.key == key {
        WindowIsPast(log, key, length);
        if last.time < from { NoneYet(init, key, from, from + length); }
        NextAccounts(WindowOf(init, key, length), AllowedIn(init, key, from, from + length), last.time, limit, length, from);
      }
    }
  }

  lemma {:induction false} WindowIsPast(log: seq<Request>, key: string, length: int)
    requires log != [] && InOrder(log)
    ensures var before := WindowOf(log[..|log| - 1], key, length);
            before.Some? ==> before.value.start <= log[|log| - 1].time
    decreases |log|
  {
    var init := log[..|log| - 1];
    if init != [] {
      WindowIsPast(init, key, length);
      assert log[|log| - 2].time <= log[|log| - 1].time;
    }
  }

  lemma FaithfulPrefix(log: seq<Request>, limit: int, length: int)
    requires log != [] && InOrder(log) && Faithful(log, limit, length)
    ensures var init, last := log[..|log| - 1], log[|log| - 1];
            && InOrder(init) && Faithful(init, limit, length)
            && (last.allowed <==> CountsAsAllowed(WindowOf(log, last.key, length), limit))
  {
    var init := log[..|log| - 1];
    assert forall i {:trigger init[i]} :: 0 <= i < |init| ==> init[i] == log[i] && init[..i + 1] == log[..i + 1];
    assert log[..|log| - 1 + 1] == log;
  }

  /** In any stretch of one window length at most twice the limit gets through, less the
      request that opened the earlier window. */
  lemma AtMostTwiceTheLimit(log: seq<Request>, key: string, limit: int, length: int, from: int)
    requires InOrder(log) && Faithful(log, limit, length)
    ensures AllowedIn(log, key, from, from + length) <= Cap(limit - 1) + Cap(limit)
  {
    WindowsAccount(log, key, limit, length, from);
  }

  /** A history of right answers up to `time` with this window open, in which so many requests
      since `from` got through. */
  ghost predicate StandsAt(log: seq<Request>, key: string, limit: int, length: int, from: int, time: int, w: Window, allowed: nat) {
    && InOrder(log) && Faithful(log, limit, length)
    && (log != [] ==> log[|log| - 1].time <= time)
    && WindowOf(log, key, length) == Some(w)
    && AllowedIn(log, key, from, from + length) == allowed
  }

  lemma OneMoreInOrder(log: seq<Request>, r: Request)
    requires InOrder(log) && (log != [] ==> log[|log| - 1].time <= r.time)
    ensures InOrder(log + [r])
  {
    var more := log + [r];
    assert forall i :: 0 <= i < |log| ==> more[i] == log[i] && (i < |log| - 1 ==> log[i].time <= log[|log| - 1].time);
  }

  /** A request that is let through. */
  lemma OneMoreAllowed(log: seq<Request>, key: string, limit: int, length: int, from: int, time: int, w: Window, allowed: nat)
    requires StandsAt(log, key, limit, length, from, time, w, allowed)
    requires from <= time < from + length
    requires Next(Some(w), time, length).count <= limit
    ensures StandsAt(log + [Request(key, time, true)], key, limit, length, from, time, Next(Some(w), time, length), allowed + 1)
  {
    var r := Request(key, time, true);
    WindowOfAppended(log, r, key, length);
    OneMoreAnswer(log, r, limit, length);
    OneMoreInOrder(log, r);
    assert (log + [r])[..|log|] == log;
  }

  /** `n` more requests at one time, all within the window that is open. */
  lemma {:induction false} Burst(log: seq<Request>, key: string, limit: int, length: int, from: int, time: int, w: Window, allowed: nat, n: nat)
      returns (more: seq<Request>)
    requires StandsAt(log, key, limit, length, from, time, w, allowed)
    requires from <= time < from + length && time - w.start < length && w.count + n <= limit
    ensures StandsAt(more, key, limit, length, from, time, Window(w.count + n, w.start), allowed + n)
    decreases n
  {
    more := log;
    if n > 0 {
      var next := Window(w.count + 1, w.start);
      assert Next(Some(w), time, length) == next;
      OneMoreAllowed(log, key, limit, length, from, time, w, allowed);
      more := Burst(log + [Request(key, time, true)], key, limit, length, from, time, next, allowed + 1, n - 1);
    }
  }

  lemma FirstRequest(key: string, limit: int, length: int, from: int, time: int)
    requires limit >= 1 && 0 < from <= time
    ensures StandsAt([Request(key, 0, true)], key, limit, length, from, time, Window(1, 0), 0)
  {
    var first := Request(key, 0, true);
    assert [] + [first] == [first];
    WindowOfAppended([], first, key, length);
    OneMoreAnswer([], first, limit, length);
    NoneYet([first], key, from, from + length);
  }

  /** So many can really get through: one early in a window, the rest of its share late,
      and the next window's share at once. */
  lemma BoundIsReached(key: string, limit: int, length: int) returns (log: seq<Request>, from: int)
    requires limit >= 1 && length >= 2
    ensures InOrder(log) && Faithful(log, limit, length)
    ensures AllowedIn(log, key, from, from + length) == Cap(limit - 1) + Cap(limit)
  {
    from := length - 1;
    FirstRequest(key, limit, length, from, from);
    log := Burst([Request(key, 0, true)], key, limit, length, from, from, Window(1, 0), 0, limit - 1);
    OneMoreAllowed(log, key, limit, length, from, length, Window(limit, 0), limit - 1);
    log := Burst(log + [Request(key, length, true)], key, limit, length, from, length, Window(1, length), limit, limit - 1);
  }

  // ----- the limiter as it sweeps -----

  /** The windows the limiter still has, and the time of its last sweep. */
  datatype Kept = Kept(windows: map<string, Window>, lastSweep: int)

  /** Drops the windows that are a window length old. */
  function Swept(windows: map<string, Window>, length: int, now: int): map<string, Window> {
    map k | k in windows && now - windows[k].start < length :: windows[k]
  }

  /** The window that a request is counted in. */
  function Current(windows: map<string, Window>, key: string, length: int, now: int): Window {
    var w := if key in windows && now - windows[key].start < length then windows[key] else Window(0, now);
    w.(count := w.count + 1)
  }

  function AfterSweep(k: Kept, length: int, now: int): Kept {
    if now - k.lastSweep >= length then Kept(Swept(k.windows, length, now), now) else k
  }

  function AfterRequest(k: Kept, key: string, length: int, now: int): Kept {
    var swept := AfterSweep(k, length, now);
    swept.(windows := swept.windows[key := Current(swept.windows, key, length, now)])
  }

  /** What the limiter has after a history, in whatever order its times are. */
  function KeptAfter(log: seq<Request>, length: int, epoch: int): Kept
    decreases |log|
  {
    if log == [] then Kept(map[], epoch)
    else AfterRequest(KeptAfter(log[..|log| - 1], length, epoch), log[|log| - 1].key, length, log[|log| - 1].time)
  }

  /** What the last request of a history is counted as. */
  function CountOfLast(log: seq<Request>, length: int, epoch: int): nat
    requires log != []
  {
    var before := AfterSweep(KeptAfter(log[..|log| - 1], length, epoch), length, log[|log| - 1].time);
    Current(before.windows, log[|log| - 1].key, length, log[|log| - 1].time).count
  }

  /** What a limiter that never sweeps would count it as. */
  function UnsweptCountOfLast(log: seq<Request>, length: int): nat
    requires log != []
  {
    Next(WindowOf(log[..|log| - 1], log[|log| - 1].key, length), log[|log| - 1].time, length).count
  }

  ghost predicate AnswersAgree(log: seq<Request>, length: int, epoch: int, limit: int) {
    forall i {:trigger log[..i]} :: 1 <= i <= |log| ==>
      (CountOfLast(log[..i], length, epoch) <= limit <==> UnsweptCountOfLast(log[..i], length) <= limit)
  }

  // ----- exactly when sweeping shows -----

  /** The time of the last sweep; it follows from the times of the requests. */
  function LastSweep(log: seq<Request>, length: int, epoch: int): int
    decreases |log|
  {
    if log == [] then epoch
    else
      var before, now := LastSweep(log[..|log| - 1], length, epoch), log[|log| - 1].time;
      if now - before >= length then now else before
  }

  predicate SweepsAt(log: seq<Request>, m: nat, length: int, epoch: int)
    requires m < |log|
  {
    log[m].time - LastSweep(log[..m], length, epoch) >= length
  }

  /** The request that opened a key's window, -1 if there is none; it, too, follows from the
      keys and times. */
  function OpenedAt(log: seq<Request>, key: string, length: int): (o: int)
    ensures -1 <= o < |log|
    decreases |log|
  {
    if log == [] then -1
    else
      var o, last := OpenedAt(log[..|log| - 1], key, length), log[|log| - 1];
      if last.key == key && (o == -1 || last.time - log[o].time >= length) then |log| - 1 else o
  }

  lemma {:induction false} OpenedAtIsStart(log: seq<Request>, key: string, length: int)
    ensures var o, w := OpenedAt(log, key, length), WindowOf(log, key, length);
            (w == None <==> o == -1) && (w.Some? ==> w.value.start == log[o].time && w.value.count > 0)
    decreases |log|
  {
    if log != [] { OpenedAtIsStart(log[..|log| - 1], key, length); }
  }

  /** A sweep has come to a key's window after it was opened and past its end. */
  ghost predicate IsSwept(log: seq<Request>, key: string, length: int, epoch: int) {
    var o := OpenedAt(log, key, length);
    o >= 0 && exists m {:trigger SweepsAt(log, m, length, epoch)} ::
      o < m < |log| && SweepsAt(log, m, length, epoch) && log[m].time - log[o].time >= length
  }

  /** Request `i` goes back to before the end of a window that has been swept: a condition on
      the keys and times of the requests alone. */
  ghost predicate GoesBack(log: seq<Request>, i: nat, length: int, epoch: int)
    requires i < |log|
  {
    var o := OpenedAt(log[..i], log[i].key, length);
    o >= 0 && log[i].time - log[o].time < length && IsSwept(log[..i], log[i].key, length, epoch)
  }

  /** The limiter has exactly the windows that have not been swept, as they would be. */
  ghost predicate Represents(log: seq<Request>, key: string, length: int, epoch: int) {
    var w, windows := WindowOf(log, key, length), KeptAfter(log, length, epoch).windows;
    && (key in windows <==> w.Some? && !IsSwept(log, key, length, epoch))
    && (key in windows ==> w == Some(windows[key]))
  }

  ghost predicate Tracks(log: seq<Request>, length: int, epoch: int) {
    forall key {:trigger Represents(log, key, length, epoch)} :: Represents(log, key, length, epoch)
  }

  lemma {:induction false} LastSweepIsKept(log: seq<Request>, length: int, epoch: int)
    ensures KeptAfter(log, length, epoch).lastSweep == LastSweep(log, length, epoch)
    decreases |log|
  {
    if log != [] { LastSweepIsKept(log[..|log| - 1], length, epoch); }
  }

  /** A later request can only add a sweep of its own. */
  lemma SweptByOneMore(log: seq<Request>, r: Request, key: string, length: int, epoch: int)
    requires OpenedAt(log + [r], key, length) == OpenedAt(log, key, length) >= 0
    ensures var o, more := OpenedAt(log, key, length), log + [r];
            IsSwept(more, key, length, epoch) <==>
              IsSwept(log, key, length, epoch) || (SweepsAt(more, |log|, length, epoch) && r.time - log[o].time >= length)
  {
    var more, o := log + [r], OpenedAt(log, key, length);
    forall m | 0 <= m < |log| ensures SweepsAt(more, m, length, epoch) <==> SweepsAt(log, m, length, epoch) {
      assert more[..m] == log[..m];
    }
    if IsSwept(log, key, length, epoch) {
      var m :| o < m < |log| && SweepsAt(log, m, length, epoch) && log[m].time - log[o].time >= length;
      assert SweepsAt(more, m, length, epoch) && more[m] == log[m];
    }
    if IsSwept(more, key, length, epoch) {
      var m :| o < m < |more| && SweepsAt(more, m, length, epoch) && more[m].time - more[o].time >= length;
      if m < |log| { assert SweepsAt(log, m, length, epoch); }
    }
  }

  lemma OpenedByOneMore(log: seq<Request>, r: Request, key: string, length: int)
    ensures var o := OpenedAt(log, key, length);
            OpenedAt(log + [r], key, length)
            == if r.key == key && (o == -1 || r.time - log[o].time >= length) then |log| else o
    ensures WindowOf(log + [r], key, length)
         == if r.key == key then Some(Next(WindowOf(log, key, length), r.time, length)) else WindowOf(log, key, length)
  {
    assert (log + [r])[..|log|] == log;
  }

  lemma KeptByOneMore(log: seq<Request>, r: Request, length: int, epoch: int)
    ensures KeptAfter(log + [r], length, epoch) == AfterRequest(KeptAfter(log, length, epoch), r.key, length, r.time)
    ensures CountOfLast(log + [r], length, epoch)
         == Current(AfterSweep(KeptAfter(log, length, epoch), length, r.time).windows, r.key, length, r.time).count
    ensures UnsweptCountOfLast(log + [r], length) == Next(WindowOf(log, r.key, length), r.time, length).count
    ensures SweepsAt(log + [r], |log|, length, epoch) <==> r.time - KeptAfter(log, length, epoch).lastSweep >= length
  {
    assert (log + [r])[..|log|] == log;
    LastSweepIsKept(log, length, epoch);
  }

  /** Other keys' windows are swept or kept alike on both sides. */
  lemma OtherKeyStays(log: seq<Request>, r: Request, key: string, length: int, epoch: int)
    requires Represents(log, key, length, epoch) && key != r.key
    ensures Represents(log + [r], key, length, epoch)
  {
    OpenedByOneMore(log, r, key, length);
    KeptByOneMore(log, r, length, epoch);
    OpenedAtIsStart(log, key, length);
    if OpenedAt(log, key, length) >= 0 { SweptByOneMore(log, r, key, length, epoch); }
  }

  /** A request that does not go back is counted alike, and its window is there afterwards. */
  lemma OwnKeyStays(log: seq<Request>, r: Request, length: int, epoch: int)
    requires Represents(log, r.key, length, epoch) && !GoesBack(log + [r], |log|, length, epoch)
    ensures Represents(log + [r], r.key, length, epoch)
    ensures CountOfLast(log + [r], length, epoch) == UnsweptCountOfLast(log + [r], length)
  {
    var more := log + [r];
    assert more[..|log|] == log;
    OpenedByOneMore(log, r, r.key, length);
    KeptByOneMore(log, r, length, epoch);
    OpenedAtIsStart(log, r.key, length);
    var o := OpenedAt(log, r.key, length);
    if o >= 0 && r.time - log[o].time < length {
      SweptByOneMore(log, r, r.key, length, epoch);
    }
  }

  /** A request that goes back is counted as the first of a window, and would not be. */
  lemma GoingBackShows(log: seq<Request>, r: Request, length: int, epoch: int)
    requires Represents(log, r.key, length, epoch) && GoesBack(log + [r], |log|, length, epoch)
    ensures CountOfLast(log + [r], length, epoch) == 1 < UnsweptCountOfLast(log + [r], length)
  {
    assert (log + [r])[..|log|] == log;
    KeptByOneMore(log, r, length, epoch);
    OpenedAtIsStart(log, r.key, length);
  }

  ghost predicate NobodyGoesBack(log: seq<Request>, length: int, epoch: int) {
    forall i {:trigger GoesBack(log, i, length, epoch)} :: 0 <= i < |log| ==> !GoesBack(log, i, length, epoch)
  }

  lemma GoesBackInPrefix(log: seq<Request>, n: nat, i: nat, length: int, epoch: int)
    requires i < n <= |log|
    ensures GoesBack(log[..n], i, length, epoch) <==> GoesBack(log, i, length, epoch)
  {
    assert log[..n][..i] == log[..i];
  }

  /** As long as nobody goes back every count is that of a limiter that never sweeps. */
  lemma {:induction false} InStepIsTracked(log: seq<Request>, length: int, epoch: int)
    requires NobodyGoesBack(log, length, epoch)
    ensures Tracks(log, length, epoch)
    ensures forall i {:trigger log[..i]} :: 1 <= i <= |log| ==>
              CountOfLast(log[..i], length, epoch) == UnsweptCountOfLast(log[..i], length)
    decreases |log|
  {
    if log == [] {
      forall key ensures Represents(log, key, length, epoch) { }
    } else {
      var n := |log| - 1;
      var init, r := log[..n], log[n];
      assert log == init + [r];
      forall i | 0 <= i < n ensures !GoesBack(init, i, length, epoch) { GoesBackInPrefix(log, n, i, length, epoch); }
      InStepIsTracked(init, length, epoch);
      assert Represents(init, r.key, length, epoch) && !GoesBack(log, n, length, epoch);
      OwnKeyStays(init, r, length, epoch);
      forall key ensures Represents(log, key, length, epoch) {
        assert Represents(init, key, length, epoch);
        if key != r.key { OtherKeyStays(init, r, key, length, epoch); }
      }
      forall i {:trigger log[..i]} | 1 <= i <= |log|
        ensures CountOfLast(log[..i], length, epoch) == UnsweptCountOfLast(log[..i], length)
      {
        if i <= n { assert log[..i] == init[..i]; } else { assert log[..i] == log; }
      }
    }
  }

  /** The first request that goes back is counted differently. */
  lemma FirstOneShows(log: seq<Request>, i: nat, length: int, epoch: int)
    requires i < |log| && GoesBack(log, i, length, epoch)
    requires forall j :: 0 <= j < i ==> !GoesBack(log, j, length, epoch)
    ensures CountOfLast(log[..i + 1], length, epoch) == 1 < UnsweptCountOfLast(log[..i + 1], length)
  {
    var before := log[..i];
    forall j | 0 <= j < i ensures !GoesBack(before, j, length, epoch) { GoesBackInPrefix(log, i, j, length, epoch); }
    InStepIsTracked(before, length, epoch);
    assert log[..i + 1] == before + [log[i]];
    assert Represents(before, log[i].key, length, epoch);
    GoesBackInPrefix(log, i + 1, i, length, epoch);
    GoingBackShows(before, log[i], length, epoch);
  }

  /** Exactly when sweeping shows, for every history in whatever order of times: the answers
      are those of a limiter that never sweeps, for every limit, if and only if no request
      goes back to before the end of a window that has been swept. With a limit of one they
      already differ otherwise. */
  lemma SweepShowsExactlyWhenTimeGoesBack(log: seq<Request>, length: int, epoch: int)
    ensures (forall limit :: AnswersAgree(log, length, epoch, limit)) <==> NobodyGoesBack(log, length, epoch)
    ensures AnswersAgree(log, length, epoch, 1) <==> NobodyGoesBack(log, length, epoch)
  {
    if NobodyGoesBack(log, length, epoch) {
      InStepIsTracked(log, length, epoch);
      forall limit ensures AnswersAgree(log, length, epoch, limit) { }
    } else {
      var i := FirstGoingBack(log, length, epoch);
      FirstOneShows(log, i, length, epoch);
      assert !AnswersAgree(log, length, epoch, 1) by {
        assert 1 <= i + 1 <= |log|;
        var p := log[..i + 1];
        assert !(CountOfLast(p, length, epoch) <= 1 <==> UnsweptCountOfLast(p, length) <= 1);
      }
    }
  }

  lemma NoneIsNobody(log: seq<Request>, length: int, epoch: int)
    requires forall j :: 0 <= j < |log| ==> !GoesBack(log, j, length, epoch)
    ensures NobodyGoesBack(log, length, epoch)
  {
  }

  lemma FirstGoingBack(log: seq<Request>, length: int, epoch: int) returns (i: nat)
    requires !NobodyGoesBack(log, length, epoch)
    ensures i < |log| && GoesBack(log, i, length, epoch)
    ensures forall j :: 0 <= j < i ==> !GoesBack(log, j, length, epoch)
  {
    i := 0;
    while !GoesBack(log, i, length, epoch)
      invariant i < |log| && forall j :: 0 <= j < i ==> !GoesBack(log, j, length, epoch)
      decreases |log| - i
    {
      if i + 1 == |log| { NoneIsNobody(log, length, epoch); }
      i := i + 1;
    }
  }

  /** Times that never go backwards do not go back to before anything. */
  lemma InOrderNobodyGoesBack(log: seq<Request>, length: int, epoch: int)
    requires InOrder(log)
    ensures NobodyGoesBack(log, length, epoch)
  {
    forall i | 0 <= i < |log| ensures !GoesBack(log, i, length, epoch) {
      var before := log[..i];
      if IsSwept(before, log[i].key, length, epoch) {
        var o := OpenedAt(before, log[i].key, length);
        var m :| o < m < i && SweepsAt(before, m, length, epoch) && before[m].time - before[o].time >= length;
        assert log[m].time <= log[i].time;
      }
    }
  }

  /** It does happen: a request at 9 goes back behind the sweep at 15, and so is counted as
      the first of a window although the one opened at 5 would last until 15. */
  lemma BackwardsTimeShowsTheSweep(key: string, other: string)
    requires key != other
    ensures var log := [Request(key, 5, true), Request(other, 15, true), Request(key, 9, true)];
            GoesBack(log, 2, 10, 0) && !AnswersAgree(log, 10, 0, 1)
  {
    var log := [Request(key, 5, true), Request(other, 15, true), Request(key, 9, true)];
    var one, two := log[..1], log[..2];
    assert two[..1] == one && one[..0] == [];
    assert LastSweep(one, 10, 0) == 0 by { assert LastSweep(one[..0], 10, 0) == 0; }
    assert SweepsAt(two, 1, 10, 0);
    assert OpenedAt(one, key, 10) == 0 by { assert OpenedAt(one[..0], key, 10) == -1; }
    assert OpenedAt(two, key, 10) == 0;
    assert GoesBack(log, 2, 10, 0);
    SweepShowsExactlyWhenTimeGoesBack(log, 10, 0);
  }

  // ----- the limiter -----

  lemma WindowOfAppended(log: seq<Request>, r: Request, key: string, length: int)
    ensures WindowOf(log + [r], key, length)
         == if r.key == key then Some(Next(WindowOf(log, key, length), r.time, length)) else WindowOf(log, key, length)
  {
    assert (log + [r])[..|log|] == log;
  }

  lemma OneMoreAnswer(log: seq<Request>, r: Request, limit: int, length: int)
    requires Faithful(log, limit, length)
    requires r.allowed <==> CountsAsAllowed(WindowOf(log + [r], r.key, length), limit)
    ensures Faithful(log + [r], limit, length)
  {
    var more := log + [r];
    assert more[..|log| + 1] == more;
    forall i {:trigger more[i]} | 0 <= i < |more|
      ensures more[i].allowed <==> CountsAsAllowed(WindowOf(more[..i + 1], more[i].key, length), limit)
    {
      if i < |log| { assert more[i] == log[i] && more[..i + 1] == log[..i + 1]; }
    }
  }

  /** Every answer is the one that the limiter's own count gives. */
  ghost predicate Recorded(log: seq<Request>, limit: int, length: int, epoch: int)
    decreases |log|
  {
    log == [] || (Recorded(log[..|log| - 1], limit, length, epoch)
                  && (log[|log| - 1].allowed <==> CountOfLast(log, length, epoch) <= limit))
  }

  lemma OneMoreRecorded(log: seq<Request>, r: Request, limit: int, length: int, epoch: int)
    requires Recorded(log, limit, length, epoch)
    requires r.allowed <==> CountOfLast(log + [r], length, epoch) <= limit
    ensures Recorded(log + [r], limit, length, epoch)
  {
    assert (log + [r])[..|log|] == log;
  }

  /** While nobody goes back, as when times are in order, the recorded answers are those of a
      limiter that never sweeps. */
  lemma RecordedIsFaithful(log: seq<Request>, limit: int, length: int, epoch: int)
    requires Recorded(log, limit, length, epoch)
    ensures NobodyGoesBack(log, length, epoch) ==> Faithful(log, limit, length)
    ensures InOrder(log) ==> Faithful(log, limit, length)
  {
    if InOrder(log) { InOrderNobodyGoesBack(log, length, epoch); }
    if NobodyGoesBack(log, length, epoch) { InStepIsFaithful(log, limit, length, epoch); }
  }

  lemma {:induction false} InStepIsFaithful(log: seq<Request>, limit: int, length: int, epoch: int)
    requires Recorded(log, limit, length, epoch) && NobodyGoesBack(log, length, epoch)
    ensures Faithful(log, limit, length)
    decreases |log|
  {
    if log != [] {
      var n := |log| - 1;
      forall i | 0 <= i < n ensures !GoesBack(log[..n], i, length, epoch) { GoesBackInPrefix(log, n, i, length, epoch); }
      InStepIsFaithful(log[..n], limit, length, epoch);
      InStepIsTracked(log, length, epoch);
      assert log[..|log|] == log == log[..n] + [log[n]];
      OneMoreAnswer(log[..n], log[n], limit, length);
    }
  }

  class Limiter {
    const limit: int
    const length: int
    /** history: the time that counts as the last sweep at first */
    ghost const epoch: int
    var windows: map<string, Window>
    var lastSweep: int
    /** history: every request and its answer */
    ghost var log: seq<Request>

    ghost predicate Valid()
      reads this
    {
      Kept(windows, lastSweep) == KeptAfter(log, length, epoch) && Recorded(log, limit, length, epoch)
    }

    constructor (limit: int, length: int, epoch: int)
      ensures Valid() && log == [] && this.limit == limit && this.length == length && this.epoch == epoch
    {
      this.limit := limit;
      this.length := length;
      this.epoch := epoch;
      windows := map[];
      lastSweep := epoch;
      log := [];
    }

    /** The answer follows from the limiter's own count, in whatever order the times are; it
        is that of a limiter that never sweeps as long as no request goes back. */
    method Allow(key: string, now: int) returns (ok: bool)
      requires Valid()
      modifies this
      ensures Valid() && log == old(log) + [Request(key, now, ok)]
      ensures NobodyGoesBack(log, length, epoch) ==> Faithful(log, limit, length)
      ensures InOrder(log) ==> Faithful(log, limit, length)
    {
      var count := Count(key, now);
      ok := count <= limit;
      ghost var r := Request(key, now, ok);
      KeptByOneMore(log, r, length, epoch);
      OneMoreRecorded(log, r, limit, length, epoch);
      log := log + [r];
      RecordedIsFaithful(log, limit, length, epoch);
    }

    /** Sweeps if a sweep is due, then counts the request. */
    method Count(key: string, now: int) returns (count: nat)
      modifies this`windows, this`lastSweep
      ensures Kept(windows, lastSweep) == AfterRequest(Kept(old(windows), old(lastSweep)), key, length, now)
      ensures count == Current(AfterSweep(Kept(old(windows), old(lastSweep)), length, now).windows, key, length, now).count
    {
      if now - lastSweep >= length {
        lastSweep := now;
        Sweep(now);
      }
      var w := if key in windows && now - windows[key].start < length then windows[key] else Window(0, now);
      w := w.(count := w.count + 1);
      windows := windows[key := w];
      return w.count;
    }

    /** The deletion loop, in any order. */
    method Sweep(now: int)
      modifies this`windows
      ensures windows == Swept(old(windows), length, now)
    {
      var rest := windows.Keys;
      while rest != {}
        invariant rest <= windows.Keys <= old(windows).Keys
        invariant forall k :: k in windows ==> windows[k] == old(windows)[k]
        invariant forall k :: k in old(windows) && k !in rest ==> (k in windows <==> now - old(windows)[k].start < length)
        decreases |rest|
      {
        var k :| k in rest;
        if now - windows[k].start >= length {
          windows := windows - {k};
        }
        rest := rest - {k};
      }
    }
  }
}
