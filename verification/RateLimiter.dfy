/**
 The per-key fixed-window rate limiter, against the full log of calls made to it.
 Instants and durations are nanoseconds.
 */
module RateLimiter {
  import opened Wrappers

  const WINDOW: int := 60_000_000_000
  const SECOND: int := 1_000_000_000

  datatype Window = Window(start: int, count: nat)
  datatype Decision = Allowed | Denied(retryAfter: int)

  /** Whole seconds for the Retry-After header, rounded up, at least one. */
  function RetryAfterSeconds(d: Decision): int {
    match d
    case Allowed => 0
    case Denied(retry) =>
      var secs := (retry + SECOND - 1) / SECOND;
      if secs < 1 then 1 else secs
  }

  // ---------------------------------------------------------------- one key's window

  function Max(a: int, b: int): int { if a >= b then a else b }

  /** The window a call falls in: the running one, or a fresh one once that has elapsed. */
  function Current(w: Option<Window>, now: int): Window {
    if w.None? || now - w.value.start >= WINDOW then Window(now, 0) else w.value
  }

  function Decide(w: Option<Window>, now: int, limit: int): Decision {
    var cur := Current(w, now);
    if cur.count >= limit then Denied(Max(WINDOW - (now - cur.start), 0)) else Allowed
  }

  function NextWindow(w: Option<Window>, now: int, limit: int): Window {
    var cur := Current(w, now);
    if cur.count >= limit then cur else Window(cur.start, cur.count + 1)
  }

  /** A window lasts one minute: a call is allowed exactly if its limit leaves room for it
      in the window of the minute before, or in a new one once that minute is over; and the
      call takes one place of that window if allowed and none otherwise. */
  lemma WindowsLastAMinute(w: Option<Window>, now: int, limit: int)
    ensures var running := w.Some? && now < w.value.start + 60_000_000_000;
            var used := if running then w.value.count else 0;
            && (Decide(w, now, limit).Allowed? <==> used < limit)
            && (Decide(w, now, limit).Denied? && running && w.value.start <= now ==>
                  now + Decide(w, now, limit).retryAfter == w.value.start + 60_000_000_000)
            && NextWindow(w, now, limit) == Window(if running then w.value.start else now, if used < limit then used + 1 else used)
  {
  }

  // ---------------------------------------------------------------- the limiter

  class Limiter {
    var windows: map<nat, Window>

    constructor ()
      ensures windows == map[]
    {
      windows := map[];
    }

    /** Counts one request against `key`, if its window has room. */
    method Allow(key: nat, limit: int, now: int) returns (d: Decision)
      modifies this
      ensures d == Decide(old(Lookup(windows, key)), now, limit)
      ensures windows == old(windows)[key := NextWindow(old(Lookup(windows, key)), now, limit)]
    {
      var w := Window(now, 0);
      if key in windows && now - windows[key].start < WINDOW {
        w := windows[key];
      } else {
        windows := windows[key := w];
      }
      if w.count >= limit {
        var retry := WINDOW - (now - w.start);
        if retry < 0 {
          retry := 0;
        }
        return Denied(retry);
      }
      windows := windows[key := Window(w.start, w.count + 1)];
      return Allowed;
    }
  }

  function Lookup(windows: map<nat, Window>, key: nat): Option<Window> {
    if key in windows then Some(windows[key]) else None
  }

  // ---------------------------------------------------------------- the log of calls

  datatype Call = Call(key: nat, limit: int, now: int)

  /** The limiter's windows after a log of calls. */
  function Replay(calls: seq<Call>): map<nat, Window> {
    if calls == [] then map[] else
      var before, c := Replay(calls[..|calls| - 1]), calls[|calls| - 1];
      before[c.key := NextWindow(Lookup(before, c.key), c.now, c.limit)]
  }

  /** What the limiter answered to call `i`. */
  function Answer(calls: seq<Call>, i: nat): Decision
    requires i < |calls|
  {
    Decide(Lookup(Replay(calls[..i]), calls[i].key), calls[i].now, calls[i].limit)
  }

  /** The number of calls `from`..`to` of `key` that were allowed at instants in [lo, hi). */
  function AllowedIn(calls: seq<Call>, key: nat, from: nat, lo: int, hi: int): nat
    decreases |calls|
  {
    if |calls| <= from then 0 else
      var n, c := |calls| - 1, calls[|calls| - 1];
      AllowedIn(calls[..n], key, from, lo, hi)
      + (if c.key == key && lo <= c.now < hi && Answer(calls, n).Allowed? then 1 else 0)
  }

  ghost predicate ClockNeverGoesBack(calls: seq<Call>) {
    forall i, j | 0 <= i < j < |calls| :: calls[i].now <= calls[j].now
  }

  lemma PrefixReplay(calls: seq<Call>, i: nat)
    requires i < |calls|
    ensures calls[..i + 1][..i] == calls[..i]
    ensures Replay(calls[..i + 1])
            == Replay(calls[..i])[calls[i].key := NextWindow(Lookup(Replay(calls[..i]), calls[i].key), calls[i].now, calls[i].limit)]
  {
    assert calls[..i + 1][..i] == calls[..i];
  }

  // ---------------------------------------------------------------- keys do not interfere

  function Only(calls: seq<Call>, key: nat): seq<Call> {
    if calls == [] then [] else
      var c := calls[|calls| - 1];
      Only(calls[..|calls| - 1], key) + (if c.key == key then [c] else [])
  }

  /** One key's calls never change another's: the window of a key, and with it every
      answer it gets, is what its own calls alone would have produced. */
  lemma {:induction false} KeysDoNotInterfere(calls: seq<Call>, key: nat)
    ensures Lookup(Replay(calls), key) == Lookup(Replay(Only(calls, key)), key)
  {
    if calls != [] {
      var front, c := calls[..|calls| - 1], calls[|calls| - 1];
      KeysDoNotInterfere(front, key);
      if c.key == key {
        assert (Only(front, key) + [c])[..|Only(front, key)|] == Only(front, key);
      } else {
        assert Only(calls, key) == Only(front, key);
      }
    }
  }

  // ---------------------------------------------------------------- the rate over any span

  /** How many earlier windows of a key can reach into a span from `a`, when its current
      window started at `start`. */
  function EarlierWindows(start: int, a: int): int {
    (start - a + WINDOW - 1) / WINDOW
  }

  ghost predicate SpanBound(w: Option<Window>, n: nat, limit: nat, a: int, k: nat, last: int) {
    && n <= (k + 1) * limit
    && (w.None? ==> n == 0)
    && (w.Some? ==>
          && w.value.start <= last && w.value.count <= limit
          && (w.value.start <= a - WINDOW ==> n == 0)
          && (w.value.start > a - WINDOW ==> n <= EarlierWindows(w.value.start, a) * limit + w.value.count))
  }

  /** The bound survives opening a fresh window. */
  lemma FreshWindowKeepsBound(w: Option<Window>, n: nat, limit: nat, a: int, k: nat, now: int, last: int)
    requires SpanBound(w, n, limit, a, k, last) && last <= now
    requires w.Some? ==> now - w.value.start >= WINDOW
    ensures SpanBound(Some(Window(now, 0)), n, limit, a, k, now)
  {
    if now > a - WINDOW {
      var j := EarlierWindows(now, a);
      TimesInOrder(0, j, limit);
      if w.Some? && w.value.start > a - WINDOW {
        var i := EarlierWindows(w.value.start, a);
        assert i + 1 <= j;
        TimesInOrder(i + 1, j, limit);
        assert (i + 1) * limit == i * limit + limit;
      }
    }
  }

  /** One more allowed call in the current window keeps the bound. */
  lemma AllowedCallKeepsBound(w: Window, n: nat, limit: nat, a: int, k: nat, now: int)
    requires SpanBound(Some(w), n, limit, a, k, now) && w.count < limit && w.start <= now < w.start + WINDOW
    ensures SpanBound(Some(Window(w.start, w.count + 1)), n + (if a <= now < a + k * WINDOW then 1 else 0), limit, a, k, now)
  {
    if a <= now < a + k * WINDOW {
      var j := EarlierWindows(w.start, a);
      assert j <= k;
      TimesInOrder(j, k, limit);
      assert (k + 1) * limit == k * limit + limit;
    }
  }

  lemma {:induction false} SpanBoundHolds(calls: seq<Call>, key: nat, limit: nat, a: int, k: nat)
    requires ClockNeverGoesBack(calls)
    requires forall c | c in calls && c.key == key :: c.limit <= limit
    ensures calls != [] ==>
              SpanBound(Lookup(Replay(calls), key), AllowedIn(calls, key, 0, a, a + k * WINDOW), limit, a, k,
                        calls[|calls| - 1].now)
    decreases |calls|
  {
    if calls != [] {
      var n := |calls| - 1;
      var front, c := calls[..n], calls[n];
      SpanBoundHolds(front, key, limit, a, k);
      var w, used := Lookup(Replay(front), key), AllowedIn(front, key, 0, a, a + k * WINDOW);
      assert (k + 1) * limit >= 0 by { TimesInOrder(0, k + 1, limit); }
      assert front == [] ==> w == None && used == 0;
      assert SpanBound(w, used, limit, a, k, c.now);
      if c.key == key {
        hide SpanBound;
        CallKeepsBound(w, used, limit, a, k, c.now, c.limit);
      }
    }
  }

  lemma CallKeepsBound(w: Option<Window>, n: nat, limit: nat, a: int, k: nat, now: int, asked: int)
    requires SpanBound(w, n, limit, a, k, now) && asked <= limit
    ensures SpanBound(Some(NextWindow(w, now, asked)),
                      n + (if a <= now < a + k * WINDOW && Decide(w, now, asked).Allowed? then 1 else 0), limit, a, k, now)
  {
    var cur := Current(w, now);
    if w.None? || now - w.value.start >= WINDOW {
      FreshWindowKeepsBound(w, n, limit, a, k, now, now);
    }
    assert cur.start <= now < cur.start + WINDOW;
    if cur.count < asked {
      AllowedCallKeepsBound(cur, n, limit, a, k, now);
    }
  }

  /** A span of k windows, that is k minutes, placed anywhere, admits at most (k+1) times
      the limit. */
  lemma RateBoundOverAnySpan(calls: seq<Call>, key: nat, limit: nat, a: int, k: nat)
    requires ClockNeverGoesBack(calls)
    requires forall c | c in calls && c.key == key :: c.limit <= limit
    ensures AllowedIn(calls, key, 0, a, a + k * 60_000_000_000) <= (k + 1) * limit
  {
    TimesInOrder(0, k + 1, limit);
    SpanBoundHolds(calls, key, limit, a, k);
  }

  // ---------------------------------------------------------------- Retry-After

  /** The window in which call `i` was answered. */
  function WindowOf(calls: seq<Call>, i: nat): Window
    requires i < |calls|
  {
    Current(Lookup(Replay(calls[..i]), calls[i].key), calls[i].now)
  }

  ghost predicate StartsAreInThePast(calls: seq<Call>, i: nat)
    requires i <= |calls|
  {
    forall key | key in Replay(calls[..i]) :: forall j | i <= j < |calls| :: Replay(calls[..i])[key].start <= calls[j].now
  }

  lemma {:induction false} WindowsStartInThePast(calls: seq<Call>, i: nat)
    requires ClockNeverGoesBack(calls) && i <= |calls|
    ensures StartsAreInThePast(calls, i)
    decreases i
  {
    if i > 0 {
      WindowsStartInThePast(calls, i - 1);
      PrefixReplay(calls, i - 1);
      assert Replay(calls[..i - 1]).Keys <= Replay(calls[..i]).Keys;
    } else {
      assert calls[..0] == [];
    }
  }

  /** Waiting the reported number of seconds always reaches the end of the window, and
      overshoots it by less than a second. */
  lemma RetryAfterReachesTheEnd(calls: seq<Call>, i: nat)
    requires ClockNeverGoesBack(calls) && i < |calls| && Answer(calls, i).Denied?
    ensures var end := WindowOf(calls, i).start + WINDOW;
            && calls[i].now + Answer(calls, i).retryAfter == end
            && end <= calls[i].now + RetryAfterSeconds(Answer(calls, i)) * 1_000_000_000 < end + 1_000_000_000
            && 1 <= RetryAfterSeconds(Answer(calls, i)) <= 60
  {
    WindowsStartInThePast(calls, i);
    var key := calls[i].key;
    if key in Replay(calls[..i]) {
      assert Replay(calls[..i])[key].start <= calls[i].now;
    }
  }

  /** From a denial on, as long as its window lasts: the window stays, as full. */
  lemma {:induction false} FullWindowStays(calls: seq<Call>, i: nat, j: nat)
    requires ClockNeverGoesBack(calls) && i < j <= |calls| && Answer(calls, i).Denied?
    requires calls[j - 1].now < WindowOf(calls, i).start + WINDOW
    ensures var w := Lookup(Replay(calls[..j]), calls[i].key);
            w.Some? && w.value.start == WindowOf(calls, i).start && w.value.count >= calls[i].limit
    decreases j
  {
    PrefixReplay(calls, j - 1);
    if j - 1 > i {
      assert calls[j - 2].now <= calls[j - 1].now;
      FullWindowStays(calls, i, j - 1);
    }
  }

  /** Before the window ends, every call of the key with the same limit or a lower one
      is denied, whatever else was called in between. */
  lemma DeniedUntilTheEnd(calls: seq<Call>, i: nat, j: nat)
    requires ClockNeverGoesBack(calls) && i < j < |calls| && Answer(calls, i).Denied?
    requires calls[j].key == calls[i].key && calls[j].limit <= calls[i].limit
    requires calls[j].now < calls[i].now + Answer(calls, i).retryAfter
    ensures Answer(calls, j).Denied?
  {
    RetryAfterReachesTheEnd(calls, i);
    assert calls[j - 1].now <= calls[j].now;
    FullWindowStays(calls, i, j);
  }

  /** Between the end of the denying window and one window later, the key's window is
      either still the old one, unused since, or a new one whose count is exactly the
      calls allowed since that end. */
  lemma {:induction false} NewWindowCountsItsCalls(calls: seq<Call>, i: nat, j: nat)
    requires ClockNeverGoesBack(calls) && i < j <= |calls| && Answer(calls, i).Denied?
    requires j - 1 > i ==> calls[j - 1].now < WindowOf(calls, i).start + 2 * WINDOW
    ensures var end := WindowOf(calls, i).start + WINDOW;
            var w := Lookup(Replay(calls[..j]), calls[i].key);
            var used := AllowedIn(calls[..j], calls[i].key, i + 1, end, end + WINDOW);
            && w.Some?
            && (w.value.start == end - WINDOW ==> used == 0)
            && (w.value.start != end - WINDOW ==> end <= w.value.start <= calls[j - 1].now && w.value.count == used)
    decreases j
  {
    PrefixReplay(calls, j - 1);
    var end := WindowOf(calls, i).start + WINDOW;
    RetryAfterReachesTheEnd(calls, i);
    if j - 1 > i {
      assert calls[j - 2].now <= calls[j - 1].now;
      NewWindowCountsItsCalls(calls, i, j - 1);
      assert calls[..j][..j - 1] == calls[..j - 1];
      assert Answer(calls[..j], j - 1) == Answer(calls, j - 1);
    }
  }

  /** A call made after the reported wait, and within a window of it, is allowed exactly
      when fewer than its limit of the key's calls have used the new window. */
  lemma AllowedAfterTheEndExactly(calls: seq<Call>, i: nat, j: nat)
    requires ClockNeverGoesBack(calls) && i < j < |calls| && Answer(calls, i).Denied?
    requires calls[j].key == calls[i].key
    requires var end := calls[i].now + Answer(calls, i).retryAfter; end <= calls[j].now < end + WINDOW
    ensures var end := calls[i].now + Answer(calls, i).retryAfter;
            Answer(calls, j).Allowed? <==> AllowedIn(calls[..j], calls[i].key, i + 1, end, end + WINDOW) < calls[j].limit
  {
    RetryAfterReachesTheEnd(calls, i);
    assert calls[j - 1].now <= calls[j].now;
    NewWindowCountsItsCalls(calls, i, j);
  }

  /** Every call waits at most the reported seconds: at the instant the header names, the
      key is back in business. */
  lemma WaitingTheReportedSecondsWorks(calls: seq<Call>, i: nat, j: nat)
    requires ClockNeverGoesBack(calls) && i < j < |calls| && Answer(calls, i).Denied?
    requires calls[j].key == calls[i].key && calls[j].now == calls[i].now + RetryAfterSeconds(Answer(calls, i)) * SECOND
    requires var end := calls[i].now + Answer(calls, i).retryAfter;
             AllowedIn(calls[..j], calls[i].key, i + 1, end, end + WINDOW) < calls[j].limit
    ensures Answer(calls, j).Allowed?
  {
    RetryAfterReachesTheEnd(calls, i);
    AllowedAfterTheEndExactly(calls, i, j);
  }
}
