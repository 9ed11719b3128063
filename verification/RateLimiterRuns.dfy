/** What the limiter keeps over any run of checks whose clock does not run back. */
module RateLimiterRuns {
  import opened Wrappers
  import opened RateLimiter

  datatype Call = Call(key: string, now: int)

  /** The windows before the n-th call. */
  function StateAt(c: Limits, calls: seq<Call>, n: nat): seq<Window>
    requires n <= |calls|
  {
    if n == 0 then [] else Counted(StateAt(c, calls, n - 1), calls[n - 1].key, calls[n - 1].now, c)
  }

  ghost predicate Timely(calls: seq<Call>) {
    forall i, j :: 0 <= i < j < |calls| ==> calls[i].now <= calls[j].now
  }

  // ----- order and size -------------------------------------------------------

  ghost predicate OldestFirst(windows: seq<Window>) {
    forall i, j :: 0 <= i < j < |windows| ==> windows[i].startedAt <= windows[j].startedAt
  }

  ghost predicate StartedBy(windows: seq<Window>, now: int) {
    forall i :: 0 <= i < |windows| ==> windows[i].startedAt <= now
  }

  ghost predicate Sound(windows: seq<Window>, now: int) {
    Distinct(windows) && OldestFirst(windows) && StartedBy(windows, now)
  }

  lemma {:induction false} UnexpiredSound(windows: seq<Window>, now: int, windowMs: int)
    requires Sound(windows, now)
    ensures Sound(Unexpired(windows, now, windowMs), now)
  {
    if windows != [] {
      var rest := windows[1..];
      UnexpiredSound(rest, now, windowMs);
      var left := Unexpired(rest, now, windowMs);
      forall i | 0 <= i < |left|
        ensures left[i].key != windows[0].key && left[i].startedAt >= windows[0].startedAt
      {
        UnexpiredAre(rest, now, windowMs, i);
        AfterFirst(windows, now, left[i]);
      }
      SoundBehind(windows[0], left, now);
    }
  }

  lemma {:induction false} AfterFirst(windows: seq<Window>, now: int, w: Window)
    requires Sound(windows, now) && windows != [] && w in windows[1..]
    ensures w.key != windows[0].key && w.startedAt >= windows[0].startedAt
  {
    var j :| 0 <= j < |windows| - 1 && windows[1..][j] == w;
    assert windows[j + 1] == w;
  }

  lemma {:induction false} SoundBehind(first: Window, rest: seq<Window>, now: int)
    requires Sound(rest, now) && first.startedAt <= now
    requires forall i :: 0 <= i < |rest| ==> rest[i].key != first.key && rest[i].startedAt >= first.startedAt
    ensures Sound([first] + rest, now)
  {
  }

  lemma {:induction false} SweptSound(windows: seq<Window>, now: int, c: Limits)
    requires Sound(windows, now)
    ensures Sound(Swept(windows, now, c), now) && |Swept(windows, now, c)| <= c.maxKeys
  {
    UnexpiredSound(windows, now, c.windowMs);
  }

  lemma {:induction false} CountedSound(windows: seq<Window>, key: string, now: int, c: Limits)
    requires Sound(windows, now)
    ensures Sound(Counted(windows, key, now, c), now) && |Counted(windows, key, now, c)| <= c.maxKeys + 1
  {
    SweptSound(windows, now, c);
  }

  /** In every run: windows stand oldest first, one a key, and one more at most than maxKeys. */
  lemma {:induction false} RunsAreSound(c: Limits, calls: seq<Call>, n: nat)
    requires Timely(calls) && n <= |calls|
    ensures n > 0 ==> Sound(StateAt(c, calls, n), calls[n - 1].now)
    ensures n < |calls| ==> Sound(StateAt(c, calls, n), calls[n].now)
    ensures |StateAt(c, calls, n)| <= c.maxKeys + 1
  {
    if n > 0 {
      RunsAreSound(c, calls, n - 1);
      CountedSound(StateAt(c, calls, n - 1), calls[n - 1].key, calls[n - 1].now, c);
    }
  }

  /** A window dropped for space is no younger than any that stays. */
  lemma {:induction false} OldestAreEvicted(windows: seq<Window>, now: int, c: Limits, dropped: Window, kept: Window)
    requires Sound(windows, now) && !Expired(dropped, now, c.windowMs)
    requires dropped in Unexpired(windows, now, c.windowMs) && dropped !in Swept(windows, now, c)
    requires kept in Swept(windows, now, c)
    ensures dropped.startedAt <= kept.startedAt
  {
    var all := Unexpired(windows, now, c.windowMs);
    UnexpiredSound(windows, now, c.windowMs);
    var i :| 0 <= i < |all| && all[i] == dropped;
    var j :| 0 <= j < |Swept(windows, now, c)| && Swept(windows, now, c)[j] == kept;
    var cut := |all| - c.maxKeys;
    assert all[cut + j] == kept;
    forall x | cut <= x < |all|
      ensures all[x] in Swept(windows, now, c)
    {
      assert cut >= 0 ==> Swept(windows, now, c)[x - cut] == all[x];
    }
  }

  // ----- one key's window -----------------------------------------------------

  function WindowOf(windows: seq<Window>, key: string): Option<Window> {
    var at := Lookup(windows, key);
    if at.Some? then Some(windows[at.value]) else None
  }

  lemma {:induction false} WindowIs(windows: seq<Window>, i: nat)
    requires Distinct(windows) && i < |windows|
    ensures WindowOf(windows, windows[i].key) == Some(windows[i])
  {
  }

  /** The key's unexpired window is dropped to make room. */
  predicate Evicts(windows: seq<Window>, key: string, now: int, c: Limits) {
    var w := WindowOf(windows, key);
    w.Some? && !Expired(w.value, now, c.windowMs) && WindowOf(Swept(windows, now, c), key).None?
  }

  /** The key's window when a check looks for it: what is left after the sweep. */
  lemma {:induction false} SweptWindow(windows: seq<Window>, key: string, now: int, c: Limits)
    requires Sound(windows, now)
    ensures var w := WindowOf(windows, key);
            WindowOf(Swept(windows, now, c), key) ==
            if w.Some? && !Expired(w.value, now, c.windowMs) && !Evicts(windows, key, now, c) then w else None
  {
    var swept := Swept(windows, now, c);
    SweptSound(windows, now, c);
    var at := Lookup(swept, key);
    if at.Some? {
      SweptAreCurrent(windows, now, c, at.value);
      var i :| 0 <= i < |windows| && windows[i] == swept[at.value];
      WindowIs(windows, i);
    }
  }

  lemma {:induction false} CountedWindow(windows: seq<Window>, called: string, now: int, c: Limits, key: string)
    requires Sound(windows, now)
    ensures var w := WindowOf(Swept(windows, now, c), key);
            && WindowOf(Counted(windows, called, now, c), key) ==
               (if called != key then w
                else if w.Some? then Some(w.value.(count := w.value.count + 1)) else Some(Window(key, now, 1)))
            && (Allows(windows, key, now, c) <==> (if w.Some? then w.value.count + 1 else 1) <= c.limit)
  {
    var swept, counted := Swept(windows, now, c), Counted(windows, called, now, c);
    SweptSound(windows, now, c);
    CountedSound(windows, called, now, c);
    var at, other := Lookup(swept, called), Lookup(swept, key);
    if called == key {
      if at.Some? {
        WindowIs(counted, at.value);
      } else {
        WindowIs(counted, |swept|);
      }
    } else if other.Some? {
      assert counted[other.value] == swept[other.value];
      WindowIs(counted, other.value);
    } else {
      NoWindow(counted, key);
    }
  }

  lemma {:induction false} NoWindow(windows: seq<Window>, key: string)
    requires forall i :: 0 <= i < |windows| ==> windows[i].key != key
    ensures WindowOf(windows, key).None?
  {
  }

  predicate Live(w: Option<Window>, now: int, c: Limits) {
    w.Some? && !Expired(w.value, now, c.windowMs)
  }

  /** A key's window after a call that does not evict it. */
  function Moved(w: Option<Window>, called: bool, key: string, now: int, c: Limits): Option<Window> {
    if !called then (if Live(w, now, c) then w else None)
    else if Live(w, now, c) then Some(w.value.(count := w.value.count + 1)) else Some(Window(key, now, 1))
  }

  predicate Lets(w: Option<Window>, now: int, c: Limits) {
    (if Live(w, now, c) then w.value.count + 1 else 1) <= c.limit
  }

  /** One call, seen from a key that it does not evict. */
  lemma {:induction false} KeyMoves(c: Limits, calls: seq<Call>, n: nat, key: string)
    requires Timely(calls) && n < |calls| && !Evicts(StateAt(c, calls, n), key, calls[n].now, c)
    ensures var w, now := WindowOf(StateAt(c, calls, n), key), calls[n].now;
            && WindowOf(StateAt(c, calls, n + 1), key) == Moved(w, calls[n].key == key, key, now, c)
            && (Allows(StateAt(c, calls, n), key, now, c) <==> Lets(w, now, c))
  {
    RunsAreSound(c, calls, n);
    SweptWindow(StateAt(c, calls, n), key, calls[n].now, c);
    CountedWindow(StateAt(c, calls, n), calls[n].key, calls[n].now, c, key);
  }

  // ----- how often a key is let through ---------------------------------------

  predicate Passes(c: Limits, calls: seq<Call>, n: nat, key: string)
    requires n < |calls|
  {
    calls[n].key == key && Allows(StateAt(c, calls, n), key, calls[n].now, c)
  }

  /** How many of the calls from the a-th on, before the b-th, let the key through. */
  function Allowances(c: Limits, calls: seq<Call>, key: string, a: nat, b: nat): nat
    requires a <= b <= |calls|
  {
    if a == b then 0
    else Allowances(c, calls, key, a, b - 1) + (if Passes(c, calls, b - 1, key) then 1 else 0)
  }

  ghost predicate NeverEvicted(c: Limits, calls: seq<Call>, key: string, a: nat, b: nat)
    requires a <= b <= |calls|
  {
    forall i :: a <= i < b ==> !Evicts(StateAt(c, calls, i), key, calls[i].now, c)
  }

  function Bound(c: Limits): nat {
    if c.limit > 0 then c.limit else 0
  }

  function Least(x: int, y: int): int {
    if x < y then x else y
  }

  /** The windows of a key, call by call, as `Moved` says. */
  ghost predicate Traces(c: Limits, calls: seq<Call>, key: string, ws: seq<Option<Window>>, a: nat, b: nat) {
    && |ws| == |calls| + 1 && b <= |calls|
    && forall n :: a <= n < b ==> ws[n + 1] == Moved(ws[n], calls[n].key == key, key, calls[n].now, c)
  }

  function LetThrough(c: Limits, calls: seq<Call>, key: string, ws: seq<Option<Window>>, a: nat, b: nat): nat
    requires |ws| == |calls| + 1 && a <= b <= |calls|
  {
    if a == b then 0
    else
      LetThrough(c, calls, key, ws, a, b - 1)
      + (if calls[b - 1].key == key && Lets(ws[b - 1], calls[b - 1].now, c) then 1 else 0)
  }

  function Trace(c: Limits, calls: seq<Call>, key: string): (r: seq<Option<Window>>)
    ensures |r| == |calls| + 1
  {
    seq(|calls| + 1, n requires 0 <= n < |calls| + 1 => WindowOf(StateAt(c, calls, n), key))
  }

  lemma {:induction false} TraceMoves(c: Limits, calls: seq<Call>, key: string, n: nat)
    requires Timely(calls) && n < |calls| && !Evicts(StateAt(c, calls, n), key, calls[n].now, c)
    ensures var ws := Trace(c, calls, key);
            && ws[n + 1] == Moved(ws[n], calls[n].key == key, key, calls[n].now, c)
            && (Passes(c, calls, n, key) <==> calls[n].key == key && Lets(ws[n], calls[n].now, c))
  {
    KeyMoves(c, calls, n, key);
    var ws := Trace(c, calls, key);
    assert ws[n] == WindowOf(StateAt(c, calls, n), key);
    assert ws[n + 1] == WindowOf(StateAt(c, calls, n + 1), key);
  }

  lemma {:induction false} TraceIs(c: Limits, calls: seq<Call>, key: string, a: nat, b: nat)
    requires Timely(calls) && a <= b <= |calls| && NeverEvicted(c, calls, key, a, b)
    ensures Traces(c, calls, key, Trace(c, calls, key), a, b)
    ensures Allowances(c, calls, key, a, b) == LetThrough(c, calls, key, Trace(c, calls, key), a, b)
  {
    var ws := Trace(c, calls, key);
    forall n | a <= n < b
      ensures ws[n + 1] == Moved(ws[n], calls[n].key == key, key, calls[n].now, c)
      ensures Passes(c, calls, n, key) <==> calls[n].key == key && Lets(ws[n], calls[n].now, c)
    {
      TraceMoves(c, calls, key, n);
    }
    AllowancesAre(c, calls, key, ws, a, b);
  }

  lemma {:induction false} AllowancesAre(c: Limits, calls: seq<Call>, key: string, ws: seq<Option<Window>>, a: nat, b: nat)
    requires a <= b <= |calls| && |ws| == |calls| + 1
    requires forall n :: a <= n < b ==> (Passes(c, calls, n, key) <==> calls[n].key == key && Lets(ws[n], calls[n].now, c))
    ensures Allowances(c, calls, key, a, b) == LetThrough(c, calls, key, ws, a, b)
    decreases b
  {
    if a < b {
      AllowancesAre(c, calls, key, ws, a, b - 1);
    }
  }

  /** Before the span's first new window, and after it. */
  ghost predicate WithinSpan(c: Limits, w: Option<Window>, from: int, allowances: nat) {
    || (allowances <= Bound(c) && (w.Some? ==> allowances <= w.value.count))
    || (w.Some? && w.value.startedAt >= from && allowances <= Bound(c) + Least(Bound(c), w.value.count))
  }

  lemma {:induction false} SpanGoesOn(c: Limits, w: Option<Window>, called: bool, key: string, now: int, from: int, allowances: nat)
    requires WithinSpan(c, w, from, allowances) && from <= now < from + c.windowMs
    ensures WithinSpan(c, Moved(w, called, key, now, c), from, allowances + if called && Lets(w, now, c) then 1 else 0)
  {
  }

  lemma {:induction false} SpanHolds(c: Limits, calls: seq<Call>, key: string, ws: seq<Option<Window>>, a: nat, b: nat)
    requires Timely(calls) && a < b && Traces(c, calls, key, ws, a, b)
    requires calls[b - 1].now < calls[a].now + c.windowMs
    ensures WithinSpan(c, ws[b], calls[a].now, LetThrough(c, calls, key, ws, a, b))
    decreases b
  {
    var n := b - 1;
    if a < n {
      SpanHolds(c, calls, key, ws, a, n);
    } else {
      assert LetThrough(c, calls, key, ws, a, n) == 0;
    }
    assert ws[n + 1] == Moved(ws[n], calls[n].key == key, key, calls[n].now, c);
    SpanGoesOn(c, ws[n], calls[n].key == key, key, calls[n].now, calls[a].now, LetThrough(c, calls, key, ws, a, n));
  }

  /**
   A key whose window is never dropped for space is let through at most twice the
   limit in any span shorter than the window, whenever the span begins.
   */
  lemma {:induction false} TwiceTheLimit(c: Limits, calls: seq<Call>, key: string, a: nat, b: nat)
    requires Timely(calls) && a < b <= |calls| && NeverEvicted(c, calls, key, a, b)
    requires calls[b - 1].now < calls[a].now + c.windowMs
    ensures Allowances(c, calls, key, a, b) <= 2 * Bound(c)
  {
    TraceIs(c, calls, key, a, b);
    SpanHolds(c, calls, key, Trace(c, calls, key), a, b);
  }

  /** The first window still stands and has let through what its count says, or it has ended. */
  ghost predicate Endures(c: Limits, first: Window, w: Option<Window>, now: int, allowances: nat) {
    || (w.Some? && w.value.startedAt == first.startedAt
        && allowances == Least(Bound(c), w.value.count) - Least(Bound(c), first.count))
    || (now >= first.startedAt + c.windowMs && (w.Some? ==> w.value.startedAt >= first.startedAt + c.windowMs))
  }

  lemma {:induction false} GoesOnEnduring(
    c: Limits, first: Window, w: Option<Window>, called: bool, key: string, before: int, now: int, allowances: nat)
    requires Endures(c, first, w, before, allowances) && before <= now
    ensures Endures(c, first, Moved(w, called, key, now, c), now, allowances + if called && Lets(w, now, c) then 1 else 0)
  {
  }

  lemma {:induction false} WindowEndures(c: Limits, calls: seq<Call>, key: string, ws: seq<Option<Window>>, a: nat, b: nat)
    requires Timely(calls) && 0 < a <= b && Traces(c, calls, key, ws, a, b) && ws[a].Some?
    ensures Endures(c, ws[a].value, ws[b], calls[b - 1].now, LetThrough(c, calls, key, ws, a, b))
    decreases b
  {
    if a < b {
      var n := b - 1;
      WindowEndures(c, calls, key, ws, a, n);
      assert ws[n + 1] == Moved(ws[n], calls[n].key == key, key, calls[n].now, c);
      GoesOnEnduring(c, ws[a].value, ws[n], calls[n].key == key, key, calls[n - 1].now, calls[n].now,
                     LetThrough(c, calls, key, ws, a, n));
    }
  }

  /**
   As long as a key keeps the same window, it is let through until its count
   reaches the limit and not after: at most the limit in one window.
   */
  lemma {:induction false} LimitPerWindow(c: Limits, calls: seq<Call>, key: string, a: nat, b: nat)
    requires Timely(calls) && 0 < a <= b <= |calls| && NeverEvicted(c, calls, key, a, b) && c.windowMs > 0
    requires WindowOf(StateAt(c, calls, a), key).Some? && WindowOf(StateAt(c, calls, b), key).Some?
    requires WindowOf(StateAt(c, calls, a), key).value.startedAt == WindowOf(StateAt(c, calls, b), key).value.startedAt
    ensures var first, last := WindowOf(StateAt(c, calls, a), key).value, WindowOf(StateAt(c, calls, b), key).value;
            Allowances(c, calls, key, a, b) == Least(Bound(c), last.count) - Least(Bound(c), first.count)
    ensures Allowances(c, calls, key, a, b) <= Bound(c)
  {
    TraceIs(c, calls, key, a, b);
    WindowEndures(c, calls, key, Trace(c, calls, key), a, b);
  }

  lemma {:induction false} AllowancesSplit(c: Limits, calls: seq<Call>, key: string, n: nat, b: nat)
    requires 0 < n <= b <= |calls|
    ensures Allowances(c, calls, key, n - 1, b) ==
            Allowances(c, calls, key, n, b) + (if Passes(c, calls, n - 1, key) then 1 else 0)
    decreases b
  {
    if n < b {
      AllowancesSplit(c, calls, key, n, b - 1);
    } else {
      assert Allowances(c, calls, key, n, n) == 0 && Allowances(c, calls, key, n - 1, n - 1) == 0;
    }
  }

  lemma {:induction false} PassesByCount(c: Limits, calls: seq<Call>, key: string, ws: seq<Option<Window>>, n: nat)
    requires Timely(calls) && 0 < n <= |calls| && calls[n - 1].key == key && ws == Trace(c, calls, key)
    ensures ws[n].Some? && (Passes(c, calls, n - 1, key) <==> ws[n].value.count <= c.limit)
  {
    RunsAreSound(c, calls, n - 1);
    CountedWindow(StateAt(c, calls, n - 1), key, calls[n - 1].now, c, key);
    assert ws[n] == WindowOf(StateAt(c, calls, n), key);
  }

  /**
   From the call that opens a window, the one before state n, the key passes as
   often as its count says and at most up to the limit, the opening call included.
   */
  lemma {:induction false} LimitFromOpening(
    c: Limits, calls: seq<Call>, key: string, ws: seq<Option<Window>>, n: nat, b: nat)
    requires Timely(calls) && 0 < n <= b <= |calls| && NeverEvicted(c, calls, key, n, b) && c.windowMs > 0
    requires ws == Trace(c, calls, key) && calls[n - 1].key == key
    requires ws[n].Some? && ws[n].value.count == 1 && ws[b].Some? && ws[b].value.startedAt == ws[n].value.startedAt
    ensures Allowances(c, calls, key, n - 1, b) == Least(Bound(c), ws[b].value.count) <= Bound(c)
  {
    LimitOnTrace(c, calls, key, ws, n, b);
    AllowancesSplit(c, calls, key, n, b);
    PassesByCount(c, calls, key, ws, n);
    OpeningCounts(c, ws[b].value.count, Passes(c, calls, n - 1, key),
                  Allowances(c, calls, key, n - 1, b), Allowances(c, calls, key, n, b));
  }

  lemma {:induction false} OpeningCounts(c: Limits, count: nat, passes: bool, allowances: int, later: int)
    requires passes <==> 1 <= c.limit
    requires allowances == later + (if passes then 1 else 0) && later == Least(Bound(c), count) - Least(Bound(c), 1)
    ensures allowances == Least(Bound(c), count) <= Bound(c)
  {
  }

  lemma {:induction false} LimitOnTrace(c: Limits, calls: seq<Call>, key: string, ws: seq<Option<Window>>, a: nat, b: nat)
    requires Timely(calls) && 0 < a <= b <= |calls| && NeverEvicted(c, calls, key, a, b) && c.windowMs > 0
    requires ws == Trace(c, calls, key)
    requires ws[a].Some? && ws[b].Some? && ws[a].value.startedAt == ws[b].value.startedAt
    ensures Allowances(c, calls, key, a, b) == Least(Bound(c), ws[b].value.count) - Least(Bound(c), ws[a].value.count)
  {
    TraceIs(c, calls, key, a, b);
    WindowEndures(c, calls, key, ws, a, b);
  }

  // ----- when a key is not evicted --------------------------------------------

  /** The other keys that called within a window's length before the n-th call. */
  ghost function OthersLately(c: Limits, calls: seq<Call>, key: string, n: nat): set<string>
    requires n < |calls|
  {
    set i | 0 <= i < n && calls[i].key != key && calls[i].now + c.windowMs > calls[n].now :: calls[i].key
  }

  function KeysOf(windows: seq<Window>): set<string> {
    set i | 0 <= i < |windows| :: windows[i].key
  }

  lemma {:induction false} OneKeyEach(windows: seq<Window>)
    requires Distinct(windows)
    ensures |KeysOf(windows)| == |windows|
  {
    if windows != [] {
      var n := |windows| - 1;
      OneKeyEach(windows[..n]);
      assert KeysOf(windows) == KeysOf(windows[..n]) + {windows[n].key};
      assert windows[n].key !in KeysOf(windows[..n]);
    } else {
      assert KeysOf(windows) == {};
    }
  }

  /** Every window was opened by a call of its key. */
  ghost predicate OpenedBy(calls: seq<Call>, n: nat, w: Window)
    requires n <= |calls|
  {
    exists m :: 0 <= m < n && calls[m].key == w.key && calls[m].now == w.startedAt
  }

  lemma {:induction false} WindowsAreOpened(c: Limits, calls: seq<Call>, n: nat, i: nat)
    requires n <= |calls| && i < |StateAt(c, calls, n)|
    ensures OpenedBy(calls, n, StateAt(c, calls, n)[i])
  {
    var before, call := StateAt(c, calls, n - 1), calls[n - 1];
    var swept := Swept(before, call.now, c);
    if i < |swept| {
      SweptAreCurrent(before, call.now, c, i);
      var j :| 0 <= j < |before| && before[j] == swept[i];
      WindowsAreOpened(c, calls, n - 1, j);
      var m :| 0 <= m < n - 1 && calls[m].key == swept[i].key && calls[m].now == swept[i].startedAt;
      assert calls[m].key == StateAt(c, calls, n)[i].key && calls[m].now == StateAt(c, calls, n)[i].startedAt;
    } else {
      assert StateAt(c, calls, n)[i] == Window(call.key, call.now, 1);
      assert calls[n - 1].key == call.key;
    }
  }

  lemma {:induction false} UnexpiredHas(windows: seq<Window>, now: int, windowMs: int, w: Window)
    requires w in windows && !Expired(w, now, windowMs)
    ensures w in Unexpired(windows, now, windowMs)
  {
    if windows[0] != w {
      assert w in windows[1..];
      UnexpiredHas(windows[1..], now, windowMs, w);
    }
  }

  /** The windows behind an unexpired one belong to other keys that called lately. */
  lemma {:induction false} BehindAreOthers(c: Limits, calls: seq<Call>, key: string, n: nat, i: nat)
    requires Timely(calls) && n < |calls|
    requires var all := Unexpired(StateAt(c, calls, n), calls[n].now, c.windowMs);
             i < |all| && all[i].key == key
    ensures var all := Unexpired(StateAt(c, calls, n), calls[n].now, c.windowMs);
            |all| - 1 - i <= |OthersLately(c, calls, key, n)|
  {
    var windows, now := StateAt(c, calls, n), calls[n].now;
    var all := Unexpired(windows, now, c.windowMs);
    RunsAreSound(c, calls, n);
    UnexpiredSound(windows, now, c.windowMs);
    var behind := all[i + 1..];
    OneKeyEach(behind);
    forall k | k in KeysOf(behind)
      ensures k in OthersLately(c, calls, key, n)
    {
      var j :| 0 <= j < |behind| && behind[j].key == k;
      CalledLately(c, calls, key, n, i + 1 + j);
      assert all[i + 1 + j].key != all[i].key;
    }
    SmallerSet(KeysOf(behind), OthersLately(c, calls, key, n));
  }

  lemma {:induction false} CalledLately(c: Limits, calls: seq<Call>, key: string, n: nat, j: nat)
    requires n < |calls|
    requires var all := Unexpired(StateAt(c, calls, n), calls[n].now, c.windowMs);
             j < |all| && all[j].key != key
    ensures Unexpired(StateAt(c, calls, n), calls[n].now, c.windowMs)[j].key in OthersLately(c, calls, key, n)
  {
    var windows, now := StateAt(c, calls, n), calls[n].now;
    var w := Unexpired(windows, now, c.windowMs)[j];
    UnexpiredAre(windows, now, c.windowMs, j);
    var at :| 0 <= at < |windows| && windows[at] == w;
    WindowsAreOpened(c, calls, n, at);
    var m :| 0 <= m < n && calls[m].key == w.key && calls[m].now == w.startedAt;
    assert calls[m].key in OthersLately(c, calls, key, n);
  }

  lemma {:induction false} SmallerSet(a: set<string>, b: set<string>)
    requires a <= b
    ensures |a| <= |b|
  {
    assert b == a + (b - a);
  }

  /** A key is not evicted while fewer than maxKeys other keys called within the window's length. */
  lemma {:induction false} QuietIsNotEvicted(c: Limits, calls: seq<Call>, key: string, n: nat)
    requires Timely(calls) && n < |calls| && |OthersLately(c, calls, key, n)| < c.maxKeys
    ensures !Evicts(StateAt(c, calls, n), key, calls[n].now, c)
  {
    var windows, now := StateAt(c, calls, n), calls[n].now;
    var w := WindowOf(windows, key);
    if w.Some? && !Expired(w.value, now, c.windowMs) {
      var all := Unexpired(windows, now, c.windowMs);
      UnexpiredHas(windows, now, c.windowMs, w.value);
      var i :| 0 <= i < |all| && all[i] == w.value;
      BehindAreOthers(c, calls, key, n, i);
      RunsAreSound(c, calls, n);
      SweptSound(windows, now, c);
      StaysSwept(windows, now, c, i);
    }
  }

  lemma {:induction false} StaysSwept(windows: seq<Window>, now: int, c: Limits, i: nat)
    requires var all := Unexpired(windows, now, c.windowMs); i < |all| && |all| - 1 - i < c.maxKeys
    requires Distinct(Swept(windows, now, c))
    ensures WindowOf(Swept(windows, now, c), Unexpired(windows, now, c.windowMs)[i].key).Some?
  {
    var all, swept := Unexpired(windows, now, c.windowMs), Swept(windows, now, c);
    var at := if |all| > c.maxKeys then i - (|all| - c.maxKeys) else i;
    assert swept[at] == all[i];
    WindowIs(swept, at);
  }

  /** The bound on any span, for callers: it holds while fewer than maxKeys other keys call within the window's length. */
  lemma {:induction false} TwiceTheLimitWhenQuiet(c: Limits, calls: seq<Call>, key: string, a: nat, b: nat)
    requires Timely(calls) && a < b <= |calls| && calls[b - 1].now < calls[a].now + c.windowMs
    requires forall n :: a <= n < b ==> |OthersLately(c, calls, key, n)| < c.maxKeys
    ensures Allowances(c, calls, key, a, b) <= 2 * Bound(c)
  {
    forall n | a <= n < b
      ensures !Evicts(StateAt(c, calls, n), key, calls[n].now, c)
    {
      QuietIsNotEvicted(c, calls, key, n);
    }
    TwiceTheLimit(c, calls, key, a, b);
  }

  // ----- waiting is enough ----------------------------------------------------

  lemma {:induction false} LeftAlone(ws: seq<Option<Window>>, a: nat, b: nat)
    requires a <= b < |ws|
    requires forall n :: a <= n < b ==> (ws[n + 1].Some? ==> ws[n + 1] == ws[n])
    ensures ws[b].Some? ==> ws[b] == ws[a]
    decreases b
  {
    if a < b {
      LeftAlone(ws, a, b - 1);
      assert ws[b - 1 + 1].Some? ==> ws[b - 1 + 1] == ws[b - 1];
    }
  }

  /** Other keys' calls leave a key's window alone, if they do not drop it. */
  lemma {:induction false} OthersLeave(c: Limits, calls: seq<Call>, key: string, a: nat, b: nat)
    requires Timely(calls) && a <= b <= |calls|
    requires forall i :: a <= i < b ==> calls[i].key != key
    ensures Trace(c, calls, key)[b].Some? ==> Trace(c, calls, key)[b] == Trace(c, calls, key)[a]
  {
    forall n | a <= n < b
      ensures Trace(c, calls, key)[n + 1].Some? ==> Trace(c, calls, key)[n + 1] == Trace(c, calls, key)[n]
    {
      OtherLeaves(c, calls, key, n);
    }
    LeftAlone(Trace(c, calls, key), a, b);
  }

  lemma {:induction false} OtherLeaves(c: Limits, calls: seq<Call>, key: string, n: nat)
    requires Timely(calls) && n < |calls| && calls[n].key != key
    ensures Trace(c, calls, key)[n + 1].Some? ==> Trace(c, calls, key)[n + 1] == Trace(c, calls, key)[n]
  {
    RunsAreSound(c, calls, n);
    SweptWindow(StateAt(c, calls, n), key, calls[n].now, c);
    CountedWindow(StateAt(c, calls, n), calls[n].key, calls[n].now, c, key);
    assert Trace(c, calls, key)[n + 1] == WindowOf(StateAt(c, calls, n + 1), key);
    assert Trace(c, calls, key)[n] == WindowOf(StateAt(c, calls, n), key);
  }

  lemma {:induction false} SecondsCover(ms: int)
    ensures 1000 * CeilSeconds(ms) >= ms
  {
  }

  /** Whole seconds, the fewest that cover the milliseconds. */
  lemma {:induction false} SecondsAreFewest(ms: int)
    ensures 1000 * (CeilSeconds(ms) - 1) < ms <= 1000 * CeilSeconds(ms)
  {
  }

  /** A refusal names the fewest whole seconds, but at least one, after which the window it counted in has ended. */
  lemma {:induction false} RefusalNamesTheEnd(c: Limits, calls: seq<Call>, key: string, n: nat)
    requires Timely(calls) && n < |calls| && calls[n].key == key && !Passes(c, calls, n, key) && c.limit >= 1
    ensures var w, seconds := Trace(c, calls, key)[n + 1], RetryAfter(StateAt(c, calls, n), key, calls[n].now, c);
            && w.Some? && seconds >= 1
            && calls[n].now + 1000 * seconds >= w.value.startedAt + c.windowMs
            && (seconds > 1 ==> calls[n].now + 1000 * (seconds - 1) < w.value.startedAt + c.windowMs)
  {
    RefusedWindow(c, calls, key, n);
    RunsAreSound(c, calls, n);
    var before, now := StateAt(c, calls, n), calls[n].now;
    CountedWindow(before, key, now, c, key);
    assert Trace(c, calls, key)[n + 1] == WindowOf(StateAt(c, calls, n + 1), key);
    SecondsAreFewest(WindowOf(Swept(before, now, c), key).value.startedAt + c.windowMs - now);
  }

  /** The window a refused key is left with, and how long it is told to wait. */
  lemma {:induction false} RefusedWindow(c: Limits, calls: seq<Call>, key: string, n: nat)
    requires Timely(calls) && n < |calls| && calls[n].key == key && !Passes(c, calls, n, key) && c.limit >= 1
    ensures var w := Trace(c, calls, key)[n + 1];
            w.Some? &&
            calls[n].now + 1000 * RetryAfter(StateAt(c, calls, n), key, calls[n].now, c) >= w.value.startedAt + c.windowMs
  {
    RunsAreSound(c, calls, n);
    var before, now := StateAt(c, calls, n), calls[n].now;
    CountedWindow(before, key, now, c, key);
    assert Trace(c, calls, key)[n + 1] == WindowOf(StateAt(c, calls, n + 1), key);
    SecondsCover(WindowOf(Swept(before, now, c), key).value.startedAt + c.windowMs - now);
  }

  lemma {:induction false} EndedWindowPasses(c: Limits, calls: seq<Call>, key: string, m: nat)
    requires Timely(calls) && m < |calls| && calls[m].key == key && c.limit >= 1
    requires var w := Trace(c, calls, key)[m]; w.Some? ==> Expired(w.value, calls[m].now, c.windowMs)
    ensures Passes(c, calls, m, key)
  {
    assert Trace(c, calls, key)[m] == WindowOf(StateAt(c, calls, m), key);
    RunsAreSound(c, calls, m);
    SweptWindow(StateAt(c, calls, m), key, calls[m].now, c);
    CountedWindow(StateAt(c, calls, m), key, calls[m].now, c, key);
  }

  lemma {:induction false} WaitEnds(c: Limits, first: Option<Window>, last: Option<Window>, until: int, now: int)
    requires last.Some? ==> last == first
    requires first.Some? && until >= first.value.startedAt + c.windowMs && now >= until
    ensures last.Some? ==> Expired(last.value, now, c.windowMs)
  {
  }

  /** A refused key that waits the seconds it was told is let through at its next check. */
  lemma {:induction false} WaitingIsEnough(c: Limits, calls: seq<Call>, key: string, n: nat, m: nat)
    requires Timely(calls) && n < m < |calls| && calls[n].key == key && calls[m].key == key && c.limit >= 1
    requires forall i :: n < i < m ==> calls[i].key != key
    requires !Passes(c, calls, n, key)
    requires calls[m].now >= calls[n].now + 1000 * RetryAfter(StateAt(c, calls, n), key, calls[n].now, c)
    ensures Passes(c, calls, m, key)
  {
    var ws := Trace(c, calls, key);
    var until := calls[n].now + 1000 * RetryAfter(StateAt(c, calls, n), key, calls[n].now, c);
    RefusedWindow(c, calls, key, n);
    OthersLeave(c, calls, key, n + 1, m);
    WaitEnds(c, ws[n + 1], ws[m], until, calls[m].now);
    EndedWindowPasses(c, calls, key, m);
  }
}
