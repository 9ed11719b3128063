/**
 The fixed-window rate limiter with a bounded key space
 (backend/src/adapters/http/rate-limit.ts). The map of windows is a sequence in
 insertion order, each key at most once; times are milliseconds.
 */
module RateLimiter {
  import opened Wrappers

  datatype Window = Window(key: string, startedAt: int, count: nat)

  datatype Limits = Limits(limit: int, windowMs: int, maxKeys: nat)

  predicate Expired(w: Window, now: int, windowMs: int) {
    now - w.startedAt >= windowMs
  }

  function Unexpired(windows: seq<Window>, now: int, windowMs: int): seq<Window> {
    if windows == [] then []
    else
      (if Expired(windows[0], now, windowMs) then [] else [windows[0]]) + Unexpired(windows[1..], now, windowMs)
  }

  /** The youngest of them, as many as there may be. */
  function Newest(windows: seq<Window>, maxKeys: nat): seq<Window> {
    if |windows| > maxKeys then windows[|windows| - maxKeys..] else windows
  }

  function Swept(windows: seq<Window>, now: int, c: Limits): seq<Window> {
    Newest(Unexpired(windows, now, c.windowMs), c.maxKeys)
  }

  function Lookup(windows: seq<Window>, key: string): (r: Option<nat>)
    ensures r.Some? ==> r.value < |windows| && windows[r.value].key == key
    ensures r.None? ==> forall i :: 0 <= i < |windows| ==> windows[i].key != key
  {
    if windows == [] then None
    else if windows[|windows| - 1].key == key then Some(|windows| - 1)
    else Lookup(windows[..|windows| - 1], key)
  }

  /** The windows after a check: the key's count raised, or a window opened for it. */
  function Counted(windows: seq<Window>, key: string, now: int, c: Limits): seq<Window> {
    var swept := Swept(windows, now, c);
    var at := Lookup(swept, key);
    if at.Some? then swept[at.value := swept[at.value].(count := swept[at.value].count + 1)]
    else swept + [Window(key, now, 1)]
  }

  function Allows(windows: seq<Window>, key: string, now: int, c: Limits): bool {
    var swept := Swept(windows, now, c);
    var at := Lookup(swept, key);
    (if at.Some? then swept[at.value].count + 1 else 1) <= c.limit
  }

  function CeilSeconds(ms: int): int {
    -((-ms) / 1000)
  }

  /** Zero if allowed, otherwise the seconds until the key's window ends, at least one. */
  function RetryAfter(windows: seq<Window>, key: string, now: int, c: Limits): int {
    if Allows(windows, key, now, c) then 0
    else
      var swept := Swept(windows, now, c);
      var at := Lookup(swept, key);
      var startedAt := if at.Some? then swept[at.value].startedAt else now;
      var seconds := CeilSeconds(startedAt + c.windowMs - now);
      if seconds > 1 then seconds else 1
  }

  ghost predicate Distinct(windows: seq<Window>) {
    forall i, j :: 0 <= i < j < |windows| ==> windows[i].key != windows[j].key
  }

  // ----- the limiter ----------------------------------------------------------

  class RateLimiter {
    const limits: Limits
    var windows: seq<Window>

    constructor (limits: Limits)
      ensures this.limits == limits && windows == []
    {
      this.limits, windows := limits, [];
    }

    method Check(key: string, now: int) returns (allowed: bool, retryAfterSeconds: int)
      requires Distinct(windows)
      modifies this
      ensures windows == Counted(old(windows), key, now, limits) && Distinct(windows)
      ensures allowed == Allows(old(windows), key, now, limits)
      ensures retryAfterSeconds == RetryAfter(old(windows), key, now, limits)
    {
      Sweep(now);
      ghost var swept := windows;
      var at := Lookup(windows, key);
      if at.Some? {
        SweptAreCurrent(old(windows), now, limits, at.value);
      }
      if at.None? || Expired(windows[at.value], now, limits.windowMs) {
        windows := windows + [Window(key, now, 0)];
        at := Some(|windows| - 1);
      }
      var window := windows[at.value].(count := windows[at.value].count + 1);
      windows := windows[at.value := window];
      assert Lookup(swept, key).None? ==> windows == swept + [Window(key, now, 1)];
      allowed := window.count <= limits.limit;
      var seconds := CeilSeconds(window.startedAt + limits.windowMs - now);
      retryAfterSeconds := if allowed then 0 else if seconds > 1 then seconds else 1;
    }

    method Sweep(now: int)
      requires Distinct(windows)
      modifies this
      ensures windows == Swept(old(windows), now, limits) && Distinct(windows)
    {
      var i := 0;
      ghost var kept, rest := [], windows;
      while i < |windows|
        invariant i == |kept| && windows == kept + rest && Distinct(windows)
        invariant Unexpired(old(windows), now, limits.windowMs) == kept + Unexpired(rest, now, limits.windowMs)
        decreases |rest|
      {
        NextWindow(kept, rest);
        if Expired(windows[i], now, limits.windowMs) {
          windows := windows[..i] + windows[i + 1..];
        } else {
          i := i + 1;
          kept := kept + [rest[0]];
        }
        rest := rest[1..];
      }
      ghost var left := windows;
      while |windows| > limits.maxKeys
        invariant Newest(windows, limits.maxKeys) == Newest(left, limits.maxKeys) && Distinct(windows)
      {
        WithoutOldest(windows, limits.maxKeys);
        windows := windows[1..];
      }
    }
  }

  lemma {:induction false} WithoutOldest(windows: seq<Window>, maxKeys: nat)
    requires |windows| > maxKeys && Distinct(windows)
    ensures Newest(windows[1..], maxKeys) == Newest(windows, maxKeys) && Distinct(windows[1..])
  {
  }

  lemma {:induction false} NextWindow(kept: seq<Window>, rest: seq<Window>)
    requires rest != [] && Distinct(kept + rest)
    ensures var windows, i := kept + rest, |kept|;
            && windows[i] == rest[0] && windows == (kept + [rest[0]]) + rest[1..]
            && windows[..i] + windows[i + 1..] == kept + rest[1..] && Distinct(kept + rest[1..])
    ensures forall now, windowMs ::
              (if Expired(rest[0], now, windowMs) then kept else kept + [rest[0]]) + Unexpired(rest[1..], now, windowMs) ==
              kept + Unexpired(rest, now, windowMs)
  {
    var windows, i := kept + rest, |kept|;
    assert windows[..i] == kept && windows[i + 1..] == rest[1..];
    forall a, b | 0 <= a < b < |kept + rest[1..]|
      ensures (kept + rest[1..])[a].key != (kept + rest[1..])[b].key
    {
      assert (kept + rest[1..])[a] == windows[if a < i then a else a + 1];
      assert (kept + rest[1..])[b] == windows[if b < i then b else b + 1];
    }
  }

  lemma {:induction false} UnexpiredAre(windows: seq<Window>, now: int, windowMs: int, i: nat)
    requires i < |Unexpired(windows, now, windowMs)|
    ensures Unexpired(windows, now, windowMs)[i] in windows && !Expired(Unexpired(windows, now, windowMs)[i], now, windowMs)
  {
    if windows != [] {
      if Expired(windows[0], now, windowMs) {
        UnexpiredAre(windows[1..], now, windowMs, i);
      } else if i > 0 {
        UnexpiredAre(windows[1..], now, windowMs, i - 1);
      }
    }
  }

  lemma {:induction false} SweptAreCurrent(windows: seq<Window>, now: int, c: Limits, i: nat)
    requires i < |Swept(windows, now, c)|
    ensures Swept(windows, now, c)[i] in windows && !Expired(Swept(windows, now, c)[i], now, c.windowMs)
  {
    var all := Unexpired(windows, now, c.windowMs);
    UnexpiredAre(windows, now, c.windowMs, if |all| > c.maxKeys then |all| - c.maxKeys + i else i);
  }
}
