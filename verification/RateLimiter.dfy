/**
 Fixed-window request limits: per key a count and the time it resets, in a Map that a
 periodic sweep cleans of entries that have run out. Keys are abstract.
 */
module RateLimiter {
  import opened Options

  datatype Hit = Hit(count: nat, reset: nat)

  type Hits = map<nat, Hit>

  /** What a request does to the map, and whether it is let through. */
  function Admit(hits: Hits, key: nat, now: nat, max: nat, windowMs: nat): (Hits, bool) {
    if key in hits && now < hits[key].reset then
      var count := hits[key].count + 1;
      (hits[key := Hit(count, hits[key].reset)], count <= max)
    else (hits[key := Hit(1, now + windowMs)], true)
  }

  function Swept(hits: Hits, now: nat): Hits {
    map k | k in hits && now < hits[k].reset :: hits[k]
  }

  /** An admitted request and the start of the window it was counted in. */
  datatype Admission = Admission(at: nat, start: nat)

  /** Each is in its window, and the first of a window is at its start. */
  ghost predicate Placed(log: seq<Admission>, windowMs: nat) {
    && (forall i :: 0 <= i < |log| ==> log[i].start <= log[i].at < log[i].start + windowMs)
    && (forall i :: 0 <= i < |log| && log[i].at != log[i].start ==> i > 0 && log[i - 1].start == log[i].start)
  }

  /** Windows do not overlap. */
  ghost predicate Apart(log: seq<Admission>, windowMs: nat) {
    forall i, j :: 0 <= i < j < |log| ==>
      log[i].at <= log[j].at && (log[i].start == log[j].start || log[i].start + windowMs <= log[j].start)
  }

  /** A window has at most max. */
  ghost predicate AtMost(log: seq<Admission>, max: nat) {
    forall i, j :: 0 <= i && i + max <= j < |log| ==> log[i].start != log[j].start
  }

  /** Admissions of one key, oldest first, come in windows of at most max. */
  ghost predicate Spaced(log: seq<Admission>, max: nat, windowMs: nat) {
    Placed(log, windowMs) && Apart(log, windowMs) && AtMost(log, max)
  }

  /** How many of a window's admissions are in the log. */
  function InWindow(log: seq<Admission>, start: nat): (n: nat)
    ensures n <= |log|
  {
    if log == [] || log[|log| - 1].start != start then 0 else 1 + InWindow(log[..|log| - 1], start)
  }

  /** Admissions in the half-open interval that starts at from. */
  function Within(log: seq<Admission>, from: nat, windowMs: nat): nat {
    if log == [] then 0
    else Within(log[..|log| - 1], from, windowMs) +
         if from <= log[|log| - 1].at < from + windowMs then 1 else 0
  }

  /** Admissions 2 * max - 1 apart are a window apart. */
  lemma FarApart(log: seq<Admission>, max: nat, windowMs: nat, i: nat)
    requires max > 0 && Spaced(log, max, windowMs) && i + 2 * max - 1 < |log|
    ensures log[i].at + windowMs <= log[i + 2 * max - 1].at
  {
    var j := i + 2 * max - 1;
    if log[i].at == log[i].start {
      assert log[i].start != log[i + max].start;
      assert log[i + max].at <= log[j].at;
    } else {
      assert log[i - 1].start == log[i].start;
      assert log[i - 1].start != log[i - 1 + max].start;
      assert log[i - 1 + max].start != log[i - 1 + max + max].start;
    }
  }

  lemma {:induction false} NoneBefore(log: seq<Admission>, from: nat, windowMs: nat)
    requires forall i :: 0 <= i < |log| ==> log[i].at < from
    ensures Within(log, from, windowMs) == 0
    decreases |log|
  {
    if log != [] {
      NoneBefore(log[..|log| - 1], from, windowMs);
    }
  }

  lemma {:induction false} WithinTail(log: seq<Admission>, from: nat, windowMs: nat, m: nat)
    requires m <= |log|
    ensures Within(log, from, windowMs) <= Within(log[..m], from, windowMs) + |log| - m
    decreases |log|
  {
    if m < |log| {
      WithinTail(log[..|log| - 1], from, windowMs, m);
      assert log[..|log| - 1][..m] == log[..m];
    } else {
      assert log[..m] == log;
    }
  }

  lemma SpacedPrefix(log: seq<Admission>, max: nat, windowMs: nat, n: nat)
    requires Spaced(log, max, windowMs) && n <= |log|
    ensures Spaced(log[..n], max, windowMs)
  {
  }

  lemma PlacedAppend(log: seq<Admission>, a: Admission, windowMs: nat)
    requires Placed(log, windowMs) && a.start <= a.at < a.start + windowMs
    requires a.at != a.start ==> log != [] && log[|log| - 1].start == a.start
    ensures Placed(log + [a], windowMs)
  {
  }

  lemma ApartAppend(log: seq<Admission>, a: Admission, windowMs: nat)
    requires Apart(log, windowMs)
    requires forall i :: 0 <= i < |log| ==>
               log[i].at <= a.at && (log[i].start == a.start || log[i].start + windowMs <= a.start)
    ensures Apart(log + [a], windowMs)
  {
  }

  lemma AtMostAppend(log: seq<Admission>, a: Admission, max: nat)
    requires max > 0 && AtMost(log, max)
    requires forall i :: 0 <= i <= |log| - max ==> log[i].start != a.start
    ensures AtMost(log + [a], max)
  {
  }

  /** Of the entries from index m on, all but the last 2 * max - 1 are a window before the last. */
  lemma OnlyTheLast(log: seq<Admission>, max: nat, windowMs: nat, from: nat)
    requires max > 0 && Spaced(log, max, windowMs) && |log| >= 2 * max
    requires from <= log[|log| - 1].at < from + windowMs
    ensures forall i :: 0 <= i <= |log| - 2 * max ==> log[i].at < from
  {
    FarApart(log, max, windowMs, |log| - 2 * max);
  }

  /** Every half-open interval of the window's length holds at most 2 * max - 1 admissions. */
  lemma {:induction false} TwiceMax(log: seq<Admission>, max: nat, windowMs: nat, from: nat)
    requires max > 0 && Spaced(log, max, windowMs)
    ensures Within(log, from, windowMs) <= 2 * max - 1
    decreases |log|
  {
    hide Spaced;
    if log != [] {
      var n := |log| - 1;
      if !(from <= log[n].at < from + windowMs) {
        SpacedPrefix(log, max, windowMs, n);
        TwiceMax(log[..n], max, windowMs, from);
      } else if n < 2 * max - 1 {
        WithinTail(log, from, windowMs, 0);
      } else {
        var m := n - (2 * max - 1) + 1;
        OnlyTheLast(log, max, windowMs, from);
        NoneBefore(log[..m], from, windowMs);
        WithinTail(log, from, windowMs, m);
      }
    }
  }

  predicate Live(hit: Option<Hit>, now: nat) { hit.Some? && now < hit.value.reset }

  function Entry(hits: Hits, key: nat): Option<Hit> { if key in hits then Some(hits[key]) else None }

  /** The counter goes with a key's log: it counts the live window's admissions, up to max. */
  ghost predicate Tracks(log: seq<Admission>, hit: Option<Hit>, clock: nat, max: nat, windowMs: nat) {
    && Spaced(log, max, windowMs)
    && (forall i :: 0 <= i < |log| ==> log[i].at <= clock)
    && if Live(hit, clock) then
         && hit.value.reset >= windowMs && log != [] && log[|log| - 1].start == hit.value.reset - windowMs
         && InWindow(log, hit.value.reset - windowMs) == if hit.value.count < max then hit.value.count else max
       else forall i :: 0 <= i < |log| ==> log[i].start + windowMs <= clock
  }

  lemma TracksLater(log: seq<Admission>, hit: Option<Hit>, clock: nat, now: nat, max: nat, windowMs: nat)
    requires Tracks(log, hit, clock, max, windowMs) && clock <= now
    ensures Tracks(log, hit, now, max, windowMs)
  {
  }

  /** What is not among a window's admissions belongs to an earlier window. */
  lemma {:induction false} Others(log: seq<Admission>, windowMs: nat, start: nat)
    requires windowMs > 0 && forall i :: 0 <= i < |log| ==> log[i].start <= start
    requires forall i, j :: 0 <= i < j < |log| ==> log[i].start <= log[j].start
    ensures forall i :: 0 <= i < |log| - InWindow(log, start) ==> log[i].start != start
    decreases |log|
  {
    if log != [] && log[|log| - 1].start == start {
      Others(log[..|log| - 1], windowMs, start);
    }
  }

  lemma Room(log: seq<Admission>, hit: Hit, now: nat, max: nat, windowMs: nat)
    requires Tracks(log, Some(hit), now, max, windowMs) && windowMs > 0 && now < hit.reset && hit.count < max
    ensures forall i :: 0 <= i <= |log| - max ==> i < |log| && log[i].start != hit.reset - windowMs
  {
    Others(log, windowMs, hit.reset - windowMs);
  }

  lemma Counted(log: seq<Admission>, hit: Hit, now: nat, max: nat, windowMs: nat)
    requires Tracks(log, Some(hit), now, max, windowMs) && max > 0 && windowMs > 0
    requires now < hit.reset && hit.count < max
    ensures hit.reset >= windowMs
    ensures Tracks(log + [Admission(now, hit.reset - windowMs)], Some(Hit(hit.count + 1, hit.reset)), now,
                   max, windowMs)
  {
    hide InWindow, AtMost;
    var a := Admission(now, hit.reset - windowMs);
    Room(log, hit, now, max, windowMs);
    PlacedAppend(log, a, windowMs);
    ApartAppend(log, a, windowMs);
    AtMostAppend(log, a, max);
    AppendCounts(log, a);
  }

  lemma Rejected(log: seq<Admission>, hit: Hit, now: nat, max: nat, windowMs: nat)
    requires Tracks(log, Some(hit), now, max, windowMs) && now < hit.reset && hit.count >= max
    ensures Tracks(log, Some(Hit(hit.count + 1, hit.reset)), now, max, windowMs)
  {
  }

  /** An entry that has run out may as well be gone. */
  lemma Expired(log: seq<Admission>, hit: Option<Hit>, hit': Option<Hit>, now: nat, max: nat, windowMs: nat)
    requires Tracks(log, hit, now, max, windowMs) && (hit' == hit || (hit'.None? && !Live(hit, now)))
    ensures Tracks(log, hit', now, max, windowMs)
  {
  }

  lemma AppendCounts(log: seq<Admission>, a: Admission)
    ensures InWindow(log + [a], a.start) == InWindow(log, a.start) + 1
  {
    assert (log + [a])[..|log|] == log;
  }

  lemma Opened(log: seq<Admission>, hit: Option<Hit>, now: nat, max: nat, windowMs: nat)
    requires Tracks(log, hit, now, max, windowMs) && max > 0 && windowMs > 0
    requires !Live(hit, now)
    ensures Tracks(log + [Admission(now, now)], Some(Hit(1, now + windowMs)), now, max, windowMs)
  {
    var a := Admission(now, now);
    assert InWindow(log, now) == 0;
    hide InWindow, AtMost;
    PlacedAppend(log, a, windowMs);
    ApartAppend(log, a, windowMs);
    AtMostAppend(log, a, max);
    AppendCounts(log, a);
  }

  class Limiter {
    const max: nat
    const windowMs: nat
    var hits: Hits
    ghost var log: map<nat, seq<Admission>>
    ghost var clock: nat

    ghost function Log(key: nat): seq<Admission> reads this { if key in log then log[key] else [] }

    ghost predicate Valid() reads this {
      max > 0 && windowMs > 0 && forall key: nat :: Tracks(Log(key), Entry(hits, key), clock, max, windowMs)
    }

    constructor (max: nat, windowMs: nat)
      requires max > 0 && windowMs > 0
      ensures Valid() && hits == map[] && (forall key: nat :: Log(key) == []) && clock == 0
      ensures this.max == max && this.windowMs == windowMs
    {
      this.max, this.windowMs := max, windowMs;
      hits, log, clock := map[], map[], 0;
    }

    /** The middleware: true when the request goes on to next(). */
    method Request(key: nat, now: nat) returns (ok: bool)
      requires Valid() && clock <= now
      modifies this
      ensures Valid() && clock == now
      ensures (hits, ok) == Admit(old(hits), key, now, max, windowMs)
      ensures forall k: nat :: k != key ==> Log(k) == old(Log(k))
      ensures if ok then exists start :: Log(key) == old(Log(key)) + [Admission(now, start)]
              else Log(key) == old(Log(key))
    {
      hide Tracks;
      ghost var log0, hit0, clock0 := Log(key), Entry(hits, key), clock;
      TracksLater(log0, hit0, clock, now, max, windowMs);
      clock := now;
      if key in hits && now < hits[key].reset {
        var hit := hits[key];
        hits := hits[key := Hit(hit.count + 1, hit.reset)];
        ok := hit.count + 1 <= max;
        if ok {
          Counted(log0, hit, now, max, windowMs);
          log := log[key := log0 + [Admission(now, hit.reset - windowMs)]];
        } else {
          Rejected(log0, hit, now, max, windowMs);
        }
      } else {
        Opened(log0, hit0, now, max, windowMs);
        hits := hits[key := Hit(1, now + windowMs)];
        log := log[key := log0 + [Admission(now, now)]];
        ok := true;
      }
      forall k: nat | k != key ensures Tracks(Log(k), Entry(hits, k), now, max, windowMs) {
        assert Log(k) == old(Log(k)) && Entry(hits, k) == Entry(old(hits), k);
        TracksLater(Log(k), Entry(hits, k), clock0, now, max, windowMs);
      }
    }

    /** The periodic cleanup. */
    method Sweep(now: nat)
      requires Valid() && clock <= now
      modifies this
      ensures Valid() && clock == now && hits == Swept(old(hits), now) && log == old(log)
    {
      hide Tracks;
      forall k: nat ensures Tracks(Log(k), Entry(hits, k), now, max, windowMs) {
        TracksLater(Log(k), Entry(hits, k), clock, now, max, windowMs);
      }
      clock := now;
      ghost var hits0 := hits;
      var keys := hits.Keys;
      while keys != {}
        invariant keys <= hits0.Keys
        invariant hits == map k | k in hits0 && (k in keys || now < hits0[k].reset) :: hits0[k]
        invariant log == old(log) && clock == now
        decreases |keys|
      {
        var k :| k in keys;
        if now >= hits[k].reset {
          hits := hits - {k};
        }
        keys := keys - {k};
      }
      forall k: nat ensures Tracks(Log(k), Entry(hits, k), now, max, windowMs) {
        Expired(Log(k), Entry(hits0, k), Entry(hits, k), now, max, windowMs);
      }
    }

    /** At most 2 * max - 1 of a key's requests are admitted in any window of windowMs. */
    lemma AnyWindow(key: nat, from: nat)
      requires Valid()
      ensures Within(Log(key), from, windowMs) <= 2 * max - 1
    {
      assert Tracks(Log(key), Entry(hits, key), clock, max, windowMs);
      TwiceMax(Log(key), max, windowMs, from);
    }
  }

  lemma WithinAppend(log: seq<Admission>, a: Admission, from: nat, windowMs: nat)
    ensures Within(log + [a], from, windowMs) ==
            Within(log, from, windowMs) + if from <= a.at < from + windowMs then 1 else 0
  {
    assert (log + [a])[..|log|] == log;
  }

  /** n admitted requests in a row at one time. */
  method Repeat(l: Limiter, key: nat, now: nat, n: nat, from: nat)
    requires l.Valid() && l.clock <= now && from <= now < from + l.windowMs
    requires Live(Entry(l.hits, key), now) && l.hits[key].count + n <= l.max
    modifies l
    ensures l.Valid() && l.clock <= now
    ensures key in l.hits && l.hits[key] == Hit(old(l.hits[key].count) + n, old(l.hits[key].reset))
    ensures Within(l.Log(key), from, l.windowMs) == old(Within(l.Log(key), from, l.windowMs)) + n
  {
    hide Tracks, Within;
    for i := 0 to n
      invariant l.Valid() && l.clock <= now
      invariant key in l.hits && l.hits[key] == Hit(old(l.hits[key].count) + i, old(l.hits[key].reset))
      invariant Within(l.Log(key), from, l.windowMs) == old(Within(l.Log(key), from, l.windowMs)) + i
    {
      ghost var log := l.Log(key);
      var ok := l.Request(key, now);
      ghost var start :| l.Log(key) == log + [Admission(now, start)];
      WithinAppend(log, Admission(now, start), from, l.windowMs);
    }
  }

  /** The bound is reached: max - 1 requests at the end of one window and max in the next. */
  method Burst(max: nat, windowMs: nat) returns (l: Limiter)
    requires max > 0 && windowMs > 1
    ensures fresh(l) && l.Valid() && l.max == max && l.windowMs == windowMs
    ensures Within(l.Log(0), windowMs - 1, windowMs) == 2 * max - 1
  {
    hide Tracks;
    l := new Limiter(max, windowMs);
    ghost var none := l.Log(0);
    var ok := l.Request(0, 0);
    ghost var first :| l.Log(0) == none + [Admission(0, first)];
    WithinAppend(none, Admission(0, first), windowMs - 1, windowMs);
    Repeat(l, 0, windowMs - 1, max - 1, windowMs - 1);
    ghost var log := l.Log(0);
    ok := l.Request(0, windowMs);
    ghost var start :| l.Log(0) == log + [Admission(windowMs, start)];
    WithinAppend(log, Admission(windowMs, start), windowMs - 1, windowMs);
    Repeat(l, 0, windowMs, max - 1, windowMs - 1);
  }

  // ---- The sweep changes no decision ----------------------------------------

  datatype Event = Request(key: nat, now: nat) | Sweep(now: nat)

  predicate Monotone(es: seq<Event>, clock: nat) {
    && (forall i :: 0 <= i < |es| ==> clock <= es[i].now)
    && (forall i, j :: 0 <= i < j < |es| ==> es[i].now <= es[j].now)
  }

  /** The decisions on the requests among the events. */
  function Decisions(hits: Hits, es: seq<Event>, max: nat, windowMs: nat): seq<bool>
    decreases es
  {
    if es == [] then []
    else match es[0]
      case Request(key, now) =>
        var (hits', ok) := Admit(hits, key, now, max, windowMs);
        [ok] + Decisions(hits', es[1..], max, windowMs)
      case Sweep(now) => Decisions(Swept(hits, now), es[1..], max, windowMs)
  }

  function Requests(es: seq<Event>): seq<Event> {
    if es == [] then []
    else if es[0].Request? then [es[0]] + Requests(es[1..]) else Requests(es[1..])
  }

  /** Two maps with the same entries still live decide alike from then on. */
  ghost predicate Alike(h: Hits, g: Hits, now: nat) {
    forall k: nat :: SameEntry(h, g, k, now)
  }

  ghost predicate SameEntry(h: Hits, g: Hits, k: nat, now: nat) {
    Entry(h, k) == Entry(g, k) || (!Live(Entry(h, k), now) && !Live(Entry(g, k), now))
  }

  lemma AlikeLater(h: Hits, g: Hits, clock: nat, now: nat)
    requires Alike(h, g, clock) && clock <= now
    ensures Alike(h, g, now)
  {
    forall k: nat ensures SameEntry(h, g, k, now) {
      assert SameEntry(h, g, k, clock);
    }
  }

  /** Deleting expired entries, whenever and how often it happens, never changes a decision. */
  lemma {:induction false} SweepInvisible(h: Hits, g: Hits, es: seq<Event>, clock: nat, max: nat, windowMs: nat)
    requires Alike(h, g, clock) && Monotone(es, clock)
    ensures Decisions(h, es, max, windowMs) == Decisions(g, Requests(es), max, windowMs)
    decreases es
  {
    if es != [] {
      var now := es[0].now;
      AlikeLater(h, g, clock, now);
      if es[0].Request? {
        var k := es[0].key;
        var h', g' := Admit(h, k, now, max, windowMs).0, Admit(g, k, now, max, windowMs).0;
        assert SameEntry(h, g, k, now);
        forall j: nat ensures SameEntry(h', g', j, now) {
          assert SameEntry(h, g, j, now);
        }
        SweepInvisible(h', g', es[1..], now, max, windowMs);
        assert Requests(es)[1..] == Requests(es[1..]);
      } else {
        forall j: nat ensures SameEntry(Swept(h, now), g, j, now) {
          assert SameEntry(h, g, j, now);
        }
        SweepInvisible(Swept(h, now), g, es[1..], now, max, windowMs);
      }
    }
  }
}
