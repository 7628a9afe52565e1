/**
 Rolling windows: a list of timed amounts, pruned to the last width milliseconds whenever
 it is read, bounds what falls into every window of that length, wherever it starts.
 */
module Windows {

  datatype Entry = Entry(at: nat, amount: nat)

  /** The entries not yet out of the window at now. */
  function Prune(es: seq<Entry>, now: int, width: nat): seq<Entry> {
    if es == [] then []
    else
      var rest := Prune(es[1..], now, width);
      if now - es[0].at < width then [es[0]] + rest else rest
  }

  function Total(es: seq<Entry>): nat {
    if es == [] then 0 else es[0].amount + Total(es[1..])
  }

  /** What falls into the window that starts at from. */
  function Within(es: seq<Entry>, from: int, width: nat): nat {
    if es == [] then 0
    else (if from <= es[0].at < from + width then es[0].amount else 0) + Within(es[1..], from, width)
  }

  /** Pruning commutes with later pruning. */
  lemma {:induction false} PruneTwice(es: seq<Entry>, now: int, later: int, width: nat)
    requires now <= later
    ensures Prune(Prune(es, now, width), later, width) == Prune(es, later, width)
    decreases es
  {
    if es != [] {
      PruneTwice(es[1..], now, later, width);
      var rest := Prune(es[1..], now, width);
      assert ([es[0]] + rest)[1..] == rest;
    }
  }

  lemma {:induction false} PruneAppend(es: seq<Entry>, e: Entry, now: int, width: nat)
    requires now - e.at < width
    ensures Prune(es + [e], now, width) == Prune(es, now, width) + [e]
    decreases es
  {
    if es == [] {
      assert [] + [e] == [e];
    } else {
      PruneAppend(es[1..], e, now, width);
      assert (es + [e])[1..] == es[1..] + [e];
    }
  }

  lemma {:induction false} TotalAppend(es: seq<Entry>, e: Entry)
    ensures Total(es + [e]) == Total(es) + e.amount
    decreases es
  {
    if es == [] {
      assert [] + [e] == [e];
    } else {
      TotalAppend(es[1..], e);
      assert (es + [e])[1..] == es[1..] + [e];
    }
  }

  /** A window forgets as time passes. */
  lemma {:induction false} TotalShrinks(es: seq<Entry>, now: int, later: int, width: nat)
    requires now <= later
    ensures Total(Prune(es, later, width)) <= Total(Prune(es, now, width))
    decreases es
  {
    if es != [] {
      TotalShrinks(es[1..], now, later, width);
      var a, b := Prune(es[1..], now, width), Prune(es[1..], later, width);
      assert ([es[0]] + a)[1..] == a && ([es[0]] + b)[1..] == b;
    }
  }

  /** Entries recorded up to the n-th: what the window that ends with it holds. */
  function EndingAt(es: seq<Entry>, n: nat, width: nat): nat
    requires n < |es|
  {
    Total(Prune(es[..n + 1], es[n].at, width))
  }

  /** Each entry, when it was recorded, kept its window within the bound. */
  predicate Bounded(es: seq<Entry>, width: nat, bound: nat) {
    forall n :: 0 <= n < |es| ==> EndingAt(es, n, width) <= bound
  }

  lemma BoundedAppend(es: seq<Entry>, e: Entry, width: nat, bound: nat)
    requires Bounded(es, width, bound) && width > 0
    requires Total(Prune(es, e.at, width)) + e.amount <= bound
    ensures Bounded(es + [e], width, bound)
  {
    forall n | 0 <= n < |es + [e]| ensures EndingAt(es + [e], n, width) <= bound {
      if n < |es| {
        assert (es + [e])[..n + 1] == es[..n + 1];
        assert EndingAt(es, n, width) <= bound;
      } else {
        assert (es + [e])[..n + 1] == es + [e];
        PruneAppend(es, e, e.at, width);
        TotalAppend(Prune(es, e.at, width), e);
      }
    }
  }

  lemma {:induction false} WithinAppend(es: seq<Entry>, e: Entry, from: int, width: nat)
    ensures Within(es + [e], from, width) ==
            Within(es, from, width) + if from <= e.at < from + width then e.amount else 0
    decreases es
  {
    if es == [] {
      assert [] + [e] == [e];
    } else {
      WithinAppend(es[1..], e, from, width);
      assert (es + [e])[1..] == es[1..] + [e];
    }
  }

  /** A window ends no later than its last entry keeps it: it holds no more than was kept then. */
  lemma {:induction false} WithinKept(es: seq<Entry>, from: int, now: int, width: nat)
    requires now < from + width
    ensures Within(es, from, width) <= Total(Prune(es, now, width))
    decreases es
  {
    if es != [] {
      WithinKept(es[1..], from, now, width);
      var rest := Prune(es[1..], now, width);
      assert ([es[0]] + rest)[1..] == rest;
    }
  }

  /** No entry is dated after now. */
  predicate Past(es: seq<Entry>, now: int) { forall i :: 0 <= i < |es| ==> es[i].at <= now }

  /**
   What is kept at now is what falls into the window of that width that ends with now: nothing
   older, and all of it.
   */
  lemma {:induction false} KeptIsWindow(es: seq<Entry>, now: int, width: nat)
    requires Past(es, now)
    ensures Total(Prune(es, now, width)) == Within(es, now - width + 1, width)
    decreases es
  {
    if es != [] {
      KeptIsWindow(es[1..], now, width);
      var rest := Prune(es[1..], now, width);
      assert ([es[0]] + rest)[1..] == rest;
    }
  }

  /** The bound kept at every record holds of every window, wherever it starts. */
  lemma {:induction false} EveryWindow(es: seq<Entry>, from: int, width: nat, bound: nat)
    requires Bounded(es, width, bound)
    ensures Within(es, from, width) <= bound
    decreases |es|
  {
    if es != [] {
      var n := |es| - 1;
      assert es[..n] + [es[n]] == es && es[..n + 1] == es;
      WithinAppend(es[..n], es[n], from, width);
      if from <= es[n].at < from + width {
        WithinKept(es, from, es[n].at, width);
        assert EndingAt(es, n, width) <= bound;
      } else {
        forall m | 0 <= m < n ensures EndingAt(es[..n], m, width) <= bound {
          assert es[..n][..m + 1] == es[..m + 1];
          assert EndingAt(es, m, width) <= bound;
        }
        EveryWindow(es[..n], from, width, bound);
      }
    }
  }
}
