/**
 The cumulative withdrawal breaker. The check runs before a send's debit and the record
 after it, so several sends can be between the two; how many, and how large one may be, is
 what the environment promises.
 */
module Breaker {
  import opened Sums
  import opened Windows

  /** CAP() and WINDOW_MS(); a cap of zero would disable the mechanism. */
  class WithdrawBreaker {
    const cap: nat
    const width: nat
    /** At most inFlight sends are between check and record, each of at most largest sats. */
    ghost const inFlight: nat
    ghost const largest: nat

    var file: seq<Entry>
    var locked: bool                   // the ALL.locked file
    ghost var history: seq<Entry>      // everything ever recorded
    ghost var open: map<nat, int>      // sends between check and record
    ghost var clock: nat
    ghost var stamp: nat               // when the file was last written

    /** The most any window can hold. */
    ghost function Bound(): nat
      requires inFlight > 0
    {
      cap + (inFlight - 1) * largest
    }

    ghost predicate Valid()
      reads this
    {
      && cap > 0 && width > 0 && inFlight > 0
      && stamp <= clock && file == Prune(history, stamp, width) && Past(history, clock)
      && (forall i :: i in open ==> 0 <= open[i] <= largest)
      && |open| <= inFlight
      && Bounded(history, width, Bound())
      && Total(Prune(history, clock, width)) + Sum(open) <= Bound()
    }

    constructor (cap: nat, width: nat, ghost inFlight: nat, ghost largest: nat)
      requires cap > 0 && width > 0 && inFlight > 0
      ensures Valid() && history == [] && open == map[] && clock == 0
      ensures this.cap == cap && this.width == width && this.inFlight == inFlight && this.largest == largest
    {
      this.cap, this.width, this.inFlight, this.largest := cap, width, inFlight, largest;
      file, locked := [], false;
      history, open, clock, stamp := [], map[], 0, 0;
    }

    /** The pruned file gives the same total as the full history. */
    lemma FileIsEnough(now: nat)
      requires Valid() && clock <= now
      ensures Prune(file, now, width) == Prune(history, now, width)
    {
      PruneTwice(history, stamp, now, width);
    }

    /**
     assertWithdrawBreaker, for send i: it passes exactly when everything withdrawn in the
     window that ends now and this amount stay within the cap. An unreadable file fails closed.
     */
    method Assert(now: nat, ghost i: nat, amount: nat, readable: bool) returns (ok: bool)
      requires Valid() && clock <= now
      requires i !in open && |open| < inFlight && amount <= largest
      modifies this`locked, this`open, this`clock
      ensures Valid() && clock == now
      ensures ok <==> readable && Within(history, now - width + 1, width) + amount <= cap
      ensures open == if ok then old(open)[i := amount] else old(open)
      ensures locked == (old(locked) || (readable && !ok))
    {
      hide Sum, Prune, Total, Bounded, Within;
      KeptIsWindow(history, now, width);
      TotalShrinks(history, clock, now, width);
      clock := now;
      if !readable {
        return false;
      }
      FileIsEnough(now);
      var entries := Prune(file, now, width);
      var total := Total(entries);
      if total + amount > cap {
        locked := true;
        return false;
      }
      SumUpdate(open, i, amount);
      OpenBound(open, largest, inFlight - 1);
      OpenGrows(open, i, amount);
      open := open[i := amount];
      return true;
    }

    /** The debit failed: send i is never recorded. */
    ghost method Abandon(i: nat)
      requires Valid() && i in open
      modifies this`open
      ensures Valid() && open == old(open) - {i}
    {
      SumSplit(open, i);
      DomainShrinks(open, i);
      open := open - {i};
    }

    /** recordWithdrawal: an unreadable file loses the record but never fails the payment. */
    method Record(now: nat, i: nat, amount: nat, readable: bool)
      requires Valid() && clock <= now && i in open && open[i] == amount
      modifies this`file, this`history, this`open, this`clock, this`stamp
      ensures Valid() && clock == now && open == old(open) - {i}
      ensures history == if readable then old(history) + [Entry(now, amount)] else old(history)
    {
      TotalShrinks(history, clock, now, width);
      SumSplit(open, i);
      DomainShrinks(open, i);
      SumNonnegative(open - {i});
      clock, open := now, open - {i};
      if readable {
        FileIsEnough(now);
        var entries := Prune(file, now, width);
        file := entries + [Entry(now, amount)];
        PruneAppend(history, Entry(now, amount), now, width);
        TotalAppend(Prune(history, now, width), Entry(now, amount));
        BoundedAppend(history, Entry(now, amount), width, Bound());
        history, stamp := history + [Entry(now, amount)], now;
      }
    }

    /** Every window of the configured length, wherever it starts, stays within the bound. */
    lemma AllWindows(from: int)
      requires Valid()
      ensures Within(history, from, width) <= cap + (inFlight - 1) * largest
    {
      EveryWindow(history, from, width, Bound());
    }
  }

  /** At most n sends of at most largest sats each. */
  lemma {:induction false} OpenBound(open: map<nat, int>, largest: nat, n: nat)
    requires |open| <= n && forall i :: i in open ==> open[i] <= largest
    ensures Sum(open) <= n * largest
    decreases n
  {
    if open != map[] {
      var i :| i in open;
      SumSplit(open, i);
      DomainShrinks(open, i);
      OpenBound(open - {i}, largest, n - 1);
      assert n * largest == (n - 1) * largest + largest;
    }
  }

  lemma OpenGrows(open: map<nat, int>, i: nat, amount: int)
    requires i !in open
    ensures |open[i := amount]| == |open| + 1
  {
    assert open[i := amount].Keys == open.Keys + {i};
  }

  lemma DomainShrinks(open: map<nat, int>, i: nat)
    requires i in open
    ensures |open - {i}| == |open| - 1
  {
    assert (open - {i}).Keys == open.Keys - {i};
  }

  lemma TwoEntries(cap: nat, width: nat)
    requires width > 0
    ensures forall from: int :: Within([], from, width) == 0
    ensures Within([Entry(0, cap)] + [Entry(0, cap)], 0, width) == cap + cap
  {
    var es := [Entry(0, cap)] + [Entry(0, cap)];
    assert es[1..] == [Entry(0, cap)];
    assert Within(es[1..], 0, width) == cap;
  }

  /** The bound is reached: two sends between check and record go past the cap by a whole send. */
  method TwoInFlight(cap: nat, width: nat) returns (b: WithdrawBreaker)
    requires cap > 0 && width > 0
    ensures fresh(b) && b.Valid() && b.cap == cap && b.inFlight == 2 && b.largest == cap && b.width == width
    ensures Within(b.history, 0, width) == cap + (b.inFlight - 1) * b.largest
  {
    hide Bounded, Sum, Total, Prune, Within, Past;
    TwoEntries(cap, width);
    b := new WithdrawBreaker(cap, width, 2, cap);
    var first := b.Assert(0, 0, cap, true);
    var second := b.Assert(0, 1, cap, true);
    assert first && second;
    b.Record(0, 0, cap, true);
    assert b.history == [Entry(0, cap)];
    b.Record(0, 1, cap, true);
    assert b.history == [Entry(0, cap)] + [Entry(0, cap)];
  }
}
