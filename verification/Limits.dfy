/**
 A payment type's withdrawal limit, kept behind a promise-chain lock: debit() reserves from it
 and freezeCheck rewrites it.
 */
module Limits {
  import opened Locks

  /**
   debit() reserves before it checks the sign of the amount, and not every caller has checked
   it: pay_keysend hands on what the wallet sent.
   */
  datatype Op = Reserve(amount: int) | Refresh(limit: nat)

  function Apply(limit: int, op: Op): int {
    match op
    case Reserve(amount) => if amount > limit then limit else limit - amount
    case Refresh(l) => l
  }

  lemma {:induction false} SerialNonnegative(v: int, ops: seq<Op>, thrown: set<nat>, n: nat)
    requires v >= 0 && n <= |ops|
    ensures Serial(Apply, v, ops, thrown, n) >= 0
  {
    if n > 0 {
      SerialNonnegative(v, ops, thrown, n - 1);
    }
  }

  /** The counter never goes below zero, whoever reserves, throws or refreshes. */
  lemma LimitNeverNegative(form: Form, ss: seq<State<int, Op>>, ks: seq<Step<Op>>, n: nat)
    requires Run(form, Apply, ss, ks) && n < |ss| && ss[0].cell >= 0
    ensures ss[n].cell >= 0
  {
    Linearizes(form, Apply, ss, ks, n);
    SerialNonnegative(ss[0].cell, ss[n].ops, ss[n].thrown, Served(ss[n].phases));
  }

  /** What reservation i is granted. */
  function Granted(v: int, ops: seq<Op>, thrown: set<nat>, i: nat): int
    requires i < |ops|
  {
    if i !in thrown && ops[i].Reserve? && ops[i].amount <= Serial(Apply, v, ops, thrown, i) then ops[i].amount else 0
  }

  /** The positive reservations granted from the m-th to the n-th. */
  function Outflow(v: int, ops: seq<Op>, thrown: set<nat>, m: nat, n: nat): nat
    requires m <= n <= |ops|
  {
    if n == m then 0
    else
      var g := Granted(v, ops, thrown, n - 1);
      Outflow(v, ops, thrown, m, n - 1) + if g > 0 then g else 0
  }

  predicate NoRefresh(ops: seq<Op>, m: nat, n: nat)
    requires m <= n <= |ops|
  {
    forall i :: m <= i < n ==> ops[i].Reserve?
  }

  lemma {:induction false} OutflowTakenOff(v: int, ops: seq<Op>, thrown: set<nat>, m: nat, n: nat)
    requires m <= n <= |ops| && NoRefresh(ops, m, n) && forall i :: m <= i < n ==> ops[i].amount >= 0
    ensures Outflow(v, ops, thrown, m, n) == Serial(Apply, v, ops, thrown, m) - Serial(Apply, v, ops, thrown, n)
  {
    if m < n {
      OutflowTakenOff(v, ops, thrown, m, n - 1);
    }
  }

  /** A reservation is granted exactly when what was granted before it leaves room for it. */
  lemma GrantedExactly(limit: nat, ops: seq<Op>, i: nat)
    requires i < |ops| && NoRefresh(ops, 0, |ops|) && forall j :: 0 <= j <= i ==> ops[j].amount >= 0
    ensures Granted(limit, ops, {}, i) ==
            if Outflow(limit, ops, {}, 0, i) + ops[i].amount <= limit then ops[i].amount else 0
  {
    OutflowTakenOff(limit, ops, {}, 0, i);
  }

  /**
   Between two refreshes the reservations granted never sum above the limit written by the
   first, when no amount is negative.
   */
  lemma WithinWrittenLimit(form: Form, ss: seq<State<int, Op>>, ks: seq<Step<Op>>, n: nat, m: nat)
    requires Run(form, Apply, ss, ks) && n < |ss| && ss[0].cell >= 0
    requires m <= Served(ss[n].phases) <= |ss[n].ops| && NoRefresh(ss[n].ops, m, Served(ss[n].phases))
    requires forall i :: m <= i < Served(ss[n].phases) ==> ss[n].ops[i].amount >= 0
    ensures Outflow(ss[0].cell, ss[n].ops, ss[n].thrown, m, Served(ss[n].phases))
            <= Serial(Apply, ss[0].cell, ss[n].ops, ss[n].thrown, m)
  {
    var s := ss[n];
    OutflowTakenOff(ss[0].cell, s.ops, s.thrown, m, Served(s.phases));
    SerialNonnegative(ss[0].cell, s.ops, s.thrown, Served(s.phases));
  }

  // ---- Negative amounts -----------------------------------------------------

  /** The positive amounts among the first n reservations. */
  function Positive(ops: seq<Op>, n: nat): nat
    requires n <= |ops| && NoRefresh(ops, 0, |ops|)
  {
    if n == 0 then 0 else Positive(ops, n - 1) + if ops[n - 1].amount > 0 then ops[n - 1].amount else 0
  }

  predicate NegativeBefore(ops: seq<Op>, n: nat)
    requires n <= |ops| && NoRefresh(ops, 0, |ops|)
  {
    exists m :: 0 <= m < n && ops[m].amount < 0
  }

  /** No reservation of a negative amount is followed by one of a positive amount. */
  predicate NegativesLast(ops: seq<Op>)
    requires NoRefresh(ops, 0, |ops|)
  {
    forall m, n :: 0 <= m < n < |ops| && ops[m].amount < 0 ==> ops[n].amount <= 0
  }

  lemma {:induction false} PositiveGrows(ops: seq<Op>, m: nat, n: nat)
    requires m <= n <= |ops| && NoRefresh(ops, 0, |ops|)
    ensures Positive(ops, m) <= Positive(ops, n)
    decreases n
  {
    if m < n {
      PositiveGrows(ops, m, n - 1);
    }
  }

  /** With the negatives last, nothing more goes out once one has raised the limit. */
  lemma {:induction false} NegativesLastWithin(limit: nat, ops: seq<Op>, n: nat)
    requires n <= |ops| && NoRefresh(ops, 0, |ops|) && NegativesLast(ops)
    ensures Outflow(limit, ops, {}, 0, n) <= limit
  {
    if n > 0 {
      if NegativeBefore(ops, n - 1) {
        NegativesLastWithin(limit, ops, n - 1);
      } else {
        forall i | 0 <= i < n - 1 ensures ops[i].amount >= 0 {
          assert !NegativeBefore(ops, n - 1);
        }
        OutflowTakenOff(limit, ops, {}, 0, n - 1);
        SerialNonnegative(limit, ops, {}, n - 1);
      }
    }
  }

  /** On a limit one below what is asked for, a negative amount makes room for all that follows. */
  lemma {:induction false} AllGranted(ops: seq<Op>, m: nat, last: nat, n: nat)
    requires m < last < |ops| && n <= |ops| && NoRefresh(ops, 0, |ops|)
    requires ops[m].amount < 0 && ops[last].amount > 0
    ensures Positive(ops, |ops|) > 0
    ensures var limit := Positive(ops, |ops|) - 1;
            && Outflow(limit, ops, {}, 0, n) == Positive(ops, n)
            && Serial(Apply, limit, ops, {}, n) >= limit - Positive(ops, n) + if m < n then 1 else 0
    decreases n
  {
    PositiveGrows(ops, last + 1, |ops|);
    if n > 0 {
      var limit := Positive(ops, |ops|) - 1;
      AllGranted(ops, m, last, n - 1);
      SerialNonnegative(limit, ops, {}, n - 1);
      PositiveGrows(ops, n, |ops|);
      if n <= last {
        PositiveGrows(ops, n, last);
      }
    }
  }

  /**
   A list of reservations stays within every written limit exactly when no negative amount in
   it is followed by a positive one.
   */
  lemma WithinLimitExactly(ops: seq<Op>)
    requires NoRefresh(ops, 0, |ops|)
    ensures (forall limit: nat :: Outflow(limit, ops, {}, 0, |ops|) <= limit) <==> NegativesLast(ops)
  {
    if NegativesLast(ops) {
      forall limit: nat ensures Outflow(limit, ops, {}, 0, |ops|) <= limit {
        NegativesLastWithin(limit, ops, |ops|);
      }
    } else {
      var m, n :| 0 <= m < n < |ops| && ops[m].amount < 0 && ops[n].amount > 0;
      AllGranted(ops, m, n, |ops|);
      var limit: nat := Positive(ops, |ops|) - 1;
      assert Outflow(limit, ops, {}, 0, |ops|) > limit;
    }
  }
}
