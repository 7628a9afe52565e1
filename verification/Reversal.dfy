/**
 The arithmetic of a lightning debit and its reversal: our fee is quoted on amount and fee,
 reduced by the fee credit tbDebit consumes, and reverse() recomputes the quote on the whole
 total to find the credit to restore. Rates are reals, Math.round is floor(x + 1/2).
 */
module Reversal {
  import opened Ledger
  import opened Operations

  /** debit: our fee before any fee credit. */
  function Quote(base: nat, rate: real): (q: nat)
    requires rate >= 0.0
  {
    var x := base as real * rate;
    assert x >= 0.0;
    Round(x)
  }

  lemma QuotesNearest(base: nat, rate: real)
    requires rate >= 0.0
    ensures Quote(base, rate) as real - 0.5 <= base as real * rate < Quote(base, rate) as real + 0.5
  {
    RoundsToNearest(base as real * rate);
  }

  /** reverse: the fee credit to restore. */
  function Restored(total: nat, ourfee: nat, rate: real): int {
    Round(total as real * rate) - ourfee
  }

  lemma RoundAdd(x: real, y: real)
    requires y >= 0.0
    ensures Round(x) <= Round(x + y) && (Round(x + y) - Round(x)) as real < y + 1.0
  {
  }

  lemma Distribute(a: nat, b: nat, rate: real)
    ensures (a + b) as real * rate == a as real * rate + b as real * rate
  {
    assert (a + b) as real == a as real + b as real;
  }

  /** The restored credit is at least the covered part and exceeds it by less than ourfee * rate + 2 sats. */
  lemma RestoresAtLeast(base: nat, rate: real, covered: nat)
    requires rate >= 0.0 && covered <= Quote(base, rate) * MSATS
    ensures var ourfee := Reduced(Quote(base, rate), covered);
            var restored := Restored(base + ourfee, ourfee, rate);
            && restored * MSATS >= covered
            && (restored * MSATS - covered) as real < (ourfee as real * rate + 2.0) * MSATS as real
  {
    var q := Quote(base, rate);
    var ourfee := Reduced(q, covered);
    var x, y := base as real * rate, ourfee as real * rate;
    Distribute(base, ourfee, rate);
    RoundAdd(x, y);
    var extra := Round(x + y) - q;
    assert Restored(base + ourfee, ourfee, rate) == q - ourfee + extra;
    assert (q - ourfee) * MSATS - covered < MSATS;
    assert (extra * MSATS) as real < (y + 1.0) * MSATS as real;
  }

  /**
   Exactly the covered part is restored when it was whole sats and quoting on our fee as well
   does not round to a higher quote.
   */
  lemma RestoresExactly(base: nat, rate: real, covered: nat)
    requires rate >= 0.0 && covered <= Quote(base, rate) * MSATS
    ensures var ourfee := Reduced(Quote(base, rate), covered);
            Restored(base + ourfee, ourfee, rate) * MSATS == covered <==>
            covered % MSATS == 0 && Quote(base + ourfee, rate) == Quote(base, rate)
  {
    var q := Quote(base, rate);
    var ourfee := Reduced(q, covered);
    Distribute(base, ourfee, rate);
    RoundAdd(base as real * rate, ourfee as real * rate);
  }

  /** A reversal can give fee credit that was never consumed. */
  lemma RestoresTooMuch()
    ensures Reduced(Quote(100, 0.1), 0) == 10
    ensures Restored(110, 10, 0.1) == 1
  {
    assert 100.0 * 0.1 == 10.0 && 110.0 * 0.1 == 11.0;
  }

  /**
   A debit and its reversal, with anything in between: the balance is as if neither had
   happened, and the fee credit is not lower, by less than ourfee * rate + 2 sats higher.
   */
  lemma DebitThenReverse(b: Book, between: seq<Op>, uid: nat, base: nat, rate: real, covered: nat)
    requires Valid(b) && rate >= 0.0 && covered <= Quote(base, rate) * MSATS
    requires Credit(uid, Lightning) in b
    requires CanDebit(b, Debit(uid, Credit(uid, Lightning), covered, base + Reduced(Quote(base, rate), covered)))
    ensures var ourfee := Reduced(Quote(base, rate), covered);
            var total := base + ourfee;
            var b1 := Apply(b, Debit(uid, Credit(uid, Lightning), covered, total));
            var b2 := ApplyAll(b1, between);
            var restored := Restored(total, ourfee, rate);
            && restored >= 0
            && var b3 := Apply(b2, Reverse(uid, total, restored));
            var credit := Micro(b3, Credit(uid, Lightning)) - Micro(b2, Credit(uid, Lightning))
                          + Micro(b1, Credit(uid, Lightning)) - Micro(b, Credit(uid, Lightning));
            && WholeSats(b3, Balance(uid)) == WholeSats(b2, Balance(uid)) + total
            && WholeSats(b1, Balance(uid)) == WholeSats(b, Balance(uid)) - total
            && 0 <= credit && credit as real < (ourfee as real * rate + 2.0) * MSATS as real
            && Untouched(b, b1, {Balance(uid), Credit(uid, Lightning)})
            && Untouched(b2, b3, {Balance(uid), Credit(uid, Lightning)})
  {
    hide Apply, Untouched, Sound;
    var ourfee := Reduced(Quote(base, rate), covered);
    var debit := Debit(uid, Credit(uid, Lightning), covered, base + ourfee);
    RestoresAtLeast(base, rate, covered);
    var restored := Restored(base + ourfee, ourfee, rate);
    DebitMoves(b, debit);
    ApplyValid(b, debit);
    HistoryValid(Apply(b, debit), between);
    ReverseMoves(ApplyAll(Apply(b, debit), between), uid, base + ourfee, restored);
  }
}
