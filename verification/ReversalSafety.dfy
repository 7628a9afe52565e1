/**
 What a send gives back, and when a payment that can still settle is reversed. The two ways
 there are: a node that goes on retrying past the sweep's guard after a crash, and an LND
 listing that leaves the payment out.
 */
module ReversalSafety {
  import opened Options
  import opened LightningSend
  import S = Settlement

  /** tbReverse has run, or a reverse call is on its way to it. */
  ghost predicate Reversing(s: State) {
    s.pay.mem.reversals != [] || exists i :: i in s.pay.calls && s.pay.calls[i].Reversing()
  }

  /**
   Safe reversal: once a reverse call exists, no part of the payment has completed or
   completes at any point of the run.
   */
  lemma SafeReversal(c: Config, ss: seq<State>, ks: seq<Step>, i: nat, j: nat)
    requires Run(c, ss, ks) && GuardCovers(c) && ListsLnd(c) && i < |ss| && j < |ss|
    requires Reversing(ss[i])
    ensures !ss[j].net.AnyComplete()
  {
    RunInv(c, ss, ks, i);
    assert Lost(ss[i]);
    if j <= i {
      RunGrows(c, ss, ks, j, i);
    } else {
      RunGrows(c, ss, ks, i, j);
    }
    var s := ss[if j <= i then i else j];
    assert Lost(s);
    LostIsNotComplete(s);
  }

  lemma LostIsNotComplete(s: State)
    requires Lost(s)
    ensures !s.net.AnyComplete()
  {
  }

  /**
   Single settling node, whatever faults occur: LND is tried only once every CLN part has
   failed for good, so the two never both hold a part that is not failed.
   */
  lemma SingleSettlingNode(c: Config, ss: seq<State>, ks: seq<Step>, n: nat)
    requires Run(c, ss, ks) && n < |ss|
    ensures ss[n].net.lndBusy || ss[n].net.lnd != [] ==> ss[n].net.ClnFailed() && !ss[n].net.clnBusy
    ensures !(ss[n].net.ClnComplete() && Complete in ss[n].net.lnd)
  {
    RunInv(c, ss, ks, n);
    if ss[n].net.ClnComplete() {
      var g :| 0 <= g < |ss[n].net.cln| && Complete in ss[n].net.cln[g];
      assert !AllFailed(ss[n].net.cln[g]);
    }
  }

  function Sum(xs: seq<nat>): nat { if xs == [] then 0 else xs[0] + Sum(xs[1..]) }

  function Refunded(rs: seq<S.Refund>): nat { if rs == [] then 0 else rs[0].amount + Refunded(rs[1..]) }

  /**
   What a send gives back: all of the debit at most once and only if it failed for good, or
   else, once, the reserve a finalize call was handed less the fee its node reported; never both.
   */
  lemma GivenBack(c: Config, ss: seq<State>, ks: seq<Step>, n: nat)
    requires Run(c, ss, ks) && GuardCovers(c) && ListsLnd(c) && !c.faults.late && n < |ss|
    ensures var m := ss[n].pay.mem;
            && Sum(m.reversals) + Refunded(m.refunds) <= m.debited.amount + m.debited.fee + m.debited.ourfee
            && (ss[n].net.AnyComplete() ==> m.reversals == [] && Refunded(m.refunds) <= m.debited.fee)
            && |m.refunds| <= 1 && forall r :: r in m.refunds ==> r.Exact()
  {
    RunInv(c, ss, ks, n);
    var m := ss[n].pay.mem;
    if m.reversals != [] {
      LostIsNotComplete(ss[n]);
      assert m.reversals == [m.reversals[0]];
    }
    if m.refunds != [] {
      assert m.refunds == [m.refunds[0]];
    }
  }

  // ---- The ways it can go wrong --------------------------------------------

  const NOTHING := Network([], [], false, false)

  const PAYING := Network([], [], true, false)

  const AT_LND := Network([], [Pending], false, false)

  /** The settlement's memory once debit() has written the record d. */
  function Debited(d: S.Record, queued: bool): S.Memory {
    S.Memory(d, Some(d), {d}, queued, false, false, [], [])
  }

  /** And once a reverse call has written the ledger. */
  function GivenUp(d: S.Record, queued: bool): S.Memory {
    Debited(d, queued).(reversing := true, reversals := [d.Total()])
  }

  /** The worker is at pc and no sweep is under way. */
  function Early(d: S.Record, net: Network, pc: Pc, clock: nat, stage: Stage): State {
    State(net, S.State(Debited(d, true), map[]), pc, map[], true, pc.InFlight(), clock, stage)
  }

  /** debit() goes through. */
  lemma DebitsOnce(c: Config, d: S.Record)
    requires !d.settled
    ensures Reachable(c, Early(d, NOTHING, Starting, 0, Recorded))
  {
    hide Reachable;
    var s := Early(d, NOTHING, Debiting, 0, Asked);
    Starts(c, s);
    var t := Early(d, NOTHING, Debiting, 0, Posted);
    Then(c, s, Debit(Posts), t);
    Then(c, t, Debit(Written), Early(d, NOTHING, Starting, 0, Recorded));
  }

  /** And the worker calls xpay. */
  lemma CallsXpay(c: Config, d: S.Record)
    requires !d.settled
    ensures Reachable(c, Early(d, PAYING, InXpay, 0, Recorded))
  {
    hide Reachable;
    DebitsOnce(c, d);
    Then(c, Early(d, NOTHING, Starting, 0, Recorded), Worker(Start), Early(d, PAYING, InXpay, 0, Recorded));
  }

  /** In some run a reversed payment completes. */
  ghost predicate Unsafe(c: Config) {
    exists s :: Reachable(c, s) && s.pay.mem.reversals != [] && s.net.AnyComplete()
  }

  /** The state after a crash 120 s into an xpay that is still retrying, and a restart. */
  function Orphaned(d: S.Record, sweeps: map<nat, Pc>): State {
    State(PAYING, S.State(Debited(d, true), map[]), Idle, sweeps, false, false, GUARD_MS, Recorded)
  }

  lemma CrashDuringXpay(c: Config, d: S.Record)
    requires c.faults.crash && c.retryMs > GUARD_MS && !d.settled
    ensures Reachable(c, Orphaned(d, map[]))
  {
    hide Reachable;
    CallsXpay(c, d);
    var s := Early(d, PAYING, InXpay, GUARD_MS, Recorded);
    Then(c, Early(d, PAYING, InXpay, 0, Recorded), Tick(GUARD_MS), s);
    Then(c, s, Crash, Orphaned(d, map[]));
  }

  /** A sweep that finds no node call running and the record old enough asks CLN. */
  lemma SweepLists(c: Config, d: S.Record)
    requires Reachable(c, Orphaned(d, map[])) && !d.settled
    ensures Reachable(c, Orphaned(d, map[1 := Listing(false, d, Reconcile)]))
  {
    hide Reachable;
    Then(c, Orphaned(d, map[]), Sweep(1, Lists), Orphaned(d, map[1 := Listed]));
    Then(c, Orphaned(d, map[1 := Listed]), Sweep(1, Reads), Orphaned(d, map[1 := Loaded(d)]));
    Then(c, Orphaned(d, map[1 := Loaded(d)]), Sweep(1, Guards),
         Orphaned(d, map[1 := Listing(false, d, Reconcile)]));
  }

  /** Nothing is listed, so it goes on to reverse the debit. */
  lemma SweepReverses(c: Config, d: S.Record)
    requires Reachable(c, Orphaned(d, map[1 := Listing(false, d, Reconcile)])) && !d.settled
    ensures Reachable(c, Calling(Orphaned(d, map[1 := InCall]), Debited(d, true), 1, S.RevClaim(d)))
  {
    hide Reachable;
    var s := Orphaned(d, map[1 := Listing(false, d, Reconcile)]);
    assert ListPays(PAYING) == [];
    if c.hasLnd {
      var t := Orphaned(d, map[1 := Listing(true, d, Reconcile)]);
      Then(c, s, ListAnswers(1, None, []), t);
      s := t;
    }
    Then(c, s, ListAnswers(1, None, []),
         Calling(Orphaned(d, map[1 := InCall]), Debited(d, true), 1, S.RevClaim(d)));
  }

  /** s with one finalize or reverse call, at call. */
  function Calling(s: State, m: S.Memory, i: nat, call: S.Call): State {
    s.(pay := S.State(m, map[i := call]))
  }

  lemma Advances(c: Config, s: State, m: S.Memory, i: nat, call: S.Call)
    requires Reachable(c, Calling(s, m, i, call)) && !call.Returned?
    ensures Reachable(c, Calling(s, S.Resolve(m, call).0, i, S.Resolve(m, call).1))
  {
    hide Reachable, S.Resolve;
    Then(c, Calling(s, m, i, call), Settle(S.Advance(i)), Calling(s, S.Resolve(m, call).0, i, S.Resolve(m, call).1));
  }

  /** A reverse call on an open record, run up to its ledger write. */
  lemma Reverses(c: Config, s: State, i: nat, d: S.Record, queued: bool)
    requires Reachable(c, Calling(s, Debited(d, queued), i, S.RevClaim(d))) && !d.settled
    ensures Reachable(c, Calling(s, GivenUp(d, queued), i, S.RevClean))
  {
    hide Reachable, Calling;
    var m := Debited(d, queued).(reversing := true);
    Advances(c, s, Debited(d, queued), i, S.RevClaim(d));
    Advances(c, s, m, i, S.RevPause(d));
    Advances(c, s, m, i, S.RevLoad(d));
    assert m.reversals + [d.Total()] == [d.Total()];
    Advances(c, s, m, i, S.RevLedger(d));
  }

  /** When the guard does not cover the retry window, a reversed payment can complete. */
  lemma ReversedThenCompleted(c: Config)
    requires !GuardCovers(c)
    ensures Unsafe(c)
  {
    hide Reachable;
    var d := S.Record(1, 0, 0, false);
    CrashDuringXpay(c, d);
    SweepLists(c, d);
    SweepReverses(c, d);
    Reverses(c, Orphaned(d, map[1 := InCall]), 1, d, true);
    var s := Calling(Orphaned(d, map[1 := InCall]), GivenUp(d, true), 1, S.RevClean);
    var t := s.(net := Network([[Pending]], [], true, false));
    Then(c, s, Node(NewGroup), t);
    assert [Pending][0 := Complete] == [Complete];
    assert [[Pending]][0 := [Complete]] == [[Complete]];
    s := t.(net := Network([[Complete]], [], true, false));
    Then(c, t, Node(ResolvePart(0, 0, Complete)), s);
    assert Complete in s.net.cln[0] && s.net.AnyComplete();
  }

  /** CLN fails before it creates a part, LND takes over, and its call fails with a payment pending. */
  lemma PendingAtLnd(c: Config, d: S.Record)
    requires c.hasLnd && !d.settled
    ensures Reachable(c, Early(d, AT_LND, Listing(false, d, Verify), 0, Recorded))
  {
    hide Reachable;
    CallsXpay(c, d);
    var s, t := Early(d, PAYING, InXpay, 0, Recorded), Early(d, NOTHING, AskSendPays, 0, Recorded);
    Then(c, s, Worker(XpayRejects(true)), t);
    assert ListSendPays(NOTHING.cln) == [] && ListPays(NOTHING) == [];
    s := Early(d, NOTHING, AskPays(false), 0, Recorded);
    Then(c, t, Worker(SendPaysAnswers(false)), s);
    t := Early(d, Network([], [], false, true), InLnd, 0, Recorded);
    Then(c, s, Worker(PaysAnswers(false)), t);
    s := Early(d, Network([], [Pending], false, true), InLnd, 0, Recorded);
    Then(c, t, Node(NewPayment), s);
    Then(c, s, Worker(LndRejects), Early(d, AT_LND, Listing(false, d, Verify), 0, Recorded));
  }

  /** The worker has left `pending` to reverse the debit. */
  function Leaving(d: S.Record, net: Network): State {
    Calling(Early(d, net, InCall, 0, Recorded), Debited(d, false), 0, S.RevClaim(d))
  }

  /** LND's listing leaves the pending payment out, so the worker goes on to reverse. */
  lemma LeftOutReverses(c: Config, d: S.Record)
    requires c.hasLnd && !c.lndListed && !d.settled
    ensures Reachable(c, Leaving(d, AT_LND))
  {
    hide Reachable;
    PendingAtLnd(c, d);
    assert ListPays(AT_LND) == [];
    var s := Early(d, AT_LND, Listing(false, d, Verify), 0, Recorded);
    var t := Early(d, AT_LND, Listing(true, d, Verify), 0, Recorded);
    Then(c, s, ListAnswers(0, None, []), t);
    s := Early(d, AT_LND, Removing(d, false), 0, Recorded);
    Then(c, t, ListAnswers(0, None, []), s);
    Then(c, s, Worker(Removed(None)), Leaving(d, AT_LND));
  }

  /** A payment LND's listing leaves out is reversed and completes. */
  lemma LeftOutThenCompleted(c: Config)
    requires c.hasLnd && !c.lndListed
    ensures Unsafe(c)
  {
    hide Reachable;
    var d := S.Record(1, 0, 0, false);
    LeftOutReverses(c, d);
    Reverses(c, Early(d, AT_LND, InCall, 0, Recorded), 0, d, false);
    var t := Calling(Early(d, AT_LND, InCall, 0, Recorded), GivenUp(d, false), 0, S.RevClean);
    assert [Pending][0 := Complete] == [Complete];
    var s := t.(net := Network([], [Complete], false, false));
    Then(c, t, Node(ResolvePayment(0, Complete)), s);
    assert s.net.AnyComplete();
  }

  /**
   A send is never reversed while it can settle, in every run, exactly when the process
   cannot die or no node retries past the 120 s guard, and LND's listing shows the payment.
   */
  lemma SafeReversalExactly(c: Config)
    ensures !Unsafe(c) <==> GuardCovers(c) && ListsLnd(c)
  {
    if !GuardCovers(c) {
      ReversedThenCompleted(c);
    } else if !ListsLnd(c) {
      LeftOutThenCompleted(c);
    } else {
      forall s | Reachable(c, s) && s.pay.mem.reversals != [] ensures !s.net.AnyComplete() {
        var ss: seq<State>, ks: seq<Step> :| Run(c, ss, ks) && ss[|ks|] == s;
        SafeReversal(c, ss, ks, |ks|, |ks|);
      }
    }
  }
}
