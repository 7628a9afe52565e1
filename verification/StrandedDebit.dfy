/**
 Is a lightning debit ever left behind: debited, neither given back nor paid, and with nobody
 left who will look at it? The invoice stands in `pending` from before debit() until a call
 takes charge of it, and check() takes out any invoice it finds no record for. The entry is
 the invoice's, so a new attempt on it shares the entry with what is left of an earlier one.
 */
module StrandedDebit {
  import opened Options
  import opened LightningSend
  import opened ReversalSafety
  import P = Progress
  import S = Settlement

  /** The worker has returned, and so has every sweep and every finalize or reverse call. */
  ghost predicate Unattended(s: State) {
    && s.worker.Idle?
    && (forall i :: i in s.sweeps ==> s.sweeps[i].Idle?)
    && (forall i :: i in s.pay.calls ==> s.pay.calls[i].Returned?)
  }

  /** The ledger was debited and no sweep will find the record, or none is to come. */
  ghost predicate Stranded(s: State) {
    && Unattended(s)
    && (s.stage.Posted? ||
        ((s.stage.Recorded? || s.stage.Unpointed?) && !S.Resolved(s.pay.mem) && !s.pay.mem.queued))
  }

  /**
   Nothing goes wrong around the record, before the reversal's ledger write, or in the process,
   and nothing of an earlier attempt on the invoice is left.
   */
  predicate Orderly(c: Config) {
    !c.faults.early && !c.faults.crash && !c.unrecorded && !c.gapReads && !c.retried
  }

  ghost predicate LiveInv(s: State) {
    s.stage.Refused? ||
    (&& S.LiveInv(s.pay) && !s.stage.Unpointed?
     && (!s.stage.Recorded? ==> s.worker.Debiting?)
     && (forall i :: i in s.sweeps && s.sweeps[i].Missed? ==> S.Resolved(s.pay.mem)))
  }

  /** A step of one process: no sweep but the i-th moves, and not into Missed. */
  ghost predicate NoNewMiss(s: State, s': State) {
    forall i :: i in s'.sweeps && s'.sweeps[i].Missed? ==> i in s.sweeps && s.sweeps[i].Missed?
  }

  lemma CallsLive(s: State, i: nat, p: S.Record, finalize: bool, netFee: Option<nat>, queued: bool, s': State)
    requires S.LiveInv(s.pay) && s.pay.At(i).Returned?
    requires s'.pay == S.State(s.pay.mem.(queued := queued),
                               s.pay.calls[i := if finalize then S.FinDequeue(p, netFee) else S.RevClaim(p)])
    ensures S.LiveInv(s'.pay) && (S.Resolved(s.pay.mem) ==> S.Resolved(s'.pay.mem))
  {
    S.CallLive(s.pay, i, if finalize then S.FinDequeue(p, netFee) else S.RevClaim(p), queued);
  }

  lemma WorkerLive(c: Config, s: State, k: WorkerStep, s': State)
    requires S.LiveInv(s.pay) && WorkerNext(c, s, k, s')
    ensures S.LiveInv(s'.pay) && (S.Resolved(s.pay.mem) ==> S.Resolved(s'.pay.mem))
    ensures s'.sweeps == s.sweeps && s'.stage == s.stage && !s.worker.Debiting?
  {
    match k
    case XpayReturns(r, netFee) =>
      if r.WithPreimage? {
        CallsLive(s, 0, s.pay.mem.debited, true, netFee, s.pay.mem.queued, s');
      }
    case LndReturns(preimage, netFee) =>
      if preimage {
        CallsLive(s, 0, s.pay.mem.debited, true, netFee, s.pay.mem.queued, s');
      }
    case Removed(netFee) =>
      CallsLive(s, 0, s.worker.p, s.worker.settled, netFee, false, s');
    case _ =>
  }

  lemma ActsLive(s: State, i: nat, v: Verdict, netFee: Option<nat>, s': State)
    requires S.LiveInv(s.pay) && s.At(i).Listing? && Acts(s, i, v, netFee, s')
    ensures S.LiveInv(s'.pay) && (S.Resolved(s.pay.mem) ==> S.Resolved(s'.pay.mem)) && NoNewMiss(s, s')
  {
    if s'.pay != s.pay {
      CallsLive(s, i, s.At(i).p, v.Settled?, netFee, s.pay.mem.queued, s');
    }
  }

  lemma ListAnswersLive(c: Config, s: State, i: nat, netFee: Option<nat>, shown: seq<Status>, s': State)
    requires S.LiveInv(s.pay) && Next(c, s, ListAnswers(i, netFee, shown), s')
    ensures S.LiveInv(s'.pay) && (S.Resolved(s.pay.mem) ==> S.Resolved(s'.pay.mem)) && NoNewMiss(s, s')
    ensures s'.stage == s.stage && (s.worker.Debiting? ==> s'.worker.Debiting?)
  {
    hide S.LiveInv;
    var v := Judge(if s.At(i).atLnd then shown else ListPays(s.net));
    if !(!s.At(i).atLnd && v.Dead? && c.hasLnd) {
      ActsLive(s, i, v, netFee, s');
    }
  }

  lemma SettleLive(c: Config, s: State, k: S.Step, s': State)
    requires !c.faults.early && S.Inv(c.faults, s.pay) && S.LiveInv(s.pay) && Next(c, s, Settle(k), s')
    ensures S.LiveInv(s'.pay) && (S.Resolved(s.pay.mem) ==> S.Resolved(s'.pay.mem))
  {
    hide S.Inv, S.LiveInv;
    if S.Resolved(s.pay.mem) {
      S.ResolvedKept(c.faults, s.pay, k, s'.pay);
    }
    if k.Advance? {
      S.AdvanceLive(c.faults, s.pay, k.i, s'.pay);
    } else {
      S.OtherLive(c.faults, s.pay, k, s'.pay);
    }
  }

  /** A sweep takes the invoice out of `pending` only when the debit is resolved. */
  lemma SweepLive(c: Config, s: State, i: nat, w: SweepStep, s': State)
    requires !c.gapReads && S.MemoryInv(s.pay.mem) && LiveInv(s) && SweepNext(c, s, i, w, s')
    ensures LiveInv(s')
  {
    if w.Drops? && !s.stage.Refused? {
      assert S.Resolved(s.pay.mem);
    }
  }

  lemma LiveNext(c: Config, s: State, k: Step, s': State)
    requires Orderly(c) && S.Inv(c.faults, s.pay) && LiveInv(s) && Next(c, s, k, s')
    ensures LiveInv(s')
  {
    hide S.LiveInv, S.Resolved, S.MemoryInv, SweepNext;
    match k
    case Debit(d) =>
    case Worker(w) => if !s.stage.Refused? { WorkerLive(c, s, w, s'); } else { WorkerStays(c, s, w, s'); }
    case ListAnswers(i, netFee, shown) =>
      if !s.stage.Refused? { ListAnswersLive(c, s, i, netFee, shown, s'); } else { ListAnswersStays(c, s, k, s'); }
    case Settle(step) => if !s.stage.Refused? { SettleLive(c, s, step, s'); }
    case Sweep(i, w) => SweepLive(c, s, i, w, s');
    case _ =>
  }

  lemma WorkerStays(c: Config, s: State, k: WorkerStep, s': State)
    requires WorkerNext(c, s, k, s')
    ensures s'.stage == s.stage
  {
  }

  lemma ListAnswersStays(c: Config, s: State, k: Step, s': State)
    requires k.ListAnswers? && Next(c, s, k, s')
    ensures s'.stage == s.stage
  {
  }

  lemma InitLive(s: State)
    requires Init(s)
    ensures LiveInv(s)
  {
  }

  lemma {:induction false} RunLive(c: Config, ss: seq<State>, ks: seq<Step>, n: nat)
    requires Run(c, ss, ks) && n < |ss| && Orderly(c)
    ensures LiveInv(ss[n])
  {
    hide Next, Init, LiveInv;
    if n == 0 {
      InitLive(ss[0]);
    } else {
      RunLive(c, ss, ks, n - 1);
      RunInv(c, ss, ks, n - 1);
      assert Next(c, ss[n - 1], ks[n - 1], ss[n]);
      LiveNext(c, ss[n - 1], ks[n - 1], ss[n]);
    }
  }

  /** A debit that is not resolved is in `pending`, or a call is working on it, at every point. */
  lemma AlwaysAttended(c: Config, ss: seq<State>, ks: seq<Step>, n: nat)
    requires Run(c, ss, ks) && n < |ss| && Orderly(c)
    ensures ss[n].stage.Posted? ==> ss[n].worker.Debiting?
    ensures ss[n].stage.Recorded? || ss[n].stage.Unpointed? ==>
              S.Resolved(ss[n].pay.mem) || S.Attended(ss[n].pay)
  {
    RunLive(c, ss, ks, n);
  }

  /** Whoever is left with an unresolved debit and nobody at work on it can sweep it up. */
  lemma SweepFinds(c: Config, s: State, i: nat)
    requires Orderly(c) && Reachable(c, s) && Unattended(s) && s.stage.Recorded? && !S.Resolved(s.pay.mem)
    requires i > 0 && s.clock >= GUARD_MS
    ensures P.Open(s) && P.SweepReady(s, i)
  {
    var ss: seq<State>, ks: seq<Step> :| Run(c, ss, ks) && ss[|ks|] == s;
    RunLive(c, ss, ks, |ks|);
    RunInv(c, ss, ks, |ks|);
    hide Run;
    assert S.Version(s.pay.mem.debited, s.pay.mem.record.value);
  }

  /**
   Orderly, a debit that its worker, every sweep and every call have left unresolved is brought
   to its end by the next sweep that finds it 120 s old: finalized if the payment completed,
   given back if everything failed for good, and kept for the next sweep otherwise.
   */
  lemma LeftDebitResolved(c: Config, q: P.Pass, s: State)
    requires Orderly(c) && Reachable(c, s) && Unattended(s) && s.stage.Recorded? && !S.Resolved(s.pay.mem)
    requires q.i > 0 && !q.bare && s.clock >= GUARD_MS
    requires (Complete in s.net.lnd ==> Complete in q.shown) && LndShows(c, s.net.lnd, q.shown)
    ensures s.pay.mem.queued && exists s' :: P.Passes(c, q, s, s')
    ensures forall s' :: P.Passes(c, q, s, s') ==>
              var m, m' := s.pay.mem, s'.pay.mem;
              if P.Completed(c, s.net, q.shown) then P.Finalized(m, m')
              else if P.FailedForGood(c, s.net, q.shown) then P.GivenUp(m, m')
              else m' == m
  {
    hide Reachable, LndShows;
    SweepFinds(c, s, q.i);
    P.SweepResolves(c, q, s);
  }

  // ---- The ways to strand a debit -------------------------------------------

  /** Some run strands its debit. */
  ghost predicate Strands(c: Config) { exists s :: Reachable(c, s) && Stranded(s) }

  /** xpay is rejected with no part created, nothing is listed, and the worker goes on to reverse. */
  lemma WorkerReverses(c: Config, d: S.Record)
    requires !d.settled
    ensures Reachable(c, Leaving(d, NOTHING))
  {
    hide Reachable;
    CallsXpay(c, d);
    var s := Early(d, NOTHING, Listing(false, d, Verify), 0, Recorded);
    Then(c, Early(d, PAYING, InXpay, 0, Recorded), Worker(XpayRejects(false)), s);
    assert ListPays(NOTHING) == [];
    if c.hasLnd {
      var t := Early(d, NOTHING, Listing(true, d, Verify), 0, Recorded);
      Then(c, s, ListAnswers(0, None, []), t);
      s := t;
    }
    var t := Early(d, NOTHING, Removing(d, false), 0, Recorded);
    Then(c, s, ListAnswers(0, None, []), t);
    Then(c, t, Worker(Removed(None)), Leaving(d, NOTHING));
  }

  /** tbReverse throws before it writes the ledger. */
  lemma ReverseFails(c: Config, d: S.Record)
    requires c.faults.early && !d.settled
    ensures Reachable(c, Calling(Early(d, NOTHING, InCall, 0, Recorded), Debited(d, false), 0, S.Returned))
  {
    hide Reachable;
    WorkerReverses(c, d);
    var s, m := Early(d, NOTHING, InCall, 0, Recorded), Debited(d, false).(reversing := true);
    Advances(c, s, Debited(d, false), 0, S.RevClaim(d));
    Then(c, Calling(s, m, 0, S.RevPause(d)), Settle(S.Throw(0)), Calling(s, m, 0, S.RevRelease));
    Advances(c, s, m, 0, S.RevRelease);
  }

  lemma EarlyStrands(c: Config)
    requires c.faults.early
    ensures Strands(c)
  {
    hide Reachable;
    var d := S.Record(1, 0, 0, false);
    ReverseFails(c, d);
    var s := Calling(Early(d, NOTHING, Idle, 0, Recorded), Debited(d, false), 0, S.Returned);
    Then(c, Calling(Early(d, NOTHING, InCall, 0, Recorded), Debited(d, false), 0, S.Returned), CallReturns(0), s);
    assert Stranded(s);
  }

  /** The process dies, or tbReverse throws, before the worker's reversal reaches the ledger. */
  lemma FaultStrands(c: Config)
    requires c.faults.early || c.faults.crash
    ensures Strands(c)
  {
    hide Reachable;
    if c.faults.early {
      EarlyStrands(c);
    } else {
      var d := S.Record(1, 0, 0, false);
      WorkerReverses(c, d);
      var s := State(NOTHING, S.State(Debited(d, false), map[]), Idle, map[], false, false, 0, Recorded);
      Then(c, Leaving(d, NOTHING), Crash, s);
      assert Stranded(s);
    }
  }

  /** debit() throws between the ledger's debit and the record. */
  lemma UnrecordedStrands(c: Config)
    requires c.unrecorded
    ensures Strands(c)
  {
    var d := S.Record(1, 0, 0, false);
    var t := Early(d, NOTHING, Debiting, 0, Asked);
    hide Reachable;
    Starts(c, t);
    var s := Early(d, NOTHING, Debiting, 0, Posted);
    Then(c, t, Debit(Posts), s);
    Then(c, s, Debit(ThrowsLate), s.Unqueue().Goto(0, Idle));
    assert Stranded(s.Unqueue().Goto(0, Idle));
  }

  /** debit() is at stage, or the worker behind it, with sweep 1 at sweep. */
  function InGap(d: S.Record, pc: Pc, stage: Stage, sweep: Pc): State {
    Early(d, NOTHING, pc, 0, stage).(sweeps := map[1 := sweep])
  }

  /** A sweep looks for the record before it is written, and drops the invoice after it is. */
  lemma SweepDropsEarly(c: Config, d: S.Record)
    requires c.gapReads && !d.settled
    ensures Reachable(c, InGap(d, Starting, Recorded, Idle).Unqueue())
  {
    var s := Early(d, NOTHING, Debiting, 0, Asked);
    hide Reachable;
    Starts(c, s);
    Then(c, s, Sweep(1, Lists), InGap(d, Debiting, Asked, Listed));
    Then(c, InGap(d, Debiting, Asked, Listed), Sweep(1, Reads), InGap(d, Debiting, Asked, Missed));
    Then(c, InGap(d, Debiting, Asked, Missed), Debit(Posts), InGap(d, Debiting, Posted, Missed));
    Then(c, InGap(d, Debiting, Posted, Missed), Debit(Written), InGap(d, Starting, Recorded, Missed));
    Then(c, InGap(d, Starting, Recorded, Missed), Sweep(1, Drops), InGap(d, Starting, Recorded, Idle).Unqueue());
  }

  /** Outside `pending`, the worker's xpay is rejected with a part pending. */
  lemma PendingOutside(c: Config, d: S.Record, t: State)
    requires Reachable(c, t) && t == Outside(d, Starting, t.stage, t.sweeps, NOTHING)
    ensures Reachable(c, Outside(d, Listing(false, d, Verify), t.stage, t.sweeps, PENDING))
  {
    hide Reachable;
    var s := Outside(d, InXpay, t.stage, t.sweeps, PAYING);
    Then(c, t, Worker(Start), s);
    var u := Outside(d, InXpay, t.stage, t.sweeps, Network([[Pending]], [], true, false));
    Then(c, s, Node(NewGroup), u);
    Then(c, u, Worker(XpayRejects(false)), Outside(d, Listing(false, d, Verify), t.stage, t.sweeps, PENDING));
  }

  const PENDING := Network([[Pending]], [], false, false)

  /** The invoice is no longer in `pending`. */
  function Outside(d: S.Record, pc: Pc, stage: Stage, sweeps: map<nat, Pc>, net: Network): State {
    Early(d, net, pc, 0, stage).Unqueue().(sweeps := sweeps)
  }

  /** And it leaves the payment to sweeps that will not come. */
  lemma LeftToNobody(c: Config, d: S.Record, t: State)
    requires Reachable(c, t) && t == Outside(d, Starting, t.stage, t.sweeps, NOTHING)
    requires !d.settled && (t.stage.Recorded? || t.stage.Unpointed?)
    requires forall i :: i in t.sweeps ==> t.sweeps[i].Idle?
    ensures Strands(c)
  {
    hide Reachable;
    PendingOutside(c, d, t);
    var u := Outside(d, Listing(false, d, Verify), t.stage, t.sweeps, PENDING);
    assert ListPays(PENDING)[0] == Pending;
    var s := Outside(d, Idle, t.stage, t.sweeps, PENDING);
    Then(c, u, ListAnswers(0, None, []), s);
    assert Stranded(s);
  }

  /** A sweep that looks for the record too early leaves the debit to nobody. */
  lemma GapStrands(c: Config)
    requires c.gapReads
    ensures Strands(c)
  {
    var d := S.Record(1, 0, 0, false);
    SweepDropsEarly(c, d);
    LeftToNobody(c, d, InGap(d, Starting, Recorded, Idle).Unqueue());
  }

  /** So does the clean-up of an earlier attempt's reversal that comes after the record is written. */
  lemma RetryStrands(c: Config)
    requires c.retried
    ensures Strands(c)
  {
    hide Reachable;
    var d := S.Record(1, 0, 0, false);
    DebitsOnce(c, d);
    var t := Outside(d, Starting, Unpointed, map[], NOTHING);
    Then(c, Early(d, NOTHING, Starting, 0, Recorded), OtherClears(true), t);
    LeftToNobody(c, d, t);
  }

  /**
   No run strands a debit exactly when the process cannot die, no reversal fails before it
   reaches the ledger, debit() does not throw between the ledger and the record, no sweep
   looks for the record in between, and nothing of an earlier attempt on the invoice is still
   to take it out of `pending`.
   */
  lemma NoStrandedDebitExactly(c: Config)
    ensures !Strands(c) <==> Orderly(c)
  {
    if c.faults.early || c.faults.crash {
      FaultStrands(c);
    } else if c.unrecorded {
      UnrecordedStrands(c);
    } else if c.gapReads {
      GapStrands(c);
    } else if c.retried {
      RetryStrands(c);
    } else {
      forall s | Reachable(c, s) ensures !Stranded(s) {
        var ss: seq<State>, ks: seq<Step> :| Run(c, ss, ks) && ss[|ks|] == s;
        AlwaysAttended(c, ss, ks, |ks|);
      }
    }
  }
}
