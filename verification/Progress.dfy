/**
 What becomes of a debit whose worker, or a check() sweep, is left to itself: a payment that
 completed is finalized, one that failed for good is reversed, one that is pending is left
 in `pending`.
 */
module Progress {
  import opened Options
  import opened LightningSend
  import S = Settlement

  /**
   One process on its own. shown is what LND's listing gives it, and unless bare no call of
   xpay or of LND comes back without a preimage and without an error.
   */
  datatype Pass = Pass(i: nat, shown: seq<Status>, bare: bool)

  predicate Bare(w: WorkerStep) {
    (w.XpayReturns? && w.r.WithoutPreimage?) || (w.LndReturns? && !w.preimage)
  }

  /** A step of the process. */
  predicate Takes(q: Pass, s: State, k: Step) {
    match k
    case Worker(w) => q.i == 0 && (Bare(w) ==> q.bare)
    case Sweep(i, _) => i == q.i
    case ListAnswers(i, _, shown) => i == q.i && (s.At(i).Listing? && s.At(i).atLnd ==> shown == q.shown)
    case Settle(l) => l == S.Advance(q.i)
    case CallReturns(i) => i == q.i
    case _ => false
  }

  /** n steps of the process lead from s to s', and not to an idle state before. */
  ghost predicate Goes(c: Config, q: Pass, s: State, s': State, n: nat)
    decreases n
  {
    if n == 0 then s' == s
    else exists k, t :: Takes(q, s, k) && Next(c, s, k, t) && (n > 1 ==> !t.At(q.i).Idle?) && Goes(c, q, t, s', n - 1)
  }

  /** Left to itself, the process goes from s to s', where it is idle. */
  ghost predicate Passes(c: Config, q: Pass, s: State, s': State) {
    s'.At(q.i).Idle? && exists n: nat :: n > 0 && Goes(c, q, s, s', n)
  }

  // ---- What it should come to ---------------------------------------------------

  /** Some CLN part is complete; or all have failed, and LND's listing shows a complete payment. */
  predicate Completed(c: Config, n: Network, shown: seq<Status>) {
    n.ClnComplete() || (n.ClnFailed() && c.hasLnd && Complete in shown)
  }

  /** Every CLN part has failed, and so has all that LND's listing shows. */
  predicate FailedForGood(c: Config, n: Network, shown: seq<Status>) {
    n.ClnFailed() && (c.hasLnd ==> AllFailed(shown))
  }

  /** The record is paid, with a fee within the reserve, the rest of which is given back. */
  ghost predicate Finalized(m: S.Memory, m': S.Memory) {
    exists netFee: Option<nat> :: (netFee.Some? ==> netFee.value <= m.debited.fee) && FinalizedAt(m, m', netFee)
  }

  predicate FinalizedAt(m: S.Memory, m': S.Memory, netFee: Option<nat>)
    requires netFee.Some? ==> netFee.value <= m.debited.fee
  {
    var d, fee := m.debited, if netFee.Some? then netFee.value else m.debited.fee;
    && m'.record == Some(S.Record(d.amount, fee, d.ourfee, true)) && !m'.queued
    && m'.refunds == m.refunds + (if fee < d.fee then [S.Refund(d, netFee, d.fee - fee)] else [])
    && m'.reversals == m.reversals
  }

  /** The whole debit is given back, and the record is gone. */
  predicate GivenUp(m: S.Memory, m': S.Memory) {
    var d := m.debited;
    && m'.record == None && !m'.queued
    && m'.reversals == m.reversals + [d.amount + d.fee + d.ourfee] && m'.refunds == m.refunds
  }

  ghost predicate Outcome(c: Config, q: Pass, s: State, m': S.Memory) {
    var m := s.pay.mem;
    if Completed(c, s.net, q.shown) then Finalized(m, m')
    else if FailedForGood(c, s.net, q.shown) then GivenUp(m, m') || (q.bare && m' == m)
    else m' == m
  }

  /** The debit is open, and nobody holds the claim to reverse it. */
  predicate Open(s: State) {
    && s.stage.Recorded? && s.pay.mem.record == Some(s.pay.mem.debited) && !s.pay.mem.debited.settled
    && !s.pay.mem.reversing
  }

  // ---- On the way there ---------------------------------------------------------

  /** Where the process of q stands, having started from s0. */
  ghost predicate Track(c: Config, q: Pass, s0: State, s: State) {
    && s.net.cln == s0.net.cln && s.net.lnd == s0.net.lnd && s.stage == s0.stage
    && OnTrack(c, q, s0, s, s.At(q.i))
  }

  ghost predicate OnTrack(c: Config, q: Pass, s0: State, s: State, pc: Pc) {
    var m, call := s.pay.mem, s.pay.At(q.i);
    match pc
    case Idle => Outcome(c, q, s0, m)
    case InCall => q.i in s.pay.calls && Outcome(c, q, s0, S.Finish(m, call))
    case Listing(atLnd, p, goal) =>
      && m == s0.pay.mem && call.Returned? && p == m.debited
      && (atLnd ==> s0.net.ClnFailed() && c.hasLnd)
      && (goal.Preimage? ==> q.bare) && (goal.Reconcile? <==> q.i > 0)
    case Removing(p, settled) =>
      && m == s0.pay.mem && call.Returned? && p == m.debited && q.i == 0
      && if settled then Completed(c, s0.net, q.shown) else FailedForGood(c, s0.net, q.shown)
    case Listed => m == s0.pay.mem && call.Returned? && q.i > 0 && s.clock >= GUARD_MS && !s.inFlight
    case Loaded(p) =>
      m == s0.pay.mem && call.Returned? && p == m.debited && q.i > 0 && s.clock >= GUARD_MS && !s.inFlight
    case Debiting => false
    case Missed => false
    case _ => m == s0.pay.mem && call.Returned? && q.i == 0
  }

  /** What the run so far guarantees. */
  ghost predicate Sound(c: Config, q: Pass, s0: State, s: State) {
    && Open(s0) && S.MemoryInv(s0.pay.mem) && NetInv(c, s)
    && (Complete in s0.net.lnd ==> Complete in q.shown)
  }

  lemma ReachInv(c: Config, s: State)
    requires Reachable(c, s)
    ensures NetInv(c, s) && S.MemoryInv(s.pay.mem)
  {
    var ss: seq<State>, ks: seq<Step> :| Run(c, ss, ks) && ss[|ks|] == s;
    RunInv(c, ss, ks, |ks|);
  }

  /** The process hands its copy to finalize, or to reverse. */
  lemma CallTrack(c: Config, q: Pass, s0: State, s: State, p: S.Record, finalize: bool, netFee: Option<nat>, s': State)
    requires Open(s0) && S.MemoryInv(s0.pay.mem) && Calls(s, q.i, p, finalize, netFee, s')
    requires s.pay.mem == s0.pay.mem.(queued := s.pay.mem.queued) && p == s.pay.mem.debited
    requires if finalize then Completed(c, s0.net, q.shown)
             else FailedForGood(c, s0.net, q.shown) && !Completed(c, s0.net, q.shown)
    ensures OnTrack(c, q, s0, s', s'.At(q.i))
  {
    hide NetInv, Completed, FailedForGood;
    var m := s.pay.mem;
    if finalize {
      S.FinalizeAlone(m, netFee);
      assert FinalizedAt(s0.pay.mem, S.Finish(m, S.FinDequeue(p, netFee)), netFee);
    } else {
      S.ReverseAlone(m);
    }
  }

  lemma NotBoth(c: Config, n: Network, shown: seq<Status>)
    requires FailedForGood(c, n, shown)
    ensures !Completed(c, n, shown)
  {
    if n.ClnComplete() {
      CompleteNotFailed(n);
    }
  }

  lemma CompleteNotFailed(n: Network)
    requires n.ClnComplete()
    ensures !n.ClnFailed()
  {
    var g :| 0 <= g < |n.cln| && Complete in n.cln[g];
    assert !AllFailed(n.cln[g]);
  }

  /** What the listings the process asked for come to. */
  lemma VerdictMeans(c: Config, n: Network, atLnd: bool, shown: seq<Status>)
    requires atLnd ==> n.ClnFailed() && c.hasLnd
    ensures var v := Judge(if atLnd then shown else ListPays(n));
            && (v.Settled? ==> Completed(c, n, shown))
            && (v.Dead? && !(!atLnd && c.hasLnd) ==> FailedForGood(c, n, shown) && !Completed(c, n, shown))
            && (v.Dead? && !atLnd ==> n.ClnFailed())
            && (v.Unresolved? ==> !Completed(c, n, shown) && !FailedForGood(c, n, shown))
  {
    ListPaysFailed(n);
    var pays := if atLnd then shown else ListPays(n);
    if Judge(pays).Dead? {
      forall x | x in pays ensures x == Failed {
      }
      if FailedForGood(c, n, shown) {
        NotBoth(c, n, shown);
      }
    }
    if n.ClnComplete() {
      CompleteNotFailed(n);
    }
  }

  /** The process does what the verdict calls for. */
  lemma ActsTrack(c: Config, q: Pass, s0: State, s: State, v: Verdict, netFee: Option<nat>)
    requires Sound(c, q, s0, s) && Track(c, q, s0, s) && s.At(q.i).Listing?
    requires v.Settled? ==> Completed(c, s0.net, q.shown)
    requires v.Dead? ==> FailedForGood(c, s0.net, q.shown) && !Completed(c, s0.net, q.shown)
    requires v.Unresolved? ==> !Completed(c, s0.net, q.shown) && !FailedForGood(c, s0.net, q.shown)
    ensures forall s' :: Acts(s, q.i, v, netFee, s') ==> Track(c, q, s0, s')
  {
    hide NetInv, S.MemoryInv, S.Finish, Outcome, Completed, FailedForGood, S.CanCall;
    var p := s.At(q.i).p;
    forall s' | Acts(s, q.i, v, netFee, s') ensures Track(c, q, s0, s') {
      if Calls(s, q.i, p, v.Settled?, netFee, s') {
        CallTrack(c, q, s0, s, p, v.Settled?, netFee, s');
      } else if s'.At(q.i).Idle? {
        IdleOutcome(c, q, s0);
      }
    }
  }

  lemma ListTrack(c: Config, q: Pass, s0: State, s: State, k: Step)
    requires Sound(c, q, s0, s) && Track(c, q, s0, s) && k.ListAnswers? && Takes(q, s, k)
    ensures forall s' :: Next(c, s, k, s') ==> Track(c, q, s0, s')
  {
    hide NetInv, S.MemoryInv, S.Finish, Outcome, Judge, ListPays, Completed, FailedForGood, LndShows, Acts;
    var pc := s.At(q.i);
    if !pc.Listing? { return; }
    VerdictMeans(c, s0.net, pc.atLnd, q.shown);
    SameListing(s.net, s0.net);
    var v := Judge(if pc.atLnd then q.shown else ListPays(s0.net));
    if !(!pc.atLnd && v.Dead? && c.hasLnd) {
      ActsTrack(c, q, s0, s, v, k.netFee);
    }
  }

  lemma SameListing(n: Network, n0: Network)
    requires n.cln == n0.cln
    ensures ListPays(n) == ListPays(n0)
  {
  }

  /** Having changed nothing is right for a pending payment, and for a call without a preimage. */
  lemma IdleOutcome(c: Config, q: Pass, s0: State)
    ensures !Completed(c, s0.net, q.shown) && (q.bare || !FailedForGood(c, s0.net, q.shown)) ==>
              Outcome(c, q, s0, s0.pay.mem)
  {
  }

  lemma WorkerTrack(c: Config, q: Pass, s0: State, s: State, w: WorkerStep, s': State)
    requires Sound(c, q, s0, s) && Track(c, q, s0, s) && q.i == 0 && (Bare(w) ==> q.bare) && WorkerNext(c, s, w, s')
    ensures Track(c, q, s0, s')
  {
    hide S.MemoryInv, S.Finish, Outcome, Completed, FailedForGood;
    match w
    case XpayReturns(r, netFee) =>
      if r.WithPreimage? {
        CompletedAtCln(c, q, s0, s);
        CallTrack(c, q, s0, s.(net := s.net.(clnBusy := false)), s.pay.mem.debited, true, netFee, s');
      }
    case LndReturns(preimage, netFee) =>
      if preimage {
        CompletedAtLnd(c, q, s0, s);
        CallTrack(c, q, s0, s.(net := s.net.(lndBusy := false)), s.pay.mem.debited, true, netFee, s');
      }
    case Removed(netFee) =>
      if !s.worker.settled {
        NotBoth(c, s0.net, q.shown);
      }
      CallTrack(c, q, s0, s.Unqueue(), s.worker.p, s.worker.settled, netFee, s');
    case _ =>
  }

  lemma CompletedAtCln(c: Config, q: Pass, s0: State, s: State)
    requires s.net.cln == s0.net.cln && s.net.ClnComplete()
    ensures Completed(c, s0.net, q.shown)
  {
    var g :| 0 <= g < |s.net.cln| && Complete in s.net.cln[g];
    assert Complete in s0.net.cln[g];
  }

  lemma CompletedAtLnd(c: Config, q: Pass, s0: State, s: State)
    requires Sound(c, q, s0, s) && s.net.cln == s0.net.cln && s.net.lnd == s0.net.lnd
    requires s.worker.InLnd? && Complete in s.net.lnd
    ensures Completed(c, s0.net, q.shown)
  {
  }

  lemma SweepTrack(c: Config, q: Pass, s0: State, s: State, w: SweepStep, s': State)
    requires Sound(c, q, s0, s) && Track(c, q, s0, s) && !s.At(q.i).Idle? && SweepNext(c, s, q.i, w, s')
    ensures Track(c, q, s0, s')
  {
    hide NetInv, S.MemoryInv, S.Finish, Outcome;
  }

  lemma CallStepTrack(c: Config, q: Pass, s0: State, s: State, k: Step, s': State)
    requires Track(c, q, s0, s) && (k.Settle? || k.CallReturns?) && Takes(q, s, k) && Next(c, s, k, s')
    requires !s.At(q.i).Idle?
    ensures Track(c, q, s0, s')
  {
    hide S.MemoryInv, Outcome;
  }

  lemma StepTrack(c: Config, q: Pass, s0: State, s: State, k: Step)
    requires Sound(c, q, s0, s) && Track(c, q, s0, s) && Takes(q, s, k) && !s.At(q.i).Idle?
    ensures forall s' :: Next(c, s, k, s') ==> Track(c, q, s0, s')
  {
    hide Track, Sound, WorkerNext, SweepNext, Acts, S.Next;
    forall s' | Next(c, s, k, s') ensures Track(c, q, s0, s') {
      match k
      case Worker(w) => WorkerTrack(c, q, s0, s, w, s');
      case Sweep(_, w) => SweepTrack(c, q, s0, s, w, s');
      case ListAnswers(_, _, _) => ListTrack(c, q, s0, s, k);
      case _ => CallStepTrack(c, q, s0, s, k, s');
    }
  }

  lemma {:induction false} GoesTrack(c: Config, q: Pass, s0: State, s: State, s': State, n: nat)
    requires Reachable(c, s) && Goes(c, q, s, s', n) && (n > 0 ==> !s.At(q.i).Idle?)
    requires Sound(c, q, s0, s) && Track(c, q, s0, s)
    ensures Track(c, q, s0, s')
    decreases n
  {
    hide Reachable, Track, Next, NetInv, Takes, S.MemoryInv;
    if n > 0 {
      var k, t :| Takes(q, s, k) && Next(c, s, k, t) && (n > 1 ==> !t.At(q.i).Idle?) && Goes(c, q, t, s', n - 1);
      StepTrack(c, q, s0, s, k);
      Then(c, s, k, t);
      ReachInv(c, t);
      GoesTrack(c, q, s0, t, s', n - 1);
    }
  }

  // ---- It gets there --------------------------------------------------------------

  function Rank(q: Pass, s: State): nat {
    match s.At(q.i)
    case Starting => 39
    case InXpay => 38
    case AskSendPays => 37
    case AskPays(_) => 36
    case InLnd => 35
    case Listed => 34
    case Loaded(_) => 33
    case Listing(atLnd, _, _) => if atLnd then 31 else 32
    case Removing(_, _) => 30
    case InCall => 10 + S.Rank(s.pay.At(q.i))
    case _ => 0
  }

  /** The step the process takes when xpay is rejected, nothing is paid through LND and nothing else fails. */
  function Onward(q: Pass, s: State): Step {
    match s.At(q.i)
    case Starting => Worker(Start)
    case InXpay => Worker(XpayReturns(FailedParts, None))
    case AskSendPays => Worker(FallbackDeclined)
    case AskPays(_) => Worker(FallbackDeclined)
    case InLnd => Worker(LndRejects)
    case Listed => Sweep(q.i, Reads)
    case Loaded(_) => Sweep(q.i, Guards)
    case Listing(_, _, _) => ListAnswers(q.i, None, q.shown)
    case Removing(_, _) => Worker(Removed(None))
    case _ => if s.pay.At(q.i).Returned? then CallReturns(q.i) else Settle(S.Advance(q.i))
  }

  /** That step is possible, and brings the process nearer to its end. */
  ghost predicate Advances(c: Config, q: Pass, s: State) {
    exists t :: Next(c, s, Onward(q, s), t) && Rank(q, t) < Rank(q, s)
  }

  lemma WorkerOnward(c: Config, q: Pass, s0: State, s: State)
    requires Sound(c, q, s0, s) && Track(c, q, s0, s) && q.i == 0
    requires s.worker.Ahead() || s.worker.InFlight()
    ensures Advances(c, q, s)
  {
    hide S.MemoryInv, Outcome, NetInv, S.Finish, Acts, SweepNext, S.Next, DebitNext, Completed, FailedForGood;
    var t: State;
    match s.worker {
      case Starting => t := s.Goto(0, InXpay).(net := s.net.(clnBusy := true));
      case InXpay => t := s.(net := s.net.(clnBusy := false)).Goto(0, Listing(false, s.pay.mem.debited, Verify));
      case InLnd => t := s.(net := s.net.(lndBusy := false)).Goto(0, Listing(false, s.pay.mem.debited, Verify));
      case AskSendPays => t := s.Goto(0, Listing(false, s.pay.mem.debited, Verify));
      case AskPays(_) => t := s.Goto(0, Listing(false, s.pay.mem.debited, Verify));
    }
    assert Next(c, s, Onward(q, s), t);
  }

  lemma RemovingOnward(c: Config, q: Pass, s0: State, s: State)
    requires Sound(c, q, s0, s) && Track(c, q, s0, s) && q.i == 0 && s.worker.Removing?
    ensures Advances(c, q, s)
  {
    hide S.MemoryInv, Outcome, NetInv, Completed, FailedForGood;
    var t := CallOnward(s.Unqueue(), 0, s.worker.p, s.worker.settled) by { DebitedKnown(s0); }
    assert Next(c, s, Onward(q, s), t);
  }

  lemma DebitedKnown(s0: State)
    requires S.MemoryInv(s0.pay.mem)
    ensures s0.pay.mem.debited in s0.pay.mem.versions
  {
  }

  lemma CallOnward(s: State, i: nat, p: S.Record, finalize: bool) returns (t: State)
    requires s.pay.At(i).Returned? && p in s.pay.mem.versions
    ensures Calls(s, i, p, finalize, None, t) && t.At(i).InCall? && S.Rank(t.pay.At(i)) < 20
  {
    t := s.Goto(i, InCall).(pay := s.pay.Goto(i, if finalize then S.FinDequeue(p, None) else S.RevClaim(p)));
  }

  lemma ListOnward(c: Config, q: Pass, s0: State, s: State)
    requires Sound(c, q, s0, s) && Track(c, q, s0, s) && s.At(q.i).Listing?
    requires LndShows(c, s0.net.lnd, q.shown)
    ensures Advances(c, q, s)
  {
    hide S.MemoryInv, Outcome, NetInv, ListPays, Judge, LndShows;
    var t: State;
    var i, pc := q.i, s.At(q.i);
    var v := Judge(if pc.atLnd then q.shown else ListPays(s.net));
    if !pc.atLnd && v.Dead? && c.hasLnd {
      t := s.Goto(i, pc.(atLnd := true));
    } else if v.Unresolved? || (pc.goal.Preimage? && !v.Settled?) {
      t := s.Goto(i, Idle);
    } else if pc.goal.Verify? {
      t := s.Goto(i, Removing(pc.p, v.Settled?));
    } else {
      t := CallOnward(s, i, pc.p, v.Settled?) by { DebitedKnown(s0); }
    }
    assert Next(c, s, Onward(q, s), t);
  }

  lemma OtherOnward(c: Config, q: Pass, s0: State, s: State)
    requires Sound(c, q, s0, s) && Track(c, q, s0, s) && (s.At(q.i).Listed? || s.At(q.i).Loaded? || s.At(q.i).InCall?)
    ensures Advances(c, q, s)
  {
    hide S.MemoryInv, Outcome, NetInv, S.Finish;
    var t: State;
    var i := q.i;
    match s.At(i) {
      case Listed => t := s.Goto(i, Loaded(s.pay.mem.debited));
      case Loaded(p) => t := s.Goto(i, Listing(false, p, Reconcile));
      case InCall =>
        if s.pay.At(i).Returned? {
          t := s.Goto(i, Idle);
        } else {
          var (m, call) := S.Resolve(s.pay.mem, s.pay.At(i));
          S.ResolveRanks(s.pay.mem, s.pay.At(i));
          t := s.(pay := S.State(m, s.pay.calls[i := call]));
        }
    }
    assert Next(c, s, Onward(q, s), t);
  }

  lemma Continues(c: Config, q: Pass, s0: State, s: State)
    requires Sound(c, q, s0, s) && Track(c, q, s0, s) && !s.At(q.i).Idle? && LndShows(c, s0.net.lnd, q.shown)
    ensures Takes(q, s, Onward(q, s)) && Advances(c, q, s)
  {
    hide S.MemoryInv, Outcome, NetInv, S.Finish, LndShows, Advances;
    if s.At(q.i).Listing? {
      ListOnward(c, q, s0, s);
    } else if s.At(q.i).Listed? || s.At(q.i).Loaded? || s.At(q.i).InCall? {
      OtherOnward(c, q, s0, s);
    } else if s.worker.Removing? {
      RemovingOnward(c, q, s0, s);
    } else {
      WorkerOnward(c, q, s0, s);
    }
  }

  /** From wherever it is, the process comes to an idle state. */
  lemma {:induction false} Arrives(c: Config, q: Pass, s0: State, s: State) returns (s': State, n: nat)
    requires Reachable(c, s) && Sound(c, q, s0, s) && Track(c, q, s0, s) && LndShows(c, s0.net.lnd, q.shown)
    ensures s'.At(q.i).Idle? && Goes(c, q, s, s', n) && (n > 0 <==> !s.At(q.i).Idle?)
    decreases Rank(q, s)
  {
    hide Reachable, Track, Next, NetInv, Takes, S.MemoryInv, LndShows, Rank, Onward;
    if s.At(q.i).Idle? {
      s', n := s, 0;
    } else {
      Continues(c, q, s0, s);
      var k := Onward(q, s);
      var t :| Next(c, s, k, t) && Rank(q, t) < Rank(q, s);
      StepTrack(c, q, s0, s, k);
      Then(c, s, k, t);
      ReachInv(c, t);
      var m: nat;
      s', m := Arrives(c, q, s0, t);
      n := m + 1;
      assert Takes(q, s, k) && Next(c, s, k, t) && (n > 1 ==> !t.At(q.i).Idle?) && Goes(c, q, t, s', n - 1);
    }
  }

  // ---- The worker ------------------------------------------------------------------

  /** The worker has been debited for and is not yet done, or is about to ask what became of the payment. */
  predicate WorkerBusy(s: State) {
    && (s.worker.Starting? || s.worker.InFlight() || s.worker == Listing(false, s.pay.mem.debited, Verify))
    && s.pay.At(0).Returned?
  }

  lemma WorkerStartsOnTrack(c: Config, q: Pass, s: State)
    requires Reachable(c, s) && Open(s) && WorkerBusy(s) && q.i == 0
    requires Complete in s.net.lnd ==> Complete in q.shown
    ensures Sound(c, q, s, s) && Track(c, q, s, s)
  {
    ReachInv(c, s);
  }

  lemma TrackSound(c: Config, q: Pass, s0: State, s: State, s': State, n: nat)
    requires Reachable(c, s) && Goes(c, q, s, s', n) && (n > 0 ==> !s.At(q.i).Idle?)
    requires Sound(c, q, s0, s) && Track(c, q, s0, s) && s'.At(q.i).Idle?
    ensures Outcome(c, q, s0, s'.pay.mem)
  {
    hide Reachable, Outcome;
    GoesTrack(c, q, s0, s, s', n);
  }

  /**
   From any point of any run at which the debit is open and its worker still at it, however
   xpay, the fallback and LND come back: left to itself the worker comes to its end, and
   whenever it does it has finalized the payment if it completed, reversed the debit if
   everything failed for good, and otherwise left both the record and `pending` as they are,
   for check().
   */
  lemma WorkerResolves(c: Config, q: Pass, s: State)
    requires Reachable(c, s) && Open(s) && WorkerBusy(s) && q.i == 0
    requires (Complete in s.net.lnd ==> Complete in q.shown) && LndShows(c, s.net.lnd, q.shown)
    ensures exists s' :: Passes(c, q, s, s')
    ensures forall s' :: Passes(c, q, s, s') ==>
              var m, m' := s.pay.mem, s'.pay.mem;
              if Completed(c, s.net, q.shown) then Finalized(m, m')
              else if FailedForGood(c, s.net, q.shown) then GivenUp(m, m') || (q.bare && m' == m)
              else m' == m
  {
    hide Reachable, Track, NetInv, Sound, LndShows;
    WorkerStartsOnTrack(c, q, s);
    var s1, n := Arrives(c, q, s, s);
    assert Passes(c, q, s, s1);
    forall s' | Passes(c, q, s, s') ensures Outcome(c, q, s, s'.pay.mem) {
      var n: nat :| n > 0 && Goes(c, q, s, s', n);
      TrackSound(c, q, s, s, s', n);
    }
  }

  // ---- check() ---------------------------------------------------------------------

  /** A sweep that can take the debit up: the invoice is in `pending`, and both guards let it by. */
  predicate SweepReady(s: State, i: nat) {
    && i > 0 && s.At(i).Idle? && s.pay.At(i).Returned?
    && s.pay.mem.queued && s.clock >= GUARD_MS && !s.inFlight
  }

  lemma SweepStartsOnTrack(c: Config, q: Pass, s: State, k: Step, t: State)
    requires Reachable(c, s) && Open(s) && SweepReady(s, q.i) && Takes(q, s, k) && Next(c, s, k, t)
    requires Complete in s.net.lnd ==> Complete in q.shown
    ensures t == s.Goto(q.i, Listed) && Sound(c, q, s, t) && Track(c, q, s, t) && Reachable(c, t)
  {
    Then(c, s, k, t);
    ReachInv(c, s);
    ReachInv(c, t);
  }

  lemma SweepOutcome(c: Config, q: Pass, s: State, s': State)
    requires Reachable(c, s) && Open(s) && SweepReady(s, q.i) && (Complete in s.net.lnd ==> Complete in q.shown)
    requires Passes(c, q, s, s')
    ensures Outcome(c, q, s, s'.pay.mem)
  {
    hide Reachable, NetInv, Sound, Track, Takes, Next, SweepReady, Outcome;
    var n: nat :| n > 0 && Goes(c, q, s, s', n);
    var k, t :| Takes(q, s, k) && Next(c, s, k, t) && (n > 1 ==> !t.At(q.i).Idle?) && Goes(c, q, t, s', n - 1);
    SweepStartsOnTrack(c, q, s, k, t);
    TrackSound(c, q, s, t, s', n - 1);
  }

  lemma SweepPasses(c: Config, q: Pass, s: State)
    requires Reachable(c, s) && Open(s) && SweepReady(s, q.i)
    requires (Complete in s.net.lnd ==> Complete in q.shown) && LndShows(c, s.net.lnd, q.shown)
    ensures exists s' :: Passes(c, q, s, s')
  {
    var k, t := Sweep(q.i, Lists), s.Goto(q.i, Listed);
    assert Takes(q, s, k) && Next(c, s, k, t);
    hide Reachable, Track, NetInv, Sound, LndShows, Next, Takes;
    SweepStartsOnTrack(c, q, s, k, t);
    var s', n := Arrives(c, q, s, t);
    assert t.At(q.i) == Listed;
    assert Goes(c, q, s, s', n + 1);
    assert Passes(c, q, s, s');
  }

  /**
   From any point of any run at which the debit is open and in `pending`, 120 s old and not in
   flight: a sweep left to itself comes to its end, and whenever it does it has finalized the
   payment if it completed, reversed the debit if everything failed for good, and otherwise
   changed nothing.
   */
  lemma SweepResolves(c: Config, q: Pass, s: State)
    requires Reachable(c, s) && Open(s) && SweepReady(s, q.i) && !q.bare
    requires (Complete in s.net.lnd ==> Complete in q.shown) && LndShows(c, s.net.lnd, q.shown)
    ensures exists s' :: Passes(c, q, s, s')
    ensures forall s' :: Passes(c, q, s, s') ==>
              var m, m' := s.pay.mem, s'.pay.mem;
              if Completed(c, s.net, q.shown) then Finalized(m, m')
              else if FailedForGood(c, s.net, q.shown) then GivenUp(m, m')
              else m' == m
  {
    hide Reachable, Passes, LndShows;
    SweepPasses(c, q, s);
    forall s' | Passes(c, q, s, s') ensures Outcome(c, q, s, s'.pay.mem) {
      SweepOutcome(c, q, s, s');
    }
  }

  lemma CallKeepsOut(m: S.Memory, call: S.Call)
    ensures S.Resolve(m, call).0.queued ==> m.queued
  {
  }

  lemma WorkerKeepsOut(c: Config, s: State, w: WorkerStep, s': State)
    requires WorkerNext(c, s, w, s')
    ensures (s'.pay.mem.queued ==> s.pay.mem.queued) && s'.stage == s.stage
  {
  }

  lemma ActsKeepOut(s: State, i: nat, v: Verdict, netFee: Option<nat>, s': State)
    requires s.At(i).Listing? && Acts(s, i, v, netFee, s')
    ensures s'.pay.mem == s.pay.mem && s'.stage == s.stage
  {
  }

  lemma RefusalKept(c: Config, s: State, k: Step, s': State)
    requires Next(c, s, k, s')
    ensures s'.pay.mem.queued ==> s.pay.mem.queued && (s'.stage.Refused? ==> s.stage.Refused?)
  {
    hide NodeNext, ListPays, Judge, LndShows, S.CanCall, S.Resolve, WorkerNext, Acts;
    match k
    case Worker(w) => WorkerKeepsOut(c, s, w, s');
    case ListAnswers(i, netFee, shown) =>
      var v := Judge(if s.At(i).atLnd then shown else ListPays(s.net));
      if !(!s.At(i).atLnd && v.Dead? && c.hasLnd) {
        ActsKeepOut(s, i, v, netFee, s');
      }
    case Settle(l) => if l.Advance? { CallKeepsOut(s.pay.mem, s.pay.At(l.i)); }
    case _ =>
  }

  /** A send that debit() refused has taken its invoice back out of `pending`. */
  lemma {:induction false} RefusedReleases(c: Config, ss: seq<State>, ks: seq<Step>, n: nat)
    requires Run(c, ss, ks) && n < |ss| && ss[n].stage.Refused?
    ensures !ss[n].pay.mem.queued
  {
    hide Next;
    assert n > 0;
    RefusalKept(c, ss[n - 1], ks[n - 1], ss[n]);
    if ss[n - 1].stage.Refused? {
      RefusedReleases(c, ss, ks, n - 1);
    }
  }

  // ---- Dead entries, and the second node --------------------------------------------

  /** A sweep takes an invoice that leads to no record out of `pending`. */
  lemma DropsDead(c: Config, s: State, i: nat)
    requires Reachable(c, s) && i > 0 && s.At(i).Idle? && s.pay.mem.queued && s.Stored().None?
    requires s.stage.Asked? || s.stage.Posted? ==> c.gapReads
    ensures Reachable(c, s.Unqueue().Goto(i, Idle))
  {
    hide Reachable;
    Then(c, s, Sweep(i, Lists), s.Goto(i, Listed));
    Then(c, s.Goto(i, Listed), Sweep(i, Reads), s.Goto(i, Missed));
    Then(c, s.Goto(i, Missed), Sweep(i, Drops), s.Unqueue().Goto(i, Idle));
  }

  lemma {:induction false} AllListed(groups: seq<seq<Status>>)
    requires forall g :: 0 <= g < |groups| ==> AllFailed(groups[g])
    ensures AllFailed(ListSendPays(groups))
    decreases groups
  {
    if groups != [] {
      AllListed(groups[1..]);
    }
  }

  /** When xpay fails with every CLN part failed and the fallback is allowed, LND is tried. */
  lemma TriesLnd(c: Config, s: State)
    requires Reachable(c, s) && c.hasLnd && s.worker.InXpay? && s.net.ClnFailed()
    ensures Reachable(c, s.(net := s.net.(clnBusy := false, lndBusy := true)).Goto(0, InLnd))
  {
    hide Reachable;
    AllListed(s.net.cln);
    ListPaysFailed(s.net);
    var t := s.(net := s.net.(clnBusy := false));
    Then(c, s, Worker(XpayRejects(true)), t.Goto(0, AskSendPays));
    Then(c, t.Goto(0, AskSendPays), Worker(SendPaysAnswers(false)), t.Goto(0, AskPays(false)));
    Then(c, t.Goto(0, AskPays(false)), Worker(PaysAnswers(false)),
         s.(net := s.net.(clnBusy := false, lndBusy := true)).Goto(0, InLnd));
  }
}
