/**
 One lightning send from its claim on `pending` to its settlement: debit(), the background
 worker paying through CLN and then perhaps LND, any number of check() sweeps, and the two
 nodes.

 A step is one await resolving. The nodes are the environment:
   - a part's `complete` and `failed` are final;
   - a call that has returned or been rejected creates no further parts;
   - a CLN listing is a faithful snapshot, except that either one of listsendpays and the
     listpays that cross-checks it may come back empty;
   - LND's listing is the server's own: it asks for 50 payments and calls every status but
     SUCCEEDED and IN_FLIGHT failed, so unless lndListed it may leave out or misname the
     payment, and only what it shows complete is;
   - a preimage exists only once some part has completed, and a complete pay carries it;
   - the worker reaches inFlight.add within 120 s of the record's creation;
   - when its caller dies, a node goes on creating parts at most until retryMs after
     the debit.
 Two more things may go wrong around the record, which debit() writes some awaits after the
 invoice has entered `pending` and the ledger has been debited: unrecorded, debit() may throw
 in between; gapReads, a sweep may look for the record before it is written. And `pending`
 holds invoices, not attempts: retried, what is still under way for an earlier attempt on the
 same invoice may take it out again. The listings are of this attempt's parts; an earlier
 attempt's have all failed, or the invoice would not be paid again.
 */
module LightningSend {
  import opened Options
  import S = Settlement
  import R = Runs

  datatype Status = Pending | Complete | Failed

  /** Each CLN attempt is a group of parts; LND reports one status per payment. */
  datatype Network = Network(cln: seq<seq<Status>>, lnd: seq<Status>, clnBusy: bool, lndBusy: bool)
  {
    predicate ClnFailed() { forall g :: 0 <= g < |cln| ==> AllFailed(cln[g]) }

    predicate LndFailed() { AllFailed(lnd) }

    predicate AnyComplete() { ClnComplete() || Complete in lnd }

    predicate ClnComplete() { exists g :: 0 <= g < |cln| && Complete in cln[g] }

    predicate Busy() { clnBusy || lndBusy }
  }

  predicate AllFailed(parts: seq<Status>) { forall x :: x in parts ==> x == Failed }

  datatype Config = Config(
    faults: S.Faults, hasLnd: bool, retryMs: nat, lndListed: bool, unrecorded: bool, gapReads: bool,
    retried: bool)

  /**
   How far debit() is: the ledger not yet or already debited, the record written, or neither.
   Unpointed: it is written, but the pointer that leads to it has been deleted.
   */
  datatype Stage = Asked | Posted | Recorded | Unpointed | Refused

  /** The age below which check() leaves a payment to its worker. */
  const GUARD_MS := 120000

  datatype Goal = Verify | Reconcile | Preimage

  /** Where the worker or a sweep is suspended. */
  datatype Pc =
    | Idle
    | Debiting                                     // in debit(), the invoice in `pending`
    | Starting                                     // debited, inFlight.add still to come
    | InXpay
    | AskSendPays                                  // clnPartsAllFailed, first listing
    | AskPays(blank: bool)                         // its second; blank: the first was blank
    | InLnd
    | Listing(atLnd: bool, p: S.Record, goal: Goal)
    | Removing(p: S.Record, settled: bool)         // the worker's own sRem
    | Listed                                       // a sweep that has the invoice on its list
    | Loaded(p: S.Record)                          // and holds its record
    | Missed                                       // or found none, its sRem still to come
    | InCall                                       // in finalize or reverse
  {
    predicate InFlight() { InXpay? || AskSendPays? || AskPays? || InLnd? }

    predicate Ahead() { Debiting? || Starting? }
  }

  /**
   The worker settles as call 0 and sweep i as call i. alive: the worker's process runs.
   clock is the record's age; until it is written pay.mem.record is what debit() will write.
   */
  datatype State = State(
    net: Network, pay: S.State, worker: Pc, sweeps: map<nat, Pc>,
    alive: bool, inFlight: bool, clock: nat, stage: Stage)
  {
    function At(i: nat): Pc {
      if i == 0 then worker else if i in sweeps then sweeps[i] else Idle
    }

    function Goto(i: nat, pc: Pc): State {
      State(net, pay, if i == 0 then pc else worker, if i == 0 then sweeps else sweeps[i := pc],
            alive, if i == 0 then pc.InFlight() else inFlight, clock, stage)
    }

    /** getPayment. */
    function Stored(): Option<S.Record> { if stage.Recorded? then pay.mem.record else None }

    function Unqueue(): State { this.(pay := pay.(mem := pay.mem.(queued := false))) }
  }

  // ---- Listings -------------------------------------------------------------

  /** The status CLN's listpays gives a group of parts. */
  function Aggregate(parts: seq<Status>): Status {
    if Complete in parts then Complete else if Pending in parts then Pending else Failed
  }

  function ListPays(n: Network): seq<Status> {
    seq(|n.cln|, g requires 0 <= g < |n.cln| => Aggregate(n.cln[g]))
  }

  function ListSendPays(groups: seq<seq<Status>>): seq<Status> {
    if groups == [] then [] else groups[0] + ListSendPays(groups[1..])
  }

  datatype Verdict = Settled | Unresolved | Dead

  function Judge(pays: seq<Status>): Verdict {
    if Complete in pays then Settled else if Pending in pays then Unresolved else Dead
  }

  // ---- Steps ----------------------------------------------------------------

  datatype XpayResult = WithPreimage | WithoutPreimage | FailedParts

  datatype NodeStep =
    | NewGroup
    | NewPart(g: nat)
    | ResolvePart(g: nat, j: nat, to: Status)
    | NewPayment
    | ResolvePayment(j: nat, to: Status)
    | OrphansStop

  datatype WorkerStep =
    | Start
    | XpayReturns(r: XpayResult, netFee: Option<nat>)
    | XpayRejects(fallback: bool)
    | SendPaysAnswers(blank: bool)
    | PaysAnswers(blank: bool)
    | FallbackDeclined
    | LndReturns(preimage: bool, netFee: Option<nat>)
    | LndRejects
    | Removed(netFee: Option<nat>)

  datatype DebitStep =
    | Posts                // tbDebit has moved the money
    | Refuses              // debit() throws before that; sendLightning takes the invoice back out
    | ThrowsLate           // the same, after it
    | Written              // the record is there

  datatype SweepStep = Lists | Reads | Drops | Guards

  datatype Step =
    | Debit(d: DebitStep)
    | Node(n: NodeStep)
    | Worker(w: WorkerStep)
    | Tick(ms: nat)
    | Sweep(i: nat, await: SweepStep)
      // the worker or a sweep; shown is what LND's listing gives
    | ListAnswers(i: nat, netFee: Option<nat>, shown: seq<Status>)
    | ListFails(i: nat)
    | Settle(k: S.Step)
    | CallReturns(i: nat)
      // an earlier attempt's sRem, or the clean-up of its reverse(), which deletes the pointer too
    | OtherClears(pointer: bool)
      // the process
    | Crash

  ghost predicate Init(s: State) {
    && S.Init(s.pay)
    && s == State(Network([], [], false, false), s.pay, Debiting, map[], true, false, 0, Asked)
  }

  /** Handing the copy p to finalize or reverse. */
  predicate Calls(s: State, i: nat, p: S.Record, finalize: bool, netFee: Option<nat>, s': State) {
    var call := if finalize then S.FinDequeue(p, netFee) else S.RevClaim(p);
    S.CanCall(s.pay, i, p, netFee) && s' == s.Goto(i, InCall).(pay := s.pay.Goto(i, call))
  }

  /** What process i does with the verdict of outLn.listpays. */
  predicate Acts(s: State, i: nat, v: Verdict, netFee: Option<nat>, s': State)
    requires s.At(i).Listing?
  {
    var p := s.At(i).p;
    match s.At(i).goal
    case Verify =>
      if v.Unresolved? then s' == s.Goto(i, Idle) else s' == s.Goto(i, Removing(p, v.Settled?))
    case Reconcile =>
      if v.Unresolved? then s' == s.Goto(i, Idle) else Calls(s, i, p, v.Settled?, netFee, s')
    case Preimage =>
      if v.Settled? then Calls(s, i, p, true, netFee, s') else s' == s.Goto(i, Idle)
  }

  predicate NodeNext(n: Network, alive: bool, k: NodeStep, n': Network) {
    match k
    case NewGroup => n.clnBusy && n' == n.(cln := n.cln + [[Pending]])
    case NewPart(g) =>
      n.clnBusy && g < |n.cln| && n' == n.(cln := n.cln[g := n.cln[g] + [Pending]])
    case ResolvePart(g, j, to) =>
      && g < |n.cln| && j < |n.cln[g]| && n.cln[g][j] == Pending && to != Pending
      && n' == n.(cln := n.cln[g := n.cln[g][j := to]])
    case NewPayment => n.lndBusy && n' == n.(lnd := n.lnd + [Pending])
    case ResolvePayment(j, to) =>
      j < |n.lnd| && n.lnd[j] == Pending && to != Pending && n' == n.(lnd := n.lnd[j := to])
    case OrphansStop => !alive && n' == n.(clnBusy := false, lndBusy := false)
  }

  predicate WorkerNext(c: Config, s: State, k: WorkerStep, s': State) {
    var p := s.pay.mem.debited;
    match k
    case Start =>
      s.worker.Starting? && s' == s.Goto(0, InXpay).(net := s.net.(clnBusy := true))
    case XpayReturns(r, netFee) =>
      var t := s.(net := s.net.(clnBusy := false));
      && s.worker.InXpay?
      && match r {
        case WithPreimage => s.net.ClnComplete() && Calls(t, 0, p, true, netFee, s')
        case WithoutPreimage => s' == t.Goto(0, Listing(false, p, Preimage))
        case FailedParts => s' == t.Goto(0, Listing(false, p, Verify))
      }
    case XpayRejects(fallback) =>
      // fallback: allowed, LND configured, and not "already underway"
      && s.worker.InXpay? && (fallback ==> c.hasLnd)
      && s' == s.(net := s.net.(clnBusy := false))
                .Goto(0, if fallback then AskSendPays else Listing(false, p, Verify))
    case SendPaysAnswers(blank) =>
      var sendpays := if blank then [] else ListSendPays(s.net.cln);
      && s.worker.AskSendPays?
      && s' == s.Goto(0, if AllFailed(sendpays) then AskPays(blank) else Listing(false, p, Verify))
    case PaysAnswers(blank) =>
      var pays := if blank then [] else ListPays(s.net);
      && s.worker.AskPays? && !(blank && s.worker.blank)
      && s' == if AllFailed(pays)
               then s.Goto(0, InLnd).(net := s.net.(lndBusy := true))
               else s.Goto(0, Listing(false, p, Verify))
    case FallbackDeclined =>
      // the state check itself threw
      (s.worker.AskSendPays? || s.worker.AskPays?) && s' == s.Goto(0, Listing(false, p, Verify))
    case LndReturns(preimage, netFee) =>
      var t := s.(net := s.net.(lndBusy := false));
      && s.worker.InLnd?
      && if preimage then Complete in s.net.lnd && Calls(t, 0, p, true, netFee, s')
         else s' == t.Goto(0, Listing(false, p, Preimage))
    case LndRejects =>
      s.worker.InLnd? && s' == s.(net := s.net.(lndBusy := false)).Goto(0, Listing(false, p, Verify))
    case Removed(netFee) =>
      && s.worker.Removing?
      && Calls(s.Unqueue(), 0, s.worker.p, s.worker.settled, netFee, s')
  }

  predicate DebitNext(c: Config, s: State, d: DebitStep, s': State) {
    && s.worker.Debiting?
    && match d
       case Posts => s.stage.Asked? && s' == s.(stage := Posted)
       case Refuses => s.stage.Asked? && s' == s.Unqueue().(stage := Refused).Goto(0, Idle)
       case ThrowsLate => c.unrecorded && s.stage.Posted? && s' == s.Unqueue().Goto(0, Idle)
       case Written => s.stage.Posted? && s' == s.(stage := Recorded).Goto(0, Starting)
  }

  /** The invoices are listed once; each one's record is read later, and dropped later still. */
  predicate SweepNext(c: Config, s: State, i: nat, w: SweepStep, s': State) {
    && i > 0
    && match w
       case Lists => s.At(i).Idle? && s.pay.mem.queued && s' == s.Goto(i, Listed)
       case Reads =>
         && s.At(i).Listed? && (s.stage.Asked? || s.stage.Posted? ==> c.gapReads)
         && s' == s.Goto(i, if s.Stored().Some? then Loaded(s.Stored().value) else Missed)
       case Drops => s.At(i).Missed? && s' == s.Unqueue().Goto(i, Idle)
       case Guards =>
         && s.At(i).Loaded?
         && s' == s.Goto(i, if s.clock < GUARD_MS || s.inFlight then Idle
                            else Listing(false, s.At(i).p, Reconcile))
  }

  /** What LND's listing may show of this payment. */
  predicate LndShows(c: Config, lnd: seq<Status>, shown: seq<Status>) {
    if c.lndListed then shown == lnd else Complete in shown ==> Complete in lnd
  }

  predicate Next(c: Config, s: State, k: Step, s': State) {
    match k
    case Node(k) => s' == s.(net := s'.net) && NodeNext(s.net, s.alive, k, s'.net)
    case Worker(k) => WorkerNext(c, s, k, s')
    case Debit(d) => DebitNext(c, s, d, s')
    case Tick(ms) =>
      && !s.worker.Debiting? && (s.worker.Starting? ==> s.clock + ms < GUARD_MS)
      && (!s.alive && s.net.Busy() ==> s.clock + ms < c.retryMs)
      && s' == s.(clock := s.clock + ms)
    case Sweep(i, w) => SweepNext(c, s, i, w, s')
    case ListAnswers(i, netFee, shown) =>
      && s.At(i).Listing? && (s.At(i).atLnd ==> LndShows(c, s.net.lnd, shown))
      && var pays := if s.At(i).atLnd then shown else ListPays(s.net);
      if !s.At(i).atLnd && Judge(pays).Dead? && c.hasLnd
      then s' == s.Goto(i, s.At(i).(atLnd := true))
      else Acts(s, i, Judge(pays), netFee, s')
    case ListFails(i) => s.At(i).Listing? && s' == s.Goto(i, Idle)
    case Settle(k) =>
      && (k.Advance? || k.Throw? || k.LateThrow? || k.ExpireClaim?)
      && s' == s.(pay := s'.pay) && S.Next(c.faults, s.pay, k, s'.pay)
    case CallReturns(i) =>
      s.At(i).InCall? && s.pay.At(i).Returned? && s' == s.Goto(i, Idle)
    case OtherClears(pointer) =>
      c.retried && s' == s.Unqueue().(stage := if pointer && s.stage.Recorded? then Unpointed else s.stage)
    case Crash =>
      && S.Next(c.faults, s.pay, S.Crash, s'.pay)
      && s' == State(if s.clock < c.retryMs then s.net else s.net.(clnBusy := false, lndBusy := false),
                     s'.pay, Idle, map[], false, false, s.clock, s.stage)
  }

  ghost function Steps(c: Config): (State, Step, State) -> bool { (s, k, s') => Next(c, s, k, s') }

  ghost predicate Run(c: Config, ss: seq<State>, ks: seq<Step>) { R.Run(Init, Steps(c), ss, ks) }

  // ---- The invariant --------------------------------------------------------

  /** No node call is running and the worker will start none. */
  predicate Quiet(s: State) {
    !s.net.Busy() && !s.worker.Ahead() && !s.worker.InFlight()
  }

  /** No part has completed or can still complete. */
  predicate Lost(s: State) {
    Quiet(s) && s.net.ClnFailed() && s.net.LndFailed()
  }

  /** LND is used only on top of a CLN attempt that has failed for good. */
  predicate NetInv(c: Config, s: State) {
    var w := s.worker;
    && (s.net.lnd != [] || s.net.lndBusy || w.InLnd? ==>
          s.net.ClnFailed() && !s.net.clnBusy && c.hasLnd)
    && (w.AskPays? && !w.blank ==> s.net.ClnFailed())
    && (w.AskSendPays? || w.AskPays? ==> !s.net.clnBusy && c.hasLnd)
    && (w.Ahead() || w.InXpay? || w.AskSendPays? || w.AskPays? ==>
          s.net.lnd == [] && !s.net.lndBusy)
    && (w.Ahead() ==> s.clock < GUARD_MS && !s.net.clnBusy)
    && s.inFlight == w.InFlight()
    && (s.alive ==> (s.net.clnBusy ==> w.InXpay?) && (s.net.lndBusy ==> w.InLnd?))
    && (!s.alive ==> w.Idle? && (s.net.Busy() ==> s.clock < c.retryMs))
  }

  lemma ListPaysFailed(n: Network)
    ensures AllFailed(ListPays(n)) <==> n.ClnFailed()
    ensures Complete in ListPays(n) <==> n.ClnComplete()
  {
    if AllFailed(ListPays(n)) {
      forall g | 0 <= g < |n.cln| ensures AllFailed(n.cln[g]) {
        assert ListPays(n)[g] in ListPays(n);
      }
    }
    if n.ClnComplete() {
      var g :| 0 <= g < |n.cln| && Complete in n.cln[g];
      assert ListPays(n)[g] == Complete;
    }
  }

  lemma {:induction false} ListSendPaysFailed(groups: seq<seq<Status>>)
    requires AllFailed(ListSendPays(groups))
    ensures forall g :: 0 <= g < |groups| ==> AllFailed(groups[g])
  {
    if groups != [] {
      assert forall x :: x in groups[0] ==> x in ListSendPays(groups);
      assert forall x :: x in ListSendPays(groups[1..]) ==> x in ListSendPays(groups);
      ListSendPaysFailed(groups[1..]);
      forall g | 0 <= g < |groups| ensures AllFailed(groups[g]) {
        if g > 0 {
          assert groups[g] == groups[1..][g - 1];
        }
      }
    }
  }

  /** `complete` and `failed` are final, and a node nobody is calling creates no part. */
  lemma NodeGrows(n: Network, alive: bool, k: NodeStep, n': Network)
    requires NodeNext(n, alive, k, n')
    ensures n.ClnFailed() && !n.clnBusy ==> n'.ClnFailed() && !n'.clnBusy
    ensures n.LndFailed() && !n.lndBusy ==> n'.LndFailed() && !n'.lndBusy
    ensures n.AnyComplete() ==> n'.AnyComplete()
  {
    if n.ClnComplete() {
      var h :| 0 <= h < |n.cln| && Complete in n.cln[h];
      var i :| 0 <= i < |n.cln[h]| && n.cln[h][i] == Complete;
      assert n'.cln[h][i] == Complete;
    }
    if Complete in n.lnd {
      var i :| 0 <= i < |n.lnd| && n.lnd[i] == Complete;
      assert n'.lnd[i] == Complete;
    }
    if k.ResolvePart? {
      assert n.cln[k.g][k.j] in n.cln[k.g];
    }
    if k.ResolvePayment? {
      assert n.lnd[k.j] in n.lnd;
    }
  }

  lemma WorkerNetInv(c: Config, s: State, k: WorkerStep, s': State)
    requires NetInv(c, s) && WorkerNext(c, s, k, s')
    ensures NetInv(c, s')
  {
    ListPaysFailed(s.net);
    if k.SendPaysAnswers? && AllFailed(ListSendPays(s.net.cln)) {
      ListSendPaysFailed(s.net.cln);
    }
  }

  /** A step of one process that leaves the nodes alone and calls none. */
  ghost predicate Moved(s: State, i: nat, s': State) {
    && s'.net == s.net && s'.alive == s.alive && s'.clock == s.clock && s'.stage == s.stage
    && s'.pay.mem == s.pay.mem.(queued := s'.pay.mem.queued)
    && !s.At(i).Ahead() && !s.At(i).InFlight()
    && !s'.At(i).Ahead() && !s'.At(i).InFlight()
    && s'.inFlight == (if i == 0 then false else s.inFlight)
    && forall j: nat :: j != i ==> s'.At(j) == s.At(j)
  }

  lemma CallsMove(s: State, i: nat, p: S.Record, finalize: bool, netFee: Option<nat>, s': State)
    requires s.At(i).Listing? && Calls(s, i, p, finalize, netFee, s')
    ensures Moved(s, i, s')
  {
  }

  lemma GotoMoves(s: State, i: nat, pc: Pc)
    requires s.At(i).Listing? && (pc.Idle? || pc.Removing?)
    ensures Moved(s, i, s.Goto(i, pc))
  {
  }

  lemma ActsMoves(s: State, i: nat, v: Verdict, netFee: Option<nat>, s': State)
    requires s.At(i).Listing? && Acts(s, i, v, netFee, s')
    ensures Moved(s, i, s')
  {
    var p, settled := s.At(i).p, v.Settled?;
    if Calls(s, i, p, settled, netFee, s') {
      CallsMove(s, i, p, settled, netFee, s');
    } else {
      GotoMoves(s, i, s'.At(i));
    }
  }

  lemma SweepMoves(c: Config, s: State, i: nat, w: SweepStep, s': State)
    requires SweepNext(c, s, i, w, s')
    ensures Moved(s, i, s') && s'.pay.calls == s.pay.calls
  {
  }

  lemma ProcessMoves(c: Config, s: State, k: Step, s': State) returns (i: nat)
    requires Next(c, s, k, s')
    requires k.Sweep? || k.ListAnswers? || k.ListFails? || k.CallReturns?
    requires NetInv(c, s)
    ensures Moved(s, i, s')
    ensures s.alive || i > 0
  {
    hide SweepNext, Acts, LndShows;
    i := k.i;
    if k.Sweep? {
      SweepMoves(c, s, i, k.await, s');
      assert i > 0 by { SweepsNumbered(c, s, i, k.await, s'); }
    } else if k.ListAnswers? {
      var pays := if s.At(i).atLnd then k.shown else ListPays(s.net);
      if !(!s.At(i).atLnd && Judge(pays).Dead? && c.hasLnd) {
        ActsMoves(s, i, Judge(pays), k.netFee, s');
      }
    }
  }

  lemma SweepsNumbered(c: Config, s: State, i: nat, w: SweepStep, s': State)
    requires SweepNext(c, s, i, w, s')
    ensures i > 0
  {
  }

  /** What a suspended process relies on only becomes truer. */
  predicate Grows(s: State, s': State) {
    && s.pay.mem.versions <= s'.pay.mem.versions
    && (Quiet(s) ==> Quiet(s') && (s.net.ClnFailed() ==> s'.net.ClnFailed()))
    && (s.net.AnyComplete() ==> s'.net.AnyComplete())
    && (Lost(s) ==> Lost(s'))
  }

  lemma WorkerGrows(c: Config, s: State, k: WorkerStep, s': State)
    requires NetInv(c, s) && WorkerNext(c, s, k, s')
    ensures Grows(s, s')
  {
    assert s'.net.cln == s.net.cln && s'.net.lnd == s.net.lnd;
  }

  lemma MovedKeeps(c: Config, s: State, i: nat)
    requires NetInv(c, s) && (s.alive || i > 0)
    ensures forall s' :: Moved(s, i, s') ==> NetInv(c, s') && Grows(s, s')
  {
    forall s' | Moved(s, i, s') ensures NetInv(c, s') && Grows(s, s') {
      assert s.At(0) == s.worker && s'.At(0) == s'.worker;
    }
  }

  lemma NodeKeeps(c: Config, s: State, k: NodeStep)
    requires NetInv(c, s)
    ensures forall s' :: Next(c, s, Node(k), s') ==> NetInv(c, s') && Grows(s, s')
  {
    forall s' | Next(c, s, Node(k), s') ensures NetInv(c, s') && Grows(s, s') {
      NodeGrows(s.net, s.alive, k, s'.net);
    }
  }

  /** debit(), the clock, a crash and another attempt's clean-up leave the nodes' work as it is. */
  lemma OutsideKeeps(c: Config, s: State, k: Step, s': State)
    requires NetInv(c, s) && Next(c, s, k, s')
    requires k.Debit? || k.Tick? || k.Crash? || k.OtherClears?
    ensures NetInv(c, s') && Grows(s, s')
  {
  }

  lemma SettleKeeps(c: Config, s: State, k: S.Step, s': State)
    requires NetInv(c, s) && Next(c, s, Settle(k), s')
    ensures NetInv(c, s') && Grows(s, s')
  {
    S.NextGrows(c.faults, s.pay, k, s'.pay);
  }

  lemma NetInvNext(c: Config, s: State, k: Step, s': State)
    requires NetInv(c, s) && Next(c, s, k, s')
    ensures NetInv(c, s') && Grows(s, s')
  {
    hide NetInv, Grows, Moved;
    match k
    case Node(k) => NodeKeeps(c, s, k);
    case Worker(k) => WorkerNetInv(c, s, k, s'); WorkerGrows(c, s, k, s');
    case Settle(k) => SettleKeeps(c, s, k, s');
    case _ =>
      if k.Debit? || k.Tick? || k.Crash? || k.OtherClears? {
        OutsideKeeps(c, s, k, s');
      } else {
        var i := ProcessMoves(c, s, k, s');
        MovedKeeps(c, s, i);
      }
  }

  // ---- Money is given back only when nothing can still settle ----------------

  ghost predicate PcInv(s: State, pc: Pc) {
    match pc
    case Listing(atLnd, p, _) =>
      p in s.pay.mem.versions && Quiet(s) && (atLnd ==> s.net.ClnFailed())
    case Removing(p, settled) =>
      p in s.pay.mem.versions && Quiet(s) && (if settled then s.net.AnyComplete() else Lost(s))
    case Loaded(p) => p in s.pay.mem.versions
    case _ => true
  }

  ghost predicate CallInv(s: State, call: S.Call) {
    && (call.Finalizing() ==> s.net.AnyComplete())
    && (call.Reversing() ==> Lost(s))
  }

  ghost predicate SafeInv(s: State) {
    && (forall i: nat :: PcInv(s, s.At(i)))
    && (forall i :: i in s.pay.calls ==> CallInv(s, s.pay.calls[i]))
    && (s.pay.mem.reversals != [] ==> Lost(s))
    && (s.pay.mem.refunds != [] ==> s.net.AnyComplete())
  }

  /** A step that moves only process i, and calls nothing, keeps the rest safe. */
  lemma StepSafe(s: State, i: nat, s': State)
    requires SafeInv(s) && Grows(s, s') && (PcInv(s', s'.At(i)) || s'.At(i) == s.At(i))
    requires forall j: nat :: j != i ==> s'.At(j) == s.At(j)
    requires s'.pay == s.pay.(mem := s.pay.mem.(queued := s'.pay.mem.queued))
    ensures SafeInv(s')
  {
    forall j: nat ensures PcInv(s', s'.At(j)) {
      assert PcInv(s, s.At(j));
    }
    forall j | j in s'.pay.calls ensures CallInv(s', s'.pay.calls[j]) {
      assert CallInv(s, s.pay.calls[j]);
    }
  }

  /** finalize is called on a completed payment, reverse on a lost one. */
  lemma CallSafe(s: State, i: nat, p: S.Record, finalize: bool, netFee: Option<nat>, s': State)
    requires SafeInv(s) && Grows(s, s') && s'.At(i).InCall?
    requires forall j: nat :: j != i ==> s'.At(j) == s.At(j)
    requires s'.pay.mem == s.pay.mem.(queued := s'.pay.mem.queued)
    requires s'.pay.calls == s.pay.calls[i := if finalize then S.FinDequeue(p, netFee) else S.RevClaim(p)]
    requires if finalize then s.net.AnyComplete() else Lost(s)
    ensures SafeInv(s')
  {
    forall j: nat ensures PcInv(s', s'.At(j)) {
      assert PcInv(s, s.At(j));
    }
    forall j | j in s'.pay.calls ensures CallInv(s', s'.pay.calls[j]) {
      if j != i {
        assert CallInv(s, s.pay.calls[j]);
      }
    }
  }

  /** LND's listing can be trusted with this payment. */
  predicate ListsLnd(c: Config) { c.hasLnd ==> c.lndListed }

  /** What a listing's verdict says about the parts. */
  predicate Justified(n: Network, atLnd: bool, v: Verdict) {
    && (v.Settled? ==> n.AnyComplete())
    && (v.Dead? ==> if atLnd then n.LndFailed() else n.ClnFailed())
  }

  lemma JudgeMeans(c: Config, n: Network, atLnd: bool, shown: seq<Status>)
    requires ListsLnd(c) && (n.lnd != [] ==> c.hasLnd) && (atLnd ==> LndShows(c, n.lnd, shown))
    ensures Justified(n, atLnd, Judge(if atLnd then shown else ListPays(n)))
  {
    ListPaysFailed(n);
    if !atLnd && Judge(ListPays(n)).Dead? {
      forall x | x in ListPays(n) ensures x == Failed {
      }
    }
  }

  lemma ActsSafe(s: State, i: nat, v: Verdict, netFee: Option<nat>, s': State)
    requires SafeInv(s) && s.At(i).Listing? && Acts(s, i, v, netFee, s') && Grows(s, s')
    requires v.Settled? ==> s.net.AnyComplete()
    requires v.Dead? ==> Lost(s)
    ensures SafeInv(s')
  {
    var p := s.At(i).p;
    assert PcInv(s, s.At(i));
    ActsMoves(s, i, v, netFee, s');
    if Calls(s, i, p, v.Settled?, netFee, s') {
      CallSafe(s, i, p, v.Settled?, netFee, s');
    } else {
      StepSafe(s, i, s');
    }
  }

  lemma ListAnswersSafe(c: Config, s: State, i: nat, netFee: Option<nat>, shown: seq<Status>, s': State)
    requires ListsLnd(c) && NetInv(c, s) && SafeInv(s)
    requires Next(c, s, ListAnswers(i, netFee, shown), s') && Grows(s, s')
    ensures SafeInv(s')
  {
    var atLnd := s.At(i).atLnd;
    var v := Judge(if atLnd then shown else ListPays(s.net));
    JudgeMeans(c, s.net, atLnd, shown);
    assert PcInv(s, s.At(i));
    if !atLnd && v.Dead? && c.hasLnd {
      StepSafe(s, i, s');
    } else {
      ActsSafe(s, i, v, netFee, s');
    }
  }

  /** Between its calls the worker touches neither the settlement nor a sweep. */
  lemma WorkerMoves(c: Config, s: State, k: WorkerStep, s': State)
    requires NetInv(c, s) && WorkerNext(c, s, k, s') && !s'.worker.InCall?
    requires s.pay.mem.debited in s.pay.mem.versions
    ensures s'.pay == s.pay && s'.sweeps == s.sweeps
    ensures PcInv(s', s'.worker)
  {
  }

  /** The worker enters finalize on a completed payment and reverse on a lost one. */
  lemma WorkerCalls(c: Config, s: State, k: WorkerStep, s': State)
    requires SafeInv(s) && WorkerNext(c, s, k, s') && s'.worker.InCall? && Grows(s, s')
    ensures SafeInv(s')
  {
    assert PcInv(s, s.At(0));
    if k.Removed? {
      CallSafe(s, 0, s.worker.p, s.worker.settled, k.netFee, s');
    } else {
      CallSafe(s, 0, s.pay.mem.debited, true, k.netFee, s');
    }
  }

  lemma WorkerSafe(c: Config, s: State, k: WorkerStep, s': State)
    requires NetInv(c, s) && SafeInv(s) && WorkerNext(c, s, k, s')
    requires s.pay.mem.debited in s.pay.mem.versions
    ensures SafeInv(s')
  {
    WorkerGrows(c, s, k, s');
    if s'.worker.InCall? {
      WorkerCalls(c, s, k, s');
    } else {
      WorkerMoves(c, s, k, s');
      StepSafe(s, 0, s');
    }
  }

  lemma SettleSafe(c: Config, s: State, k: S.Step, s': State)
    requires SafeInv(s) && Next(c, s, Settle(k), s') && Grows(s, s')
    ensures SafeInv(s')
  {
    S.NextKinds(c.faults, s.pay, k, s'.pay);
    forall j: nat ensures PcInv(s', s'.At(j)) {
      assert PcInv(s, s.At(j));
    }
    forall j | j in s'.pay.calls ensures CallInv(s', s'.pay.calls[j]) {
      assert CallInv(s, s.pay.calls[j]);
    }
    if k.Advance? {
      assert CallInv(s, s.pay.calls[k.i]);
    }
  }

  lemma CrashSafe(c: Config, s: State, s': State)
    requires SafeInv(s) && Next(c, s, Crash, s') && Grows(s, s')
    ensures SafeInv(s')
  {
  }

  /**
   The condition the 120 s guard rests on: when the process can die, no node may still be
   trying 120 s after the debit.
   */
  predicate GuardCovers(c: Config) { c.faults.crash ==> c.retryMs <= GUARD_MS }

  /** A sweep that passes the age and in-flight guards finds no node call running. */
  lemma GuardFindsQuiet(c: Config, s: State)
    requires GuardCovers(c) && NetInv(c, s) && (s.alive || c.faults.crash)
    requires s.clock >= GUARD_MS && !s.inFlight
    ensures Quiet(s)
  {
  }

  lemma SweepSafe(c: Config, s: State, i: nat, w: SweepStep, s': State)
    requires GuardCovers(c) && NetInv(c, s) && S.MemoryInv(s.pay.mem) && SafeInv(s) && SweepNext(c, s, i, w, s')
    requires (s.alive || c.faults.crash) && Grows(s, s')
    ensures SafeInv(s')
  {
    hide NetInv, SafeInv, GuardCovers, Grows, Moved;
    SweepMoves(c, s, i, w, s');
    SweepPc(c, s, i, w, s');
    hide SweepNext, PcInv, S.MemoryInv;
    MovedSafe(s, i, s');
  }

  lemma MovedSafe(s: State, i: nat, s': State)
    requires SafeInv(s) && Grows(s, s') && PcInv(s', s'.At(i)) && Moved(s, i, s') && s'.pay.calls == s.pay.calls
    ensures SafeInv(s')
  {
    hide SafeInv, PcInv, Grows;
    StepSafe(s, i, s');
  }

  lemma SweepPc(c: Config, s: State, i: nat, w: SweepStep, s': State)
    requires GuardCovers(c) && NetInv(c, s) && S.MemoryInv(s.pay.mem) && SafeInv(s) && SweepNext(c, s, i, w, s')
    requires s.alive || c.faults.crash
    ensures PcInv(s', s'.At(i))
  {
    assert PcInv(s, s.At(i));
    if w.Guards? && s.clock >= GUARD_MS && !s.inFlight {
      GuardFindsQuiet(c, s);
    }
  }

  lemma ReturnSafe(c: Config, s: State, k: Step, s': State)
    requires SafeInv(s) && Next(c, s, k, s') && Grows(s, s') && (k.ListFails? || k.CallReturns?)
    ensures SafeInv(s')
  {
    hide SafeInv, Grows;
    StepSafe(s, k.i, s');
  }

  lemma DebitSafe(c: Config, s: State, d: DebitStep, s': State)
    requires SafeInv(s) && DebitNext(c, s, d, s') && Grows(s, s')
    ensures SafeInv(s')
  {
    hide SafeInv, Grows;
    StepSafe(s, 0, s');
  }

  lemma SafeNext(c: Config, s: State, k: Step, s': State)
    requires GuardCovers(c) && ListsLnd(c)
    requires NetInv(c, s) && S.MemoryInv(s.pay.mem) && SafeInv(s) && Next(c, s, k, s')
    requires s.alive || c.faults.crash
    ensures SafeInv(s')
  {
    hide NetInv, SafeInv, GuardCovers, ListsLnd, Grows, WorkerNext, DebitNext, SweepNext, NodeNext, Acts, S.Next;
    NetInvNext(c, s, k, s');
    match k
    case Node(_) => StepSafe(s, 0, s');
    case Tick(_) => StepSafe(s, 0, s');
    case Debit(d) => DebitSafe(c, s, d, s');
    case Worker(w) => WorkerSafe(c, s, w, s');
    case ListAnswers(i, netFee, shown) => ListAnswersSafe(c, s, i, netFee, shown, s');
    case Settle(step) => SettleSafe(c, s, step, s');
    case Crash => CrashSafe(c, s, s');
    case OtherClears(_) => StepSafe(s, 0, s');
    case Sweep(i, w) => SweepSafe(c, s, i, w, s');
    case _ => ReturnSafe(c, s, k, s');
  }

  // ---- Every step of a send is a step, or none, of the settlement -----------

  lemma CallPayInv(c: Config, s: State, i: nat, p: S.Record, finalize: bool, netFee: Option<nat>, s': State)
    requires S.Inv(c.faults, s.pay) && Calls(s, i, p, finalize, netFee, s')
    ensures S.Inv(c.faults, s'.pay)
  {
    S.NextInv(c.faults, s.pay,
              if finalize then S.CallFinalize(i, p, netFee) else S.CallReverse(i, p), s'.pay);
  }

  lemma DequeuePayInv(c: Config, pay: S.State)
    requires S.Inv(c.faults, pay)
    ensures S.Inv(c.faults, pay.(mem := pay.mem.(queued := false)))
  {
    S.NextInv(c.faults, pay, S.Dequeue, pay.(mem := pay.mem.(queued := false)));
  }

  lemma WorkerPayInv(c: Config, s: State, k: WorkerStep, s': State)
    requires S.Inv(c.faults, s.pay) && WorkerNext(c, s, k, s')
    ensures S.Inv(c.faults, s'.pay)
  {
    match k
    case XpayReturns(r, netFee) =>
      if r.WithPreimage? {
        CallPayInv(c, s.(net := s.net.(clnBusy := false)), 0, s.pay.mem.debited, true, netFee, s');
      }
    case LndReturns(preimage, netFee) =>
      if preimage {
        CallPayInv(c, s.(net := s.net.(lndBusy := false)), 0, s.pay.mem.debited, true, netFee, s');
      }
    case Removed(netFee) =>
      DequeuePayInv(c, s.pay);
      CallPayInv(c, s.Unqueue(), 0, s.worker.p, s.worker.settled, netFee, s');
    case _ =>
  }

  lemma ListPayInv(c: Config, s: State, k: Step, s': State)
    requires S.Inv(c.faults, s.pay) && k.ListAnswers? && Next(c, s, k, s')
    ensures S.Inv(c.faults, s'.pay)
  {
    hide S.Inv, S.CanCall, ListPays, Judge;
    var v := Judge(if s.At(k.i).atLnd then k.shown else ListPays(s.net));
    if s'.pay != s.pay {
      CallPayInv(c, s, k.i, s.At(k.i).p, v.Settled?, k.netFee, s');
    }
  }

  lemma PayInv(c: Config, s: State, k: Step, s': State)
    requires S.Inv(c.faults, s.pay) && Next(c, s, k, s')
    ensures S.Inv(c.faults, s'.pay)
  {
    hide S.Inv, S.Next, WorkerNext, Acts, LndShows;
    match k
    case Worker(w) => WorkerPayInv(c, s, w, s');
    case Debit(_) => DequeuePayInv(c, s.pay);
    case Sweep(_, _) => DequeuePayInv(c, s.pay);
    case OtherClears(_) => DequeuePayInv(c, s.pay);
    case ListAnswers(_, _, _) => ListPayInv(c, s, k, s');
    case Settle(step) => S.NextInv(c.faults, s.pay, step, s'.pay);
    case Crash => S.NextInv(c.faults, s.pay, S.Crash, s'.pay);
    case _ =>
  }

  // ---- Whole runs -----------------------------------------------------------

  lemma InitInv(c: Config, s: State)
    requires Init(s)
    ensures NetInv(c, s) && S.Inv(c.faults, s.pay) && SafeInv(s) && s.alive
  {
  }

  lemma OnlyCrashKills(c: Config, s: State, k: Step, s': State)
    requires Next(c, s, k, s') && (s.alive || c.faults.crash)
    ensures s'.alive || c.faults.crash
  {
  }

  lemma {:induction false} RunInv(c: Config, ss: seq<State>, ks: seq<Step>, n: nat)
    requires Run(c, ss, ks) && n < |ss|
    ensures forall m :: 0 <= m <= n ==>
              && NetInv(c, ss[m]) && S.Inv(c.faults, ss[m].pay) && (ss[m].alive || c.faults.crash)
              && (GuardCovers(c) && ListsLnd(c) ==> SafeInv(ss[m]))
  {
    hide Init, Next, NetInv, SafeInv;
    if n == 0 {
      InitInv(c, ss[0]);
    } else {
      RunInv(c, ss, ks, n - 1);
      var s, k, s' := ss[n - 1], ks[n - 1], ss[n];
      assert Next(c, s, k, s');
      NetInvNext(c, s, k, s');
      OnlyCrashKills(c, s, k, s');
      PayInv(c, s, k, s');
      if GuardCovers(c) && ListsLnd(c) {
        SafeNext(c, s, k, s');
      }
    }
  }

  /** Completions and ledger reversals are never undone. */
  lemma {:induction false} RunGrows(c: Config, ss: seq<State>, ks: seq<Step>, i: nat, j: nat)
    requires Run(c, ss, ks) && i <= j < |ss|
    decreases j
    ensures forall m :: i <= m <= j ==> Grows(ss[i], ss[m])
  {
    hide Next, NetInv, SafeInv, S.Inv;
    if i < j {
      RunGrows(c, ss, ks, i, j - 1);
      RunInv(c, ss, ks, j - 1);
      assert Next(c, ss[j - 1], ks[j - 1], ss[j]);
      NetInvNext(c, ss[j - 1], ks[j - 1], ss[j]);
    }
  }

  /** Some run ends in s. */
  ghost predicate Reachable(c: Config, s: State) { R.Reachable(Init, Steps(c), s) }

  lemma Starts(c: Config, s: State)
    requires Init(s)
    ensures Reachable(c, s)
  {
    R.Starts(Init, Steps(c), s);
  }

  lemma Then(c: Config, s: State, k: Step, s': State)
    requires Reachable(c, s) && Next(c, s, k, s')
    ensures Reachable(c, s')
  {
    R.Then(Init, Steps(c), s, k, s');
  }
}
