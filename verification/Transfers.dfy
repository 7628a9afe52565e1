/**
 Internal transfers: sendInternal's debit and credit as separate ledger writes, any number
 at once, while anyone changes the tips of unpaid invoices in between.
 */
module Transfers {
  import opened Options
  import opened Sums
  import opened Ledger
  import opened Operations
  import R = Runs

  datatype Invoice = Invoice(owner: nat, tip: nat)

  /** How far a transfer has come. tip is what debit() captured. */
  datatype Stage = Asked | Captured(tip: nat) | Taken(tip: nat) | Given(tip: nat) | Stopped

  datatype Send = Send(sender: nat, invoice: nat, owner: nat, amount: nat, stage: Stage) {
    function Tip(): nat { if stage.Asked? || stage.Stopped? then 0 else stage.tip }

    /** What the sender has paid, and what the owner has received. */
    function Paid(): nat { if stage.Taken? || stage.Given? then amount + stage.tip else 0 }

    function Received(): nat { if stage.Given? then amount + stage.tip else 0 }

    /** Its effect on an account. */
    function Flow(aid: nat): int {
      (if owner == aid then Received() else 0) - (if sender == aid then Paid() else 0)
    }
  }

  datatype State = State(book: Book, invoices: map<nat, Invoice>, sends: map<nat, Send>)

  datatype Step =
    | SetInvoice(h: nat, inv: Invoice)     // a new invoice, or PUT /invoice on its tip
    | Ask(i: nat, send: Send)
    | Capture(i: nat)                      // debit() reads the invoice
    | Take(i: nat)                         // tbDebit's batch
    | Give(i: nat)                         // tbCredit's batch
    | Stop(i: nat)                         // a check before the debit fails

  function DebitOp(s: Send): Op { Debit(s.sender, Credit(s.sender, Lightning), 0, s.amount + s.Tip()) }

  /** credit() takes the tip it is passed, whatever the invoice holds by then. */
  function CreditOp(s: Send): Op {
    Receive(Balance(s.owner), s.amount + s.Tip(), Credit(s.owner, Lightning), 0)
  }

  ghost predicate Init(s: State) { Valid(s.book) && s.sends == map[] }

  ghost predicate Next(s: State, k: Step, s': State) {
    match k
    case SetInvoice(h, inv) =>
      && (h in s.invoices ==> inv.owner == s.invoices[h].owner)
      && s' == s.(invoices := s.invoices[h := inv])
    case Ask(i, send) =>
      && i !in s.sends && send.stage == Asked && send.amount > 0
      && send.invoice in s.invoices && s.invoices[send.invoice].owner == send.owner
      && s' == s.(sends := s.sends[i := send])
    case Capture(i) =>
      && i in s.sends && s.sends[i].stage.Asked? && s.sends[i].invoice in s.invoices
      && s' == s.(sends := s.sends[i := s.sends[i].(stage := Captured(s.invoices[s.sends[i].invoice].tip))])
    case Take(i) =>
      && i in s.sends && s.sends[i].stage.Captured?
      && var send := s.sends[i];
      && CanDebit(s.book, DebitOp(send))
      && s' == s.(book := Apply(s.book, DebitOp(send)), sends := s.sends[i := send.(stage := Taken(send.stage.tip))])
    case Give(i) =>
      // a credit that stops short leaves the transfer at Taken
      && i in s.sends && s.sends[i].stage.Taken? && s.sends[i].invoice in s.invoices
      && Balance(s.sends[i].owner) in s.book
      && var send := s.sends[i];
      s' == s.(book := Apply(s.book, CreditOp(send)),
               sends := s.sends[i := send.(stage := Given(send.stage.tip))])
    case Stop(i) =>
      && i in s.sends && (s.sends[i].stage.Asked? || s.sends[i].stage.Captured?)
      && s' == s.(sends := s.sends[i := s.sends[i].(stage := Stopped)])
  }

  ghost predicate Run(ss: seq<State>, ks: seq<Step>) { R.Run(Init, Next, ss, ks) }

  ghost function Flows(s: State, aid: nat): map<nat, int> { map i | i in s.sends :: s.sends[i].Flow(aid) }

  /** What is paid and not yet received, by transfer. */
  ghost function Held(s: State): map<nat, int> {
    map i | i in s.sends :: s.sends[i].Paid() - s.sends[i].Received()
  }

  /** A step of transfer i changes its own entry in the sums. */
  lemma FlowsMove(s: State, s': State, i: nat, aid: nat)
    requires i in s'.sends && s'.sends == s.sends[i := s'.sends[i]]
    ensures Sum(Flows(s', aid)) ==
            Sum(Flows(s, aid)) + s'.sends[i].Flow(aid) - (if i in s.sends then s.sends[i].Flow(aid) else 0)
  {
    SumUpdate(Flows(s, aid), i, s'.sends[i].Flow(aid));
    assert Flows(s, aid)[i := s'.sends[i].Flow(aid)] == Flows(s', aid);
  }

  lemma HeldMoves(s: State, s': State, i: nat)
    requires i in s'.sends && s'.sends == s.sends[i := s'.sends[i]]
    ensures Sum(Held(s')) ==
            Sum(Held(s)) + s'.sends[i].Paid() - s'.sends[i].Received()
            - (if i in s.sends then s.sends[i].Paid() - s.sends[i].Received() else 0)
  {
    SumUpdate(Held(s), i, s'.sends[i].Paid() - s'.sends[i].Received());
    assert Held(s)[i := s'.sends[i].Paid() - s'.sends[i].Received()] == Held(s');
  }

  lemma TakeMoves(s: State, i: nat, s': State, aid: nat)
    requires Valid(s.book) && Next(s, Take(i), s')
    ensures Valid(s'.book)
    ensures Micro(s'.book, Balance(aid)) ==
            Micro(s.book, Balance(aid)) + (s'.sends[i].Flow(aid) - s.sends[i].Flow(aid)) * MSATS
    ensures Total(s'.book, Users) == Total(s.book, Users) - s'.sends[i].Paid() * MSATS
  {
    hide Apply, Sound, CanDebit;
    var op := DebitOp(s.sends[i]);
    DebitMoves(s.book, op);
    ApplyValid(s.book, op);
    TotalFollows(s.book, op, Users);
  }

  lemma GiveMoves(s: State, i: nat, s': State, aid: nat)
    requires Valid(s.book) && Next(s, Give(i), s')
    ensures Valid(s'.book)
    ensures Micro(s'.book, Balance(aid)) ==
            Micro(s.book, Balance(aid)) + (s'.sends[i].Flow(aid) - s.sends[i].Flow(aid)) * MSATS
    ensures Total(s'.book, Users) == Total(s.book, Users) + s'.sends[i].Received() * MSATS
  {
    hide Apply, Sound, CanDebit;
    var op := CreditOp(s.sends[i]);
    ReceiveMoves(s.book, op);
    ApplyValid(s.book, op);
    TotalFollows(s.book, op, Users);
  }

  /** The ledger shows exactly what the transfers have paid and received. */
  ghost predicate Accounted(s0: State, s: State) {
    && Valid(s.book)
    && (forall aid: nat :: Micro(s.book, Balance(aid)) ==
                           Micro(s0.book, Balance(aid)) + Sum(Flows(s, aid)) * MSATS)
    && Total(s.book, Users) == Total(s0.book, Users) - Sum(Held(s)) * MSATS
  }

  lemma ValidNext(s: State, k: Step, s': State)
    requires Valid(s.book) && Next(s, k, s')
    ensures Valid(s'.book)
  {
    hide Sound, Apply, CanDebit;
    if k.Take? || k.Give? {
      ApplyValid(s.book, if k.Take? then DebitOp(s.sends[k.i]) else CreditOp(s.sends[k.i]));
    }
  }

  lemma TotalNext(s: State, k: Step, s': State)
    requires Valid(s.book) && Next(s, k, s')
    ensures Total(s'.book, Users) + Sum(Held(s')) * MSATS == Total(s.book, Users) + Sum(Held(s)) * MSATS
  {
    hide Valid, Apply, CanDebit, Total;
    if k.SetInvoice? {
      assert Held(s') == Held(s);
    } else {
      HeldMoves(s, s', k.i);
      if k.Take? {
        TakeMoves(s, k.i, s', 0);
      } else if k.Give? {
        GiveMoves(s, k.i, s', 0);
      }
    }
  }

  lemma AccountedNext(s0: State, s: State, k: Step, s': State)
    requires Accounted(s0, s) && Next(s, k, s')
    ensures Accounted(s0, s')
  {
    hide Valid, Total, Sum, Apply, CanDebit;
    ValidNext(s, k, s');
    TotalNext(s, k, s');
    forall aid: nat
      ensures Micro(s'.book, Balance(aid)) == Micro(s0.book, Balance(aid)) + Sum(Flows(s', aid)) * MSATS
    {
      if k.SetInvoice? {
        assert Flows(s', aid) == Flows(s, aid);
      } else {
        AccountMoves(s0, s, k, s', aid);
      }
    }
  }

  lemma AccountMoves(s0: State, s: State, k: Step, s': State, aid: nat)
    requires Accounted(s0, s) && Next(s, k, s') && !k.SetInvoice?
    ensures Micro(s'.book, Balance(aid)) == Micro(s0.book, Balance(aid)) + Sum(Flows(s', aid)) * MSATS
  {
    hide Valid, Apply, CanDebit, Total;
    FlowsMove(s, s', k.i, aid);
    if k.Take? {
      TakeMoves(s, k.i, s', aid);
    } else if k.Give? {
      GiveMoves(s, k.i, s', aid);
    }
  }

  lemma {:induction false} RunAccounted(ss: seq<State>, ks: seq<Step>, n: nat)
    requires Run(ss, ks) && n < |ss|
    ensures forall m :: 0 <= m <= n ==> Accounted(ss[0], ss[m])
  {
    if n == 0 {
      assert forall aid: nat :: Flows(ss[0], aid) == map[];
      assert Held(ss[0]) == map[];
    } else {
      RunAccounted(ss, ks, n - 1);
      AccountedNext(ss[0], ss[n - 1], ks[n - 1], ss[n]);
    }
  }

  /** However invoices change in between, a transfer goes on with the tip it captured. */
  lemma {:induction false} TipCapturedOnce(ss: seq<State>, ks: seq<Step>, i: nat, m: nat, n: nat)
    requires Run(ss, ks) && m <= n < |ss|
    requires i in ss[m].sends && !ss[m].sends[i].stage.Asked?
    ensures i in ss[n].sends
    ensures ss[n].sends[i] == ss[m].sends[i].(stage := ss[n].sends[i].stage)
    ensures ss[n].sends[i].stage.Stopped? ||
            (!ss[n].sends[i].stage.Asked? && ss[n].sends[i].Tip() == ss[m].sends[i].Tip())
    decreases n
  {
    hide Apply, Valid, CanDebit;
    if m < n {
      TipCapturedOnce(ss, ks, i, m, n - 1);
      assert Next(ss[n - 1], ks[n - 1], ss[n]);
    }
  }

  /** And that is the tip the invoice held at some point between the request and now. */
  lemma {:induction false} TipWasAsked(ss: seq<State>, ks: seq<Step>, i: nat, n: nat)
    requires Run(ss, ks) && n < |ss| && i in ss[n].sends
    requires !ss[n].sends[i].stage.Asked? && !ss[n].sends[i].stage.Stopped?
    ensures exists m :: 0 <= m < n && ss[n].sends[i].invoice in ss[m].invoices
                        && ss[m].invoices[ss[n].sends[i].invoice].tip == ss[n].sends[i].Tip()
  {
    hide Apply, Valid, CanDebit;
    assert n > 0;
    assert Next(ss[n - 1], ks[n - 1], ss[n]);
    if ks[n - 1] == Capture(i) {
      assert ss[n - 1].invoices[ss[n].sends[i].invoice].tip == ss[n].sends[i].Tip();
    } else {
      TipWasAsked(ss, ks, i, n - 1);
    }
  }

  /**
   Conservation: at every point each account has exactly what the transfers have paid and
   received, and the users' total has not grown.
   */
  lemma InternalConserves(ss: seq<State>, ks: seq<Step>, n: nat)
    requires Run(ss, ks) && n < |ss|
    ensures forall aid: nat :: Micro(ss[n].book, Balance(aid)) ==
                               Micro(ss[0].book, Balance(aid)) + Sum(Flows(ss[n], aid)) * MSATS
    ensures Total(ss[n].book, Users) <= Total(ss[0].book, Users)
  {
    RunAccounted(ss, ks, n);
    SumNonnegative(Held(ss[n]));
  }

  /** The users' total is back to what it was exactly when no transfer is between its two writes. */
  lemma CompleteExactly(ss: seq<State>, ks: seq<Step>, n: nat)
    requires Run(ss, ks) && n < |ss|
    ensures Total(ss[n].book, Users) == Total(ss[0].book, Users) <==>
            forall i :: i in ss[n].sends ==> !ss[n].sends[i].stage.Taken?
  {
    RunAccounted(ss, ks, n);
    AmountsPositive(ss, ks, n);
    SumZero(Held(ss[n]));
    var s := ss[n];
    forall i | i in s.sends ensures Held(s)[i] == 0 <==> !s.sends[i].stage.Taken? {
      assert s.sends[i].amount > 0;
    }
    if forall i :: i in s.sends ==> !s.sends[i].stage.Taken? {
      assert forall i :: i in Held(s) ==> Held(s)[i] == 0;
    } else {
      var i :| i in s.sends && s.sends[i].stage.Taken?;
      assert i in Held(s);
    }
  }

  lemma {:induction false} AmountsPositive(ss: seq<State>, ks: seq<Step>, n: nat)
    requires Run(ss, ks) && n < |ss|
    ensures forall i :: i in ss[n].sends ==> ss[n].sends[i].amount > 0
  {
    hide Apply, Valid, CanDebit;
    if n > 0 {
      AmountsPositive(ss, ks, n - 1);
      assert Next(ss[n - 1], ks[n - 1], ss[n]);
    }
  }
}
