/**
 Shared funds: deposits into a fund, authorizations that let a take() draw on their author up
 to a fiat value, and takes, all interleaved at their awaits. A deposit or a take may fail
 before any of its ledger writes; late adds a failure of the drawing part of a take after
 its debit, which releases the authorization's claim all the same.
 */
module Funds {
  import opened Sums
  import opened Ledger
  import opened Operations
  import R = Runs

  /** A fiat value in an author's currency; authorize() refuses one that is not positive. */
  datatype Auth = Auth(author: nat, fund: string, fiat: real)

  datatype Pc =
    | Paying                 // a deposit before its debit
    | Filling                // and before tbFundCredit
    | Looking                // a take before it has read an authorization
    | Claiming(x: nat)
    | Drawing(x: nat)        // the claim is won, the author not yet debited
    | Drawn(x: nat)          // debited, the fund not yet credited
    | Marking(x: nat)        // the record not yet marked claimed
    | Emptying               // before tbFundDebit
    | Crediting              // and before tbCredit
    | Ended
  {
    predicate HasClaim() { Drawing? || Drawn? || Marking? }
  }

  datatype Measure = InBalance(aid: nat) | InFund(name: string) | InAll

  /** The same in the ledger. */
  ghost function Booked(b: Book, m: Measure): int {
    match m
    case InBalance(aid) => Micro(b, Balance(aid))
    case InFund(name) => Micro(b, Fund(name))
    case InAll => Total(b, UsersAndFunds)
  }

  /**
   A deposit or a take. payer is who is debited; x, rate and cap are the authorization drawn
   on, the rate of the day and the authorization's value in sats; paid, put, out and got are what
   its ledger writes have moved.
   */
  datatype Proc = Proc(user: nat, fund: string, amount: nat, pc: Pc, payer: nat, x: nat, rate: real, cap: nat,
                       paid: nat, put: nat, out: nat, got: nat)
  {
    /** What it has added to a balance, to a fund, or to all of them. */
    function Of(m: Measure): int {
      match m
      case InBalance(aid) => (if user == aid then got else 0) - (if payer == aid then paid else 0)
      case InFund(name) => if fund == name then put - out else 0
      case InAll => got - out + put - paid
    }
  }

  /** take: the authorization's fiat value in sats at the rate of the day, Math.round(n * 1e8). */
  function Cap(fiat: real, rate: real): int
    requires rate > 0.0
  {
    Round(fiat / rate * 100000000.0)
  }

  datatype State = State(book: Book, auths: map<nat, Auth>, marked: set<nat>, claims: set<nat>, procs: map<nat, Proc>)
  {
    function Goto(i: nat, p: Proc): State { this.(procs := procs[i := p]) }
  }

  datatype Step =
    | Authorize(x: nat, auth: Auth)
    | Deposit(i: nat, user: nat, fund: string, amount: nat)
    | Take(i: nat, user: nat, fund: string, amount: nat)
    | LookUp(i: nat, x: nat, rate: real)
    | LookUpNothing(i: nat)
    | Advance(i: nat)
    | Fail(i: nat)           // before its next ledger write
    | FailLate(i: nat)       // a take that has debited the author

  function PayOp(p: Proc): Op { Debit(p.payer, Credit(p.payer, Lightning), 0, p.amount) }

  function GiveOp(p: Proc): Op { Receive(Balance(p.user), p.amount, Credit(p.user, Lightning), 0) }

  function Fresh(user: nat, fund: string, amount: nat, pc: Pc): Proc {
    Proc(user, fund, amount, pc, user, 0, 1.0, 0, 0, 0, 0, 0)
  }

  ghost predicate Init(s: State) {
    Valid(s.book) && s == State(s.book, map[], {}, {}, map[])
  }

  predicate StartNext(s: State, k: Step, s': State) {
    match k
    case Authorize(x, auth) => x !in s.auths && auth.fiat > 0.0 && s' == s.(auths := s.auths[x := auth])
    case Deposit(i, user, fund, amount) =>
      i !in s.procs && amount > 0 && s' == s.Goto(i, Fresh(user, fund, amount, Paying))
    case Take(i, user, fund, amount) =>
      i !in s.procs && amount > 0 && s' == s.Goto(i, Fresh(user, fund, amount, Looking))
    case LookUp(i, x, rate) =>
      && i in s.procs && s.procs[i].pc.Looking? && x in s.auths && s.auths[x].fund == s.procs[i].fund && rate > 0.0
      && var p, cap := s.procs[i], Cap(s.auths[x].fiat, rate);
      if x in s.marked then s' == s.Goto(i, p.(pc := Emptying))
      else
        && cap > 0
        && s' == s.Goto(i, p.(pc := Claiming(x), payer := s.auths[x].author, x := x, rate := rate, cap := cap,
                              amount := if p.amount < cap then p.amount else cap))
    case LookUpNothing(i) =>
      i in s.procs && s.procs[i].pc.Looking? && s' == s.Goto(i, s.procs[i].(pc := Emptying))
    case Fail(i) =>
      && i in s.procs
      && var p := s.procs[i];
      && (p.pc.Paying? || p.pc.Looking? || p.pc.Claiming? || p.pc.Drawing? || p.pc.Emptying? || p.pc.Crediting?)
      && s' == s.(claims := if p.pc.Drawing? then s.claims - {p.pc.x} else s.claims).Goto(i, p.(pc := Ended))
    case _ => false
  }

  ghost predicate AdvanceNext(s: State, i: nat, s': State) {
    && i in s.procs
    && var p := s.procs[i];
    match p.pc
    case Paying =>
      && CanDebit(s.book, PayOp(p))
      && s' == s.(book := Apply(s.book, PayOp(p))).Goto(i, p.(pc := Filling, paid := p.amount))
    case Filling =>
      s' == s.(book := Apply(s.book, FundCredit(p.fund, p.amount))).Goto(i, p.(pc := Ended, put := p.amount))
    case Claiming(x) =>
      s' == if x in s.claims then s.Goto(i, p.(pc := Emptying))
            else s.(claims := s.claims + {x}).Goto(i, p.(pc := Drawing(x)))
    case Drawing(x) =>
      && CanDebit(s.book, PayOp(p))
      && s' == s.(book := Apply(s.book, PayOp(p))).Goto(i, p.(pc := Drawn(x), paid := p.amount))
    case Drawn(x) =>
      s' == s.(book := Apply(s.book, FundCredit(p.fund, p.amount))).Goto(i, p.(pc := Marking(x), put := p.amount))
    case Marking(x) => s' == s.(marked := s.marked + {x}).Goto(i, p.(pc := Emptying))
    case Emptying =>
      && CanFundDebit(s.book, p.fund, p.amount)
      && s' == s.(book := Apply(s.book, FundDebit(p.fund, p.amount))).Goto(i, p.(pc := Crediting, out := p.amount))
    case Crediting =>
      && Balance(p.user) in s.book
      && s' == s.(book := Apply(s.book, GiveOp(p))).Goto(i, p.(pc := Ended, got := p.amount))
    case Looking => false
    case Ended => false
  }

  ghost predicate Next(late: bool, s: State, k: Step, s': State) {
    match k
    case Advance(i) => AdvanceNext(s, i, s')
    case FailLate(i) =>
      && late && i in s.procs && (s.procs[i].pc.Drawn? || s.procs[i].pc.Marking?)
      && s' == s.(claims := s.claims - {s.procs[i].pc.x}).Goto(i, s.procs[i].(pc := Ended))
    case _ => StartNext(s, k, s')
  }

  ghost function Steps(late: bool): (State, Step, State) -> bool { (s, k, s') => Next(late, s, k, s') }

  ghost predicate Run(late: bool, ss: seq<State>, ks: seq<Step>) { R.Run(Init, Steps(late), ss, ks) }

  // ---- The books ------------------------------------------------------------

  /** What each process has added. */
  ghost function Column(s: State, m: Measure): map<nat, int> { map i | i in s.procs :: s.procs[i].Of(m) }

  lemma ColumnMoves(s: State, s': State, i: nat, m: Measure)
    requires i in s'.procs && s'.procs == s.procs[i := s'.procs[i]]
    ensures Sum(Column(s', m)) ==
            Sum(Column(s, m)) + s'.procs[i].Of(m) - (if i in s.procs then s.procs[i].Of(m) else 0)
  {
    SumUpdate(Column(s, m), i, s'.procs[i].Of(m));
    assert Column(s, m)[i := s'.procs[i].Of(m)] == Column(s', m);
  }

  /** What the process may have moved, by where it is. */
  predicate ProcInv(p: Proc) {
    && p.amount > 0
    && p.put <= p.paid <= p.amount && p.got <= p.out <= p.amount
    && (p.pc.Looking? ==> p.cap == 0)
    && (p.pc.Claiming? || p.pc.HasClaim() ==> p.x == p.pc.x)
    && p.paid in {0, p.amount} && p.put in {0, p.amount} && p.out in {0, p.amount} && p.got in {0, p.amount}
    && (p.pc.Paying? || p.pc.Looking? || p.pc.Claiming? || p.pc.Drawing? ==> p.paid == p.out == 0)
    && (p.pc.Filling? || p.pc.Drawn? ==> p.paid == p.amount && p.put == p.out == 0)
    && (p.pc.Marking? ==> p.put == p.amount && p.out == 0)
    && (p.pc.Emptying? ==> p.out == 0)
    && (p.pc.Crediting? ==> p.out == p.amount && p.got == 0)
  }

  ghost predicate ProcsInv(s: State) { forall i :: i in s.procs ==> ProcInv(s.procs[i]) }

  lemma StartProcs(s: State, k: Step, s': State)
    requires ProcsInv(s) && StartNext(s, k, s')
    ensures ProcsInv(s')
  {
    hide Cap;
  }

  lemma AdvanceProcs(s: State, i: nat, s': State)
    requires ProcsInv(s) && AdvanceNext(s, i, s')
    ensures ProcsInv(s')
  {
    hide Apply, CanDebit, CanFundDebit;
    assert ProcInv(s.procs[i]);
    assert ProcInv(s'.procs[i]);
  }

  lemma ProcsNext(late: bool, s: State, k: Step, s': State)
    requires ProcsInv(s) && Next(late, s, k, s')
    ensures ProcsInv(s')
  {
    hide StartNext, AdvanceNext;
    match k
    case Advance(i) => AdvanceProcs(s, i, s');
    case FailLate(i) => assert ProcInv(s.procs[i]);
    case _ => StartProcs(s, k, s');
  }

  /** The ledger follows the process that took the step. */
  ghost predicate Follows(s: State, s': State, i: nat) {
    && i in s.procs && i in s'.procs && s'.procs == s.procs[i := s'.procs[i]] && Valid(s'.book)
    && forall m :: Booked(s'.book, m) ==
                   Booked(s.book, m) + (s'.procs[i].Of(m) - s.procs[i].Of(m)) * MSATS
  }

  lemma PayFollows(s: State, i: nat)
    requires Valid(s.book) && i in s.procs && ProcInv(s.procs[i])
    requires s.procs[i].pc.Paying? || s.procs[i].pc.Drawing?
    ensures forall s' :: AdvanceNext(s, i, s') ==> Follows(s, s', i)
  {
    hide Apply, Sound, CanDebit, Total;
    var op := PayOp(s.procs[i]);
    ApplyValid(s.book, op);
    DebitMoves(s.book, op);
    TotalFollows(s.book, op, UsersAndFunds);
    forall s' | AdvanceNext(s, i, s') ensures Follows(s, s', i) {
    }
  }

  lemma FillFollows(s: State, i: nat)
    requires Valid(s.book) && i in s.procs && ProcInv(s.procs[i])
    requires s.procs[i].pc.Filling? || s.procs[i].pc.Drawn?
    ensures forall s' :: AdvanceNext(s, i, s') ==> Follows(s, s', i)
  {
    hide Apply, Sound, Total;
    var op := FundCredit(s.procs[i].fund, s.procs[i].amount);
    ApplyValid(s.book, op);
    FundCreditMoves(s.book, op.name, op.amount);
    TotalFollows(s.book, op, UsersAndFunds);
    forall s' | AdvanceNext(s, i, s') ensures Follows(s, s', i) {
    }
  }

  lemma EmptyFollows(s: State, i: nat)
    requires Valid(s.book) && i in s.procs && ProcInv(s.procs[i]) && s.procs[i].pc.Emptying?
    ensures forall s' :: AdvanceNext(s, i, s') ==> Follows(s, s', i)
  {
    hide Apply, Sound, Total, CanFundDebit;
    var op := FundDebit(s.procs[i].fund, s.procs[i].amount);
    ApplyValid(s.book, op);
    FundDebitMoves(s.book, op.name, op.amount);
    TotalFollows(s.book, op, UsersAndFunds);
    forall s' | AdvanceNext(s, i, s') ensures Follows(s, s', i) {
    }
  }

  lemma CreditFollows(s: State, i: nat)
    requires Valid(s.book) && i in s.procs && ProcInv(s.procs[i]) && s.procs[i].pc.Crediting?
    ensures forall s' :: AdvanceNext(s, i, s') ==> Follows(s, s', i)
  {
    hide Apply, Sound, Total;
    var op := GiveOp(s.procs[i]);
    ApplyValid(s.book, op);
    ReceiveMoves(s.book, op);
    TotalFollows(s.book, op, UsersAndFunds);
    forall s' | AdvanceNext(s, i, s') ensures Follows(s, s', i) {
    }
  }

  lemma AdvanceFollows(s: State, i: nat, s': State)
    requires Valid(s.book) && AdvanceNext(s, i, s') && ProcsInv(s)
    ensures Follows(s, s', i)
  {
    hide Apply, Valid, Total, CanDebit, CanFundDebit;
    assert ProcInv(s.procs[i]);
    match s.procs[i].pc
    case Paying => PayFollows(s, i);
    case Drawing(_) => PayFollows(s, i);
    case Filling => FillFollows(s, i);
    case Drawn(_) => FillFollows(s, i);
    case Emptying => EmptyFollows(s, i);
    case Crediting => CreditFollows(s, i);
    case Claiming(_) =>
    case Marking(_) =>
  }

  ghost predicate Accounted(s0: State, s: State) {
    Valid(s.book) && forall m :: Booked(s.book, m) == Booked(s0.book, m) + Sum(Column(s, m)) * MSATS
  }

  lemma AdvanceAccounted(s0: State, s: State, i: nat, s': State)
    requires Accounted(s0, s) && ProcsInv(s) && AdvanceNext(s, i, s')
    ensures Accounted(s0, s')
  {
    hide Valid, Booked, AdvanceNext, Sum;
    AdvanceFollows(s, i, s');
    forall m ensures Booked(s'.book, m) == Booked(s0.book, m) + Sum(Column(s', m)) * MSATS {
      ColumnMoves(s, s', i, m);
    }
  }

  /** Every other step leaves the ledger and the sums alone. */
  lemma OtherColumn(late: bool, s: State, k: Step, s': State, m: Measure)
    requires ProcsInv(s) && Next(late, s, k, s') && !k.Advance?
    ensures s'.book == s.book && Sum(Column(s', m)) == Sum(Column(s, m))
  {
    hide Sum, Cap;
    if k.Authorize? {
      assert Column(s', m) == Column(s, m);
    } else {
      ColumnMoves(s, s', k.i, m);
      assert k.i in s.procs ==> ProcInv(s.procs[k.i]);
    }
  }

  lemma AccountedNext(s0: State, late: bool, s: State, k: Step, s': State)
    requires Accounted(s0, s) && ProcsInv(s) && Next(late, s, k, s')
    ensures Accounted(s0, s')
  {
    hide Valid, Booked, Sum, StartNext, AdvanceNext, ProcsInv;
    if k.Advance? {
      AdvanceAccounted(s0, s, k.i, s');
    } else {
      forall m ensures Booked(s'.book, m) == Booked(s0.book, m) + Sum(Column(s', m)) * MSATS {
        OtherColumn(late, s, k, s', m);
      }
      OtherColumn(late, s, k, s', InAll);
    }
  }

  // ---- Authorizations -------------------------------------------------------

  /** The process has debited the author of authorization x. */
  predicate Drew(p: Proc) { p.cap > 0 && p.paid > 0 }

  predicate Uses(p: Proc) { p.pc.HasClaim() || Drew(p) }

  predicate CapInv(s: State, p: Proc) {
    && (p.pc.Claiming? || p.pc.HasClaim() ==> p.x == p.pc.x && p.cap > 0)
    && (p.cap > 0 ==> p.amount <= p.cap && p.x in s.auths && p.payer == s.auths[p.x].author
                      && p.fund == s.auths[p.x].fund
                      && p.rate > 0.0 && p.cap == Cap(s.auths[p.x].fiat, p.rate))
    && (p.pc.Paying? || p.pc.Filling? || p.pc.Looking? ==> p.cap == 0)
  }

  /** Whoever holds or has used an authorization's claim, the claim stands, and it is one. */
  ghost predicate OnceInv(s: State) {
    && (forall i :: i in s.procs ==> CapInv(s, s.procs[i]))
    && (forall i :: i in s.procs && Uses(s.procs[i]) ==> s.procs[i].x in s.claims)
    && (forall i, j | i in s.procs && j in s.procs && Uses(s.procs[i]) && Uses(s.procs[j]) ::
          s.procs[i].x == s.procs[j].x ==> i == j)
  }

  /** One process moves to p; the claims of the others stand. */
  lemma GotoOnce(s: State, s': State, i: nat, p: Proc)
    requires OnceInv(s) && s'.procs == s.procs[i := p] && s'.auths == s.auths && CapInv(s, p)
    requires forall j :: j in s.procs && j != i && Uses(s.procs[j]) ==> s.procs[j].x in s'.claims
    requires Uses(p) ==> p.x in s'.claims
    requires Uses(p) ==> (i in s.procs && Uses(s.procs[i]) && s.procs[i].x == p.x) || p.x !in s.claims
    ensures OnceInv(s')
  {
    forall j | j in s'.procs ensures CapInv(s', s'.procs[j]) {
      assert j in s.procs ==> CapInv(s, s.procs[j]);
    }
  }

  lemma AuthorizeOnce(s: State, x: nat, auth: Auth, s': State)
    requires OnceInv(s) && StartNext(s, Authorize(x, auth), s')
    ensures OnceInv(s')
  {
    forall j | j in s'.procs ensures CapInv(s', s'.procs[j]) {
      assert CapInv(s, s.procs[j]);
    }
  }

  lemma StartOnce(s: State, k: Step, s': State)
    requires OnceInv(s) && ProcsInv(s) && StartNext(s, k, s')
    ensures OnceInv(s')
  {
    hide Cap, OnceInv;
    if k.Authorize? {
      AuthorizeOnce(s, k.x, k.auth, s');
    } else {
      StartGoto(s, k, s');
      GotoOnce(s, s', k.i, s'.procs[k.i]);
    }
  }

  lemma StartGoto(s: State, k: Step, s': State)
    requires OnceInv(s) && ProcsInv(s) && StartNext(s, k, s') && !k.Authorize?
    ensures s'.procs == s.procs[k.i := s'.procs[k.i]] && s'.auths == s.auths && CapInv(s, s'.procs[k.i])
    ensures forall j :: j in s.procs && j != k.i && Uses(s.procs[j]) ==> s.procs[j].x in s'.claims
    ensures Uses(s'.procs[k.i]) ==>
              && s'.procs[k.i].x in s'.claims && k.i in s.procs && Uses(s.procs[k.i])
              && s.procs[k.i].x == s'.procs[k.i].x
  {
    hide Cap;
    if k.i in s.procs {
      assert ProcInv(s.procs[k.i]) && CapInv(s, s.procs[k.i]);
    }
  }

  lemma AdvanceGoto(s: State, i: nat, s': State)
    requires AdvanceNext(s, i, s') && ProcInv(s.procs[i]) && CapInv(s, s.procs[i])
    requires Uses(s.procs[i]) ==> s.procs[i].x in s.claims
    ensures s'.procs == s.procs[i := s'.procs[i]] && s'.auths == s.auths && CapInv(s, s'.procs[i])
    ensures s.claims <= s'.claims
    ensures var p := s'.procs[i];
            Uses(p) ==> p.x in s'.claims && ((Uses(s.procs[i]) && s.procs[i].x == p.x) || p.x !in s.claims)
  {
    hide Apply, CanDebit, CanFundDebit, Cap;
  }

  lemma AdvanceOnce(s: State, i: nat, s': State)
    requires OnceInv(s) && ProcsInv(s) && AdvanceNext(s, i, s')
    ensures OnceInv(s')
  {
    hide Apply, CanDebit, CanFundDebit, Cap;
    assert ProcInv(s.procs[i]) && CapInv(s, s.procs[i]);
    AdvanceGoto(s, i, s');
    GotoOnce(s, s', i, s'.procs[i]);
  }

  lemma {:induction false} RunInv(late: bool, ss: seq<State>, ks: seq<Step>, n: nat)
    requires Run(late, ss, ks) && n < |ss|
    ensures forall m :: 0 <= m <= n ==>
              ProcsInv(ss[m]) && Accounted(ss[0], ss[m]) && (!late ==> OnceInv(ss[m]))
  {
    hide Booked, Sum, StartNext, AdvanceNext;
    if n == 0 {
      assert forall m :: Column(ss[0], m) == map[];
      SumEmpty();
    } else {
      RunInv(late, ss, ks, n - 1);
      var s, k, s' := ss[n - 1], ks[n - 1], ss[n];
      assert Next(late, s, k, s');
      ProcsNext(late, s, k, s');
      AccountedNext(ss[0], late, s, k, s');
      if !late {
        if k.Advance? {
          AdvanceOnce(s, k.i, s');
        } else {
          StartOnce(s, k, s');
        }
      }
    }
  }

  lemma SumEmpty()
    ensures Sum<nat>(map[]) == 0
  {
  }

  // ---- Whole runs -----------------------------------------------------------

  /**
   Without late failures an authorization debits its author at most once, by at most its fiat
   value at the rate of the day, and only for its own fund.
   */
  lemma AuthorizationOnce(ss: seq<State>, ks: seq<Step>, n: nat, i: nat, j: nat)
    requires Run(false, ss, ks) && n < |ss| && i in ss[n].procs && j in ss[n].procs
    requires Drew(ss[n].procs[i])
    ensures Drew(ss[n].procs[j]) && ss[n].procs[j].x == ss[n].procs[i].x ==> i == j
    ensures var p := ss[n].procs[i];
            && p.x in ss[n].auths && p.payer == ss[n].auths[p.x].author && p.fund == ss[n].auths[p.x].fund
            && p.rate > 0.0 && p.paid <= Cap(ss[n].auths[p.x].fiat, p.rate)
            && p.paid as real - 0.5 <= ss[n].auths[p.x].fiat / p.rate * 100000000.0
  {
    RoundsToNearest(ss[n].auths[ss[n].procs[i].x].fiat / ss[n].procs[i].rate * 100000000.0) by {
      RunInv(false, ss, ks, n);
      assert CapInv(ss[n], ss[n].procs[i]);
    }
    RunInv(false, ss, ks, n);
    assert ProcInv(ss[n].procs[i]) && CapInv(ss[n], ss[n].procs[i]);
  }

  /** The same user and fund, and the same amount unless it is cut to the cap. */
  predicate SameTask(p: Proc, q: Proc) {
    p.user == q.user && p.fund == q.fund && (q.amount == p.amount || (q.amount == q.cap < p.amount))
  }

  lemma TaskKept(late: bool, s: State, k: Step, s': State, i: nat)
    requires Next(late, s, k, s') && i in s.procs
    ensures i in s'.procs
    ensures var p, q := s.procs[i], s'.procs[i];
            SameTask(p, q) && (p.pc.Looking? || (q.amount == p.amount && q.cap == p.cap && !q.pc.Looking?))
  {
    hide Cap, Apply, CanDebit, CanFundDebit, PayOp, GiveOp;
  }

  /**
   A deposit or a take moves what it was asked for, or what the authorization it draws on is
   worth when that is less, each time the whole of it.
   */
  lemma {:induction false} WholeAmounts(late: bool, ss: seq<State>, ks: seq<Step>, i: nat, m: nat, n: nat)
    requires Run(late, ss, ks) && m <= n < |ss| && i in ss[m].procs
    ensures i in ss[n].procs && SameTask(ss[m].procs[i], ss[n].procs[i])
    ensures var q := ss[n].procs[i]; {q.paid, q.put, q.out, q.got} <= {0, q.amount}
    decreases n
  {
    hide StartNext, AdvanceNext;
    if m < n {
      WholeAmounts(late, ss, ks, i, m, n - 1);
      RunInv(late, ss, ks, n - 1);
      assert ProcInv(ss[n - 1].procs[i]);
      TaskKept(late, ss[n - 1], ks[n - 1], ss[n], i);
    }
    RunInv(late, ss, ks, n);
    assert ProcInv(ss[n].procs[i]);
  }

  /** A take that has drawn and goes on to the fund has marked the authorization. */
  predicate Marks(s: State, p: Proc) {
    (p.pc.Emptying? || p.pc.Crediting?) && p.put > 0 ==> p.x in s.marked
  }

  lemma MarksKept(late: bool, s: State, k: Step, s': State, i: nat)
    requires Next(late, s, k, s') && ProcsInv(s) && i in s'.procs && (i in s.procs ==> Marks(s, s.procs[i]))
    ensures Marks(s', s'.procs[i])
  {
    hide Cap, Apply, CanDebit, CanFundDebit;
    assert i in s.procs ==> ProcInv(s.procs[i]);
  }

  lemma {:induction false} MarkedOnceDrawn(late: bool, ss: seq<State>, ks: seq<Step>, n: nat, i: nat)
    requires Run(late, ss, ks) && n < |ss| && i in ss[n].procs
    ensures Marks(ss[n], ss[n].procs[i])
  {
    hide Next, Marks;
    assert n > 0;
    RunInv(late, ss, ks, n - 1);
    if i in ss[n - 1].procs {
      MarkedOnceDrawn(late, ss, ks, n - 1, i);
    }
    MarksKept(late, ss[n - 1], ks[n - 1], ss[n], i);
  }

  ghost function PutIn(s: State, name: string): map<nat, int> {
    map i | i in s.procs :: if s.procs[i].fund == name then s.procs[i].put else 0
  }

  ghost function TakenOut(s: State, name: string): map<nat, int> {
    map i | i in s.procs :: if s.procs[i].fund == name then s.procs[i].got else 0
  }

  lemma NoneAdds(s: State)
    requires ProcsInv(s)
    ensures Sum(Column(s, InAll)) <= 0
  {
    var none: map<nat, int> := map i | i in s.procs :: 0;
    forall i | i in s.procs ensures Column(s, InAll)[i] <= none[i] {
      assert ProcInv(s.procs[i]);
    }
    SumMonotone(Column(s, InAll), none);
    assert forall i :: i in none ==> none[i] == 0;
    SumZero(none);
  }

  lemma TakersAfterPutters(s: State, name: string)
    requires ProcsInv(s)
    ensures Sum(Column(s, InFund(name))) <= Sum(PutIn(s, name)) - Sum(TakenOut(s, name))
  {
    var left := map i | i in s.procs :: PutIn(s, name)[i] - TakenOut(s, name)[i];
    forall i | i in s.procs ensures Column(s, InFund(name))[i] <= left[i] {
      assert ProcInv(s.procs[i]);
    }
    SumDifference(PutIn(s, name), TakenOut(s, name), left);
    SumMonotone(Column(s, InFund(name)), left);
  }

  /**
   Whatever is interleaved and whatever fails: takers never receive more from a fund than was
   in it and was put in, and balances and funds together never grow.
   */
  lemma FundsConserve(late: bool, ss: seq<State>, ks: seq<Step>, n: nat, name: string)
    requires Run(late, ss, ks) && n < |ss|
    ensures Sum(TakenOut(ss[n], name)) * MSATS <= Micro(ss[0].book, Fund(name)) + Sum(PutIn(ss[n], name)) * MSATS
    ensures Total(ss[n].book, UsersAndFunds) <= Total(ss[0].book, UsersAndFunds)
  {
    hide Total, Sum, Column, PutIn, TakenOut, ProcsInv, OnceInv;
    RunInv(late, ss, ks, n);
    var s := ss[n];
    NoneAdds(s);
    TakersAfterPutters(s, name);
    assert Booked(s.book, InFund(name)) >= 0;
    assert Booked(s.book, InAll) == Booked(ss[0].book, InAll) + Sum(Column(s, InAll)) * MSATS;
  }

  /** Some run ends in s. */
  ghost predicate Reachable(late: bool, s: State) { R.Reachable(Init, Steps(late), s) }

  lemma Then(late: bool, s: State, k: Step, s': State)
    requires Reachable(late, s) && Next(late, s, k, s')
    ensures Reachable(late, s')
  {
    R.Then(Init, Steps(late), s, k, s');
  }

  /** One sat authorized at a rate that makes it exactly that. */
  const ONE_SAT := Auth(1, "fund", 1.0)

  const RATE := 100000000.0

  lemma OneSat()
    ensures Cap(ONE_SAT.fiat, RATE) == 1
  {
  }

  const DRAW := Debit(1, Credit(1, Lightning), 0, 1)

  /** A take by user 2 of authorization 0, at stage pc. */
  function Draw(pc: Pc, paid: nat): Proc { Proc(2, "fund", 1, pc, 1, 0, RATE, 1, paid, 0, 0, 0) }

  /** Authorization 0 is there, unmarked, with these claims and takes. */
  function Offered(b: Book, claims: set<nat>, procs: map<nat, Proc>): State {
    State(b, map[0 := ONE_SAT], {}, claims, procs)
  }

  /** The take looks the authorization up, claims it and debits the author. */
  lemma DrawOnce(b: Book, procs: map<nat, Proc>, i: nat)
    requires Reachable(true, Offered(b, {}, procs)) && i !in procs && CanDebit(b, DRAW)
    ensures Reachable(true, Offered(Apply(b, DRAW), {0}, procs[i := Draw(Drawn(0), 1)]))
  {
    hide Reachable, Apply, CanDebit, Cap;
    OneSat();
    var s, t := Offered(b, {}, procs), Offered(b, {}, procs[i := Fresh(2, "fund", 1, Looking)]);
    Then(true, s, Take(i, 2, "fund", 1), t);
    s := Offered(b, {}, procs[i := Draw(Claiming(0), 0)]);
    assert t.procs[i := Draw(Claiming(0), 0)] == s.procs;
    Then(true, t, LookUp(i, 0, RATE), s);
    t := Offered(b, {0}, procs[i := Draw(Drawing(0), 0)]);
    assert s.procs[i := Draw(Drawing(0), 0)] == t.procs && {} + {0} == {0};
    Then(true, s, Advance(i), t);
    s := Offered(Apply(b, DRAW), {0}, procs[i := Draw(Drawn(0), 1)]);
    assert t.procs[i := Draw(Drawn(0), 1)] == s.procs;
    Then(true, t, Advance(i), s);
  }

  /** A ledger in which user 1 has two sats. */
  lemma TwoSats() returns (b: Book)
    ensures Valid(b) && CanDebit(b, DRAW) && CanDebit(Apply(b, DRAW), DRAW)
  {
    hide Sound, Apply;
    HousesValid();
    OpenSound(Houses(), Balance(1));
    b := Open(Houses(), Balance(1));
    var op := Receive(Balance(1), 2, Credit(1, Lightning), 0);
    ApplyValid(b, op);
    ReceiveMoves(b, op);
    b := Apply(b, op);
    ApplyValid(b, DRAW);
    DebitMoves(b, DRAW);
  }

  /** No authorization has been drawn on by two takes. */
  ghost predicate DrawnOnce(s: State) {
    forall i, j | i in s.procs && j in s.procs && Drew(s.procs[i]) && Drew(s.procs[j]) ::
      s.procs[i].x == s.procs[j].x ==> i == j
  }

  /** A late failure lets two takes draw on one authorization. */
  lemma DrawTwice() returns (s: State)
    ensures Reachable(true, s) && !DrawnOnce(s)
  {
    var b := TwoSats();
    s := State(b, map[], {}, {}, map[]);
    R.Starts(Init, Steps(true), s);
    hide Reachable, Apply, CanDebit, Valid;
    Then(true, s, Authorize(0, ONE_SAT), Offered(b, {}, map[]));
    DrawOnce(b, map[], 0);
    b := Apply(b, DRAW);
    Then(true, Offered(b, {0}, map[0 := Draw(Drawn(0), 1)]), FailLate(0),
         Offered(b, {}, map[0 := Draw(Ended, 1)]));
    DrawOnce(b, map[0 := Draw(Ended, 1)], 1);
    s := Offered(Apply(b, DRAW), {0}, map[0 := Draw(Ended, 1)][1 := Draw(Drawn(0), 1)]);
    assert Drew(s.procs[0]) && Drew(s.procs[1]);
  }

  /** In no run is an author debited twice for one authorization, exactly without late failures. */
  lemma AuthorizationOnceExactly(late: bool)
    ensures (forall s | Reachable(late, s) :: DrawnOnce(s)) <==> !late
  {
    if late {
      var s := DrawTwice();
    } else {
      forall s | Reachable(late, s) ensures DrawnOnce(s) {
        var ss: seq<State>, ks: seq<Step> :| Run(late, ss, ks) && ss[|ks|] == s;
        RunInv(late, ss, ks, |ks|);
      }
    }
  }
}
