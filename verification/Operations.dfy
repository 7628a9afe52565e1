/**
 The tb* operations: what each submits to the ledger, as a client that may be overtaken
 by other requests between its reads and its batch.
 */
module Operations {
  import opened Options
  import opened Ledger

  /** What an operation submits, after any accounts it creates. */
  datatype Op =
    | OpenBalance(aid: nat)
    | OpenCredits(uid: nat)
    | Debit(aid: nat, from: Account, covered: nat, total: nat)
    | Receive(target: Account, amount: nat, to: Account, bonus: nat)
    | Confirm(aid: nat, amount: nat)
    | Reverse(uid: nat, total: nat, restored: nat)
    | Refund(uid: nat, amount: nat)
    | FundCredit(name: string, amount: nat)
    | FundDebit(name: string, amount: nat)

  /** The operations tbDebit and tbCredit build, on the accounts they choose. */
  predicate WellFormed(op: Op) {
    && (op.Debit? ==> op.from.Credit?)
    && (op.Receive? ==> (op.target.Balance? || op.target.Pending?) && op.to.Credit?)
  }

  function Batch(op: Op): seq<Transfer> {
    match op
    case OpenBalance(_) => []
    case OpenCredits(_) => []
    case Debit(aid, from, covered, total) =>
      var pay := Transfer(Balance(aid), House(Sats), total * MSATS, false);
      if covered > 0 then [Transfer(from, House(from.On()), covered, true), pay] else [pay]
    case Receive(target, amount, to, bonus) =>
      var give := Transfer(House(Sats), target, amount * MSATS, false);
      if bonus > 0 then [give, Transfer(House(to.On()), to, bonus, false)] else [give]
    case Confirm(aid, amount) =>
      [Transfer(Pending(aid), House(Sats), amount * MSATS, true),
       Transfer(House(Sats), Balance(aid), amount * MSATS, false)]
    case Reverse(uid, total, restored) =>
      var give := Transfer(House(Sats), Balance(uid), total * MSATS, restored > 0);
      if restored > 0 then [give, Transfer(House(Fees(Lightning)), Credit(uid, Lightning), restored * MSATS, false)]
      else [give]
    case Refund(uid, amount) =>
      if amount == 0 then [] else [Transfer(House(Sats), Balance(uid), amount * MSATS, false)]
    case FundCredit(name, amount) => [Transfer(House(Sats), Fund(name), amount * MSATS, false)]
    case FundDebit(name, amount) => [Transfer(Fund(name), House(Sats), amount * MSATS, false)]
  }

  /** The accounts an operation makes sure of first. */
  function Prepared(b: Book, op: Op): Book {
    match op
    case OpenBalance(aid) => Open(Open(b, Balance(aid)), Pending(aid))
    case OpenCredits(uid) => Open(Open(Open(b, Credit(uid, Bitcoin)), Credit(uid, Lightning)), Credit(uid, Liquid))
    case FundCredit(name, _) => Open(b, Fund(name))
    case _ => b
  }

  function Apply(b: Book, op: Op): Book { Submit(Prepared(b, op), Batch(op)).0 }

  function ApplyAll(b: Book, ops: seq<Op>): Book
    decreases ops
  {
    if ops == [] then b else ApplyAll(Apply(b, ops[0]), ops[1..])
  }

  ghost predicate Valid(b: Book) { Sound(b) && Housed(b) }

  /** The ledger initTigerBeetle sets up. */
  function Houses(): Book {
    Open(Open(Open(Open(map[], House(Sats)), House(Fees(Bitcoin))), House(Fees(Lightning))), House(Fees(Liquid)))
  }

  lemma HousesValid()
    ensures Valid(Houses()) && forall a :: a in Houses() ==> a.House?
  {
    hide Sound;
    EmptySound();
    OpenSound(map[], House(Sats));
    var b := Open(map[], House(Sats));
    OpenSound(b, House(Fees(Bitcoin)));
    b := Open(b, House(Fees(Bitcoin)));
    OpenSound(b, House(Fees(Lightning)));
    b := Open(b, House(Fees(Lightning)));
    OpenSound(b, House(Fees(Liquid)));
    forall l ensures House(l) in Houses() {
      match l
      case Sats =>
      case Fees(t) => match t case Bitcoin => case Lightning => case Liquid =>
    }
  }

  lemma OpenKeeps(b: Book, a: Account)
    requires Sound(b)
    ensures Sound(Open(b, a)) && b.Keys <= Open(b, a).Keys && forall x :: Micro(Open(b, a), x) == Micro(b, x)
  {
    hide Sound;
    OpenSound(b, a);
  }

  lemma PreparedSound(b: Book, op: Op)
    requires Sound(b)
    ensures Sound(Prepared(b, op)) && b.Keys <= Prepared(b, op).Keys
    ensures forall a :: Micro(Prepared(b, op), a) == Micro(b, a)
  {
    hide Sound, Open, Micro;
    match op
    case OpenBalance(aid) =>
      OpenKeeps(b, Balance(aid));
      OpenKeeps(Open(b, Balance(aid)), Pending(aid));
    case OpenCredits(uid) =>
      var b1 := Open(b, Credit(uid, Bitcoin));
      OpenKeeps(b, Credit(uid, Bitcoin));
      OpenKeeps(b1, Credit(uid, Lightning));
      OpenKeeps(Open(b1, Credit(uid, Lightning)), Credit(uid, Liquid));
    case FundCredit(name, _) => OpenKeeps(b, Fund(name));
    case _ =>
  }

  lemma ApplyValid(b: Book, op: Op)
    requires Valid(b)
    ensures Valid(Apply(b, op)) && b.Keys <= Apply(b, op).Keys
  {
    hide Sound, Prepared;
    PreparedSound(b, op);
    SubmitSound(Prepared(b, op), Batch(op));
  }

  /** Opening accounts moves nothing, and leaves any that exist as they are. */
  lemma OpensOnly(b: Book, op: Op)
    requires Valid(b) && (op.OpenBalance? || op.OpenCredits?)
    ensures Apply(b, op) == Prepared(b, op) && forall a :: Micro(Apply(b, op), a) == Micro(b, a)
    ensures op.OpenBalance? ==> Balance(op.aid) in Apply(b, op) && Pending(op.aid) in Apply(b, op)
    ensures op.OpenCredits? ==> forall t :: Credit(op.uid, t) in Apply(b, op)
  {
    PreparedSound(b, op);
    if op.OpenCredits? {
      forall t ensures Credit(op.uid, t) in Prepared(b, op) {
        match t case Bitcoin => case Lightning => case Liquid =>
      }
    }
  }

  /** Ledger safety: no sequence of operations overdraws an account or unbalances a ledger. */
  lemma {:induction false} HistoryValid(b: Book, ops: seq<Op>)
    requires Valid(b)
    ensures Valid(ApplyAll(b, ops)) && b.Keys <= ApplyAll(b, ops).Keys
    decreases ops
  {
    if ops != [] {
      ApplyValid(b, ops[0]);
      HistoryValid(Apply(b, ops[0]), ops[1..]);
    }
  }

  // ---- What each operation moves --------------------------------------------

  /** The accounts of users and funds: every house account left out. */
  ghost predicate Untouched(b: Book, b': Book, except: set<Account>) {
    forall a: Account :: !a.House? && a !in except ==> Micro(b', a) == Micro(b, a)
  }

  predicate CanDebit(b: Book, op: Op) requires op.Debit? {
    && Balance(op.aid) in b && op.total * MSATS <= Micro(b, Balance(op.aid))
    && (op.covered > 0 ==> op.from in b && op.covered <= Micro(b, op.from))
  }

  lemma DebitMoves(b: Book, op: Op)
    requires Valid(b) && op.Debit? && WellFormed(op)
    ensures var b' := Apply(b, op);
            if CanDebit(b, op) then
              && Micro(b', Balance(op.aid)) == Micro(b, Balance(op.aid)) - op.total * MSATS
              && Micro(b', op.from) == Micro(b, op.from) - op.covered
              && Untouched(b, b', {Balance(op.aid), op.from})
            else b' == b
    ensures forall i :: 0 <= i < |Batch(op)| ==> Submit(b, Batch(op)).1[i] == CanDebit(b, op)
  {
    hide Submit, Sound;
    var ts := Batch(op);
    assert Sound(b);
    if op.covered > 0 {
      SubmitLinked(b, ts[0], ts[1]);
    } else {
      SubmitOne(b, ts[0]);
    }
  }

  lemma ReceiveMoves(b: Book, op: Op)
    requires Valid(b) && op.Receive? && WellFormed(op)
    ensures var b' := Apply(b, op);
            && Micro(b', op.target) == Micro(b, op.target) + (if op.target in b then op.amount * MSATS else 0)
            && Micro(b', op.to) == Micro(b, op.to) + (if op.to in b then op.bonus else 0)
            && Untouched(b, b', {op.target, op.to})
    ensures Submit(b, Batch(op)).1[0] == (op.target in b)
  {
    hide Submit, Sound;
    var ts := Batch(op);
    SubmitOne(b, ts[0]);
    if op.bonus > 0 {
      SubmitUnlinked(b, ts[0], ts[1]);
      SubmitOne(Submit(b, [ts[0]]).0, ts[1]);
    }
  }

  predicate CanConfirm(b: Book, aid: nat, amount: nat) {
    Pending(aid) in b && Balance(aid) in b && amount * MSATS <= Micro(b, Pending(aid))
  }

  lemma ConfirmMoves(b: Book, aid: nat, amount: nat)
    requires Valid(b)
    ensures var b' := Apply(b, Confirm(aid, amount));
            if CanConfirm(b, aid, amount) then
              && Micro(b', Pending(aid)) == Micro(b, Pending(aid)) - amount * MSATS
              && Micro(b', Balance(aid)) == Micro(b, Balance(aid)) + amount * MSATS
              && Micro(b', House(Sats)) == Micro(b, House(Sats))
              && Untouched(b, b', {Pending(aid), Balance(aid)})
            else b' == b
    ensures Submit(b, Batch(Confirm(aid, amount))).1 == [CanConfirm(b, aid, amount), CanConfirm(b, aid, amount)]
  {
    hide Submit, Sound;
    var ts := Batch(Confirm(aid, amount));
    SubmitLinked(b, ts[0], ts[1]);
  }

  predicate CanReverse(b: Book, uid: nat, restored: nat) {
    Balance(uid) in b && (restored > 0 ==> Credit(uid, Lightning) in b)
  }

  lemma ReverseMoves(b: Book, uid: nat, total: nat, restored: nat)
    requires Valid(b)
    ensures var b' := Apply(b, Reverse(uid, total, restored));
            if CanReverse(b, uid, restored) then
              && Micro(b', Balance(uid)) == Micro(b, Balance(uid)) + total * MSATS
              && Micro(b', Credit(uid, Lightning)) == Micro(b, Credit(uid, Lightning)) + restored * MSATS
              && Untouched(b, b', {Balance(uid), Credit(uid, Lightning)})
            else b' == b
  {
    hide Submit, Sound;
    var ts := Batch(Reverse(uid, total, restored));
    if restored > 0 {
      SubmitLinked(b, ts[0], ts[1]);
    } else {
      SubmitOne(b, ts[0]);
    }
  }

  lemma RefundMoves(b: Book, uid: nat, amount: nat)
    requires Valid(b)
    ensures var b' := Apply(b, Refund(uid, amount));
            && Micro(b', Balance(uid)) == Micro(b, Balance(uid)) + (if Balance(uid) in b then amount * MSATS else 0)
            && Untouched(b, b', {Balance(uid)})
  {
    hide Sound;
    if amount > 0 {
      SubmitOne(b, Batch(Refund(uid, amount))[0]);
    }
  }

  lemma FundCreditMoves(b: Book, name: string, amount: nat)
    requires Valid(b)
    ensures var b' := Apply(b, FundCredit(name, amount));
            && Micro(b', Fund(name)) == Micro(b, Fund(name)) + amount * MSATS
            && Untouched(b, b', {Fund(name)})
  {
    hide Submit, Sound;
    SubmitOne(Open(b, Fund(name)), Batch(FundCredit(name, amount))[0]);
  }

  predicate CanFundDebit(b: Book, name: string, amount: nat) {
    Fund(name) in b && amount * MSATS <= Micro(b, Fund(name))
  }

  lemma FundDebitMoves(b: Book, name: string, amount: nat)
    requires Valid(b)
    ensures var b' := Apply(b, FundDebit(name, amount));
            if CanFundDebit(b, name, amount) then
              && Micro(b', Fund(name)) == Micro(b, Fund(name)) - amount * MSATS
              && Untouched(b, b', {Fund(name)})
            else b' == b
    ensures Submit(b, Batch(FundDebit(name, amount))).1[0] == CanFundDebit(b, name, amount)
  {
    hide Submit, Sound;
    SubmitOne(b, Batch(FundDebit(name, amount))[0]);
  }

  /** The one balance or fund such an operation touches. */
  function Touches(op: Op): Account
    requires op.Debit? || op.Receive? || op.FundCredit? || op.FundDebit?
  {
    match op
    case Debit(aid, _, _, _) => Balance(aid)
    case Receive(target, _, _, _) => target
    case FundCredit(name, _) => Fund(name)
    case FundDebit(name, _) => Fund(name)
  }

  lemma TotalFollows(b: Book, op: Op, g: Group)
    requires Valid(b) && WellFormed(op) && !g.OnLedger?
    requires op.Debit? || op.Receive? || op.FundCredit? || op.FundDebit?
    ensures Total(Apply(b, op), g) ==
            Total(b, g) + if g.Has(Touches(op)) then Micro(Apply(b, op), Touches(op)) - Micro(b, Touches(op)) else 0
  {
    hide Submit, Sound, Total, CanDebit, CanFundDebit;
    var p, b' := Prepared(b, op), Apply(b, op);
    match op {
      case Debit(_, _, _, _) => DebitMoves(b, op);
      case Receive(_, _, _, _) => ReceiveMoves(b, op);
      case FundCredit(name, amount) =>
        FundCreditMoves(b, name, amount);
        OpenTotal(b, Fund(name), g);
        OpenSound(b, Fund(name));
      case FundDebit(name, amount) => FundDebitMoves(b, name, amount);
    }
    SubmitSound(p, Batch(op));
    forall x | x in p && g.Has(x) && x != Touches(op) ensures b'[x].Net() == p[x].Net() {
      assert Micro(b', x) == Micro(b, x);
    }
    TotalChanges(p, b', g, Touches(op));
  }

  // ---- Whole histories ------------------------------------------------------

  /** What an operation pends for aid, and what it confirms. */
  function Pends(b: Book, op: Op, aid: nat): nat {
    if op.Receive? && op.target == Pending(aid) && op.target in b then op.amount else 0
  }

  function Confirms(b: Book, op: Op, aid: nat): nat {
    if op.Confirm? && op.aid == aid && CanConfirm(b, aid, op.amount) then op.amount else 0
  }

  function PendedAll(b: Book, ops: seq<Op>, aid: nat): nat
    decreases ops
  {
    if ops == [] then 0 else Pends(b, ops[0], aid) + PendedAll(Apply(b, ops[0]), ops[1..], aid)
  }

  function ConfirmedAll(b: Book, ops: seq<Op>, aid: nat): nat
    decreases ops
  {
    if ops == [] then 0 else Confirms(b, ops[0], aid) + ConfirmedAll(Apply(b, ops[0]), ops[1..], aid)
  }

  lemma PendingMoves(b: Book, op: Op, aid: nat)
    requires Valid(b) && WellFormed(op)
    ensures Micro(Apply(b, op), Pending(aid)) ==
            Micro(b, Pending(aid)) + (Pends(b, op, aid) - Confirms(b, op, aid)) * MSATS
  {
    hide Apply, Valid, CanDebit, CanReverse, CanFundDebit;
    match op
    case OpenBalance(_) => OpensOnly(b, op);
    case OpenCredits(_) => OpensOnly(b, op);
    case Debit(_, _, _, _) => DebitMoves(b, op);
    case Receive(_, _, _, _) => ReceiveMoves(b, op);
    case Confirm(a, amount) => ConfirmMoves(b, a, amount);
    case Reverse(uid, total, restored) => ReverseMoves(b, uid, total, restored);
    case Refund(uid, amount) => RefundMoves(b, uid, amount);
    case FundCredit(name, amount) => FundCreditMoves(b, name, amount);
    case FundDebit(name, amount) => FundDebitMoves(b, name, amount);
  }

  lemma {:induction false} PendingBalances(b: Book, ops: seq<Op>, aid: nat)
    requires Valid(b) && forall i :: 0 <= i < |ops| ==> WellFormed(ops[i])
    ensures Micro(ApplyAll(b, ops), Pending(aid)) ==
            Micro(b, Pending(aid)) + (PendedAll(b, ops, aid) - ConfirmedAll(b, ops, aid)) * MSATS
    decreases ops
  {
    hide Apply, Valid, Pends, Confirms;
    if ops != [] {
      PendingMoves(b, ops[0], aid);
      ApplyValid(b, ops[0]);
      PendingBalances(Apply(b, ops[0]), ops[1..], aid);
    }
  }

  /**
   However confirms are repeated and interleaved with everything else, they never move more
   than was pended.
   */
  lemma NeverOverConfirmed(b: Book, ops: seq<Op>, aid: nat)
    requires Valid(b) && Micro(b, Pending(aid)) == 0
    requires forall i :: 0 <= i < |ops| ==> WellFormed(ops[i])
    ensures ConfirmedAll(b, ops, aid) <= PendedAll(b, ops, aid)
  {
    PendingBalances(b, ops, aid);
    HistoryValid(b, ops);
    assert Micro(ApplyAll(b, ops), Pending(aid)) >= 0;
  }

  /**
   An on-chain deposit pends what arrived but confirms the record's amount, which leaves the
   invoice's tip out: everything pended is confirmed exactly when there is no tip.
   */
  lemma DepositConfirmedExactly(b: Book, aid: nat, to: Account, amount: nat, tip: nat, bonus: nat)
    requires Valid(b) && Pending(aid) in b && Balance(aid) in b && to.Credit? && tip <= amount
    ensures var b1 := Apply(b, Receive(Pending(aid), amount, to, bonus));
            var b2 := Apply(b1, Confirm(aid, amount - tip));
            && Micro(b2, Balance(aid)) == Micro(b, Balance(aid)) + (amount - tip) * MSATS
            && (Micro(b2, Pending(aid)) == Micro(b, Pending(aid)) <==> tip == 0)
  {
    hide Apply, Sound;
    var op := Receive(Pending(aid), amount, to, bonus);
    NotOverdrawn(b, Pending(aid));
    ReceiveMoves(b, op);
    ApplyValid(b, op);
    var b1 := Apply(b, op);
    assert Micro(b1, Pending(aid)) == Micro(b, Pending(aid)) + amount * MSATS;
    assert CanConfirm(b1, aid, amount - tip);
    ConfirmMoves(b1, aid, amount - tip);
  }

  // ---- The client -----------------------------------------------------------

  /** Math.round. */
  function Round(x: real): int { (x + 0.5).Floor }

  /** tbDebit: our fee once the fee credit has covered a part of it. */
  function Reduced(ourfee: nat, covered: int): nat
    requires covered <= ourfee * MSATS
  {
    (ourfee * MSATS - covered) / MSATS
  }

  /** tbCredit: the fee credit a receipt earns, in microsats. */
  function FeeCredit(amount: nat, t: Option<CreditType>, rate: real, noFreeTier: bool): (bonus: nat)
    requires rate >= 0.0
  {
    if t.None? || rate == 0.0 || (t.value.Lightning? && noFreeTier) then 0
    else
      var x := (amount * MSATS) as real * rate;
      assert x >= 0.0;
      Round(x)
  }

  /** Math.round goes to the nearest integer, upwards from the middle. */
  lemma RoundsToNearest(x: real)
    ensures Round(x) as real - 0.5 <= x < Round(x) as real + 0.5
  {
  }

  /**
   The fee credit is the receipt's share at the rate, to the nearest microsat; a lightning
   receipt of an account that lost its free tier earns none, any other is not affected.
   */
  lemma EarnsItsShare(amount: nat, t: Option<CreditType>, rate: real, noFreeTier: bool)
    requires rate >= 0.0
    ensures t.None? || rate == 0.0 || (t == Some(Lightning) && noFreeTier) ==>
              FeeCredit(amount, t, rate, noFreeTier) == 0
    ensures t.Some? && !(t == Some(Lightning) && noFreeTier) ==>
              var bonus := FeeCredit(amount, t, rate, noFreeTier) as real;
              bonus - 0.5 <= (amount * 1_000_000) as real * rate < bonus + 0.5
  {
    if t.Some? && rate > 0.0 {
      RoundsToNearest((amount * MSATS) as real * rate);
    }
  }

  /** tbDebit falls back to the zero UUID's fee credit for a sub-account. */
  const ZERO_UUID := 0

  function CreditOf(aid: nat, uid: nat, t: CreditType): Account {
    Credit(if uid == aid then uid else ZERO_UUID, t)
  }

  /** The part of our fee the fee credit pays for, as tbDebit saw the credit. */
  function Covered(seen: Book, aid: nat, uid: nat, t: Option<CreditType>, ourfee: nat): int {
    if ourfee == 0 || t.None? then 0
    else
      var credit := Micro(seen, CreditOf(aid, uid, t.value));
      if credit < ourfee * MSATS then credit else ourfee * MSATS
  }

  /** What a debit moves: the total from the balance and the covered part from the fee credit. */
  ghost predicate Debited(b: Book, b': Book, aid: nat, uid: nat, t: Option<CreditType>, covered: int, total: nat) {
    && Micro(b', Balance(aid)) == Micro(b, Balance(aid)) - total
    && (t.Some? ==> Micro(b', CreditOf(aid, uid, t.value)) == Micro(b, CreditOf(aid, uid, t.value)) - covered)
    && Untouched(b, b', {Balance(aid)} + if t.Some? then {CreditOf(aid, uid, t.value)} else {})
  }

  /** Whose fee credit that is: the user's own for the user's own account, else the zero UUID's. */
  lemma DebitedWhose(b: Book, b': Book, aid: nat, uid: nat, t: CreditType, covered: int, total: nat)
    requires Debited(b, b', aid, uid, Some(t), covered, total)
    ensures uid == aid ==>
              && Micro(b', Credit(uid, t)) == Micro(b, Credit(uid, t)) - covered
              && Untouched(b, b', {Balance(aid), Credit(uid, t)})
    ensures uid != aid ==>
              && Micro(b', Credit(ZERO_UUID, t)) == Micro(b, Credit(ZERO_UUID, t)) - covered
              && Untouched(b, b', {Balance(aid), Credit(ZERO_UUID, t)})
  {
  }

  lemma CoveredRange(seen: Book, aid: nat, uid: nat, t: Option<CreditType>, ourfee: nat)
    requires Sound(seen)
    ensures 0 <= Covered(seen, aid, uid, t, ourfee) <= ourfee * MSATS
    ensures Covered(seen, aid, uid, t, ourfee) > 0 ==>
              && t.Some? && CreditOf(aid, uid, t.value) in seen
              && Covered(seen, aid, uid, t, ourfee) <= Micro(seen, CreditOf(aid, uid, t.value))
  {
  }

  lemma DebitedExactly(b: Book, aid: nat, uid: nat, t: Option<CreditType>, from: Account, covered: nat, total: nat)
    requires Valid(b) && from.Credit? && CanDebit(b, Debit(aid, from, covered, total))
    requires if t.Some? then from == CreditOf(aid, uid, t.value) else covered == 0
    ensures Debited(b, Apply(b, Debit(aid, from, covered, total)), aid, uid, t, covered, total * MSATS)
  {
    hide Sound, Submit, Batch;
    DebitMoves(b, Debit(aid, from, covered, total));
  }

  /** The linked flags: all but the last transfer. */
  method Linked(unlinked: seq<Transfer>) returns (ts: seq<Transfer>)
    requires unlinked != []
    ensures |ts| == |unlinked|
    ensures forall j :: 0 <= j < |ts| ==> ts[j] == unlinked[j].(linked := j < |ts| - 1 || unlinked[j].linked)
  {
    ts := unlinked;
    for i := 0 to |ts| - 1
      invariant |ts| == |unlinked|
      invariant forall j :: 0 <= j < |ts| ==> ts[j] == unlinked[j].(linked := j < i || unlinked[j].linked)
    {
      ts := ts[i := ts[i].(linked := true)];
    }
  }

  class Client {
    var book: Book

    /** initTigerBeetle. */
    constructor ()
      ensures Valid(book) && forall a :: a in book ==> a.House?
    {
      HousesValid();
      book := Houses();
    }

    method CreateBalanceAccount(aid: nat)
      requires Valid(book)
      modifies this
      ensures Valid(book) && book.Keys == old(book.Keys) + {Balance(aid), Pending(aid)}
      ensures forall a :: Micro(book, a) == old(Micro(book, a))
    {
      PreparedSound(book, OpenBalance(aid));
      book := Open(Open(book, Balance(aid)), Pending(aid));
    }

    method CreateCreditAccounts(uid: nat)
      requires Valid(book)
      modifies this
      ensures Valid(book)
      ensures book.Keys == old(book.Keys) + {Credit(uid, Bitcoin), Credit(uid, Lightning), Credit(uid, Liquid)}
      ensures forall a :: Micro(book, a) == old(Micro(book, a))
    {
      PreparedSound(book, OpenCredits(uid));
      book := Open(Open(Open(book, Credit(uid, Bitcoin)), Credit(uid, Lightning)), Credit(uid, Liquid));
    }

    method CreateTransfers(ts: seq<Transfer>) returns (ok: seq<bool>)
      modifies this
      ensures (book, ok) == Submit(old(book), ts)
    {
      var r := Submit(book, ts);
      book, ok := r.0, r.1;
    }

    /** Other requests get their operations in while this one awaits. */
    method Await(ops: seq<Op>)
      requires Valid(book)
      modifies this
      ensures book == ApplyAll(old(book), ops) && Valid(book)
    {
      HistoryValid(book, ops);
      book := ApplyAll(book, ops);
    }

    /** The batch tbDebit builds: consume the fee credit if any, then debit the balance. */
    method SubmitDebit(aid: nat, from: Account, covered: nat, total: nat) returns (posted: bool)
      requires Valid(book) && from.Credit?
      modifies this
      ensures Valid(book) && book == Apply(old(book), Debit(aid, from, covered, total))
      ensures posted == CanDebit(old(book), Debit(aid, from, covered, total))
      ensures !posted ==> book == old(book)
    {
      hide Sound, Submit, Untouched;
      var ts: seq<Transfer> := [];
      if covered > 0 {
        ts := ts + [Transfer(from, House(from.On()), covered, false)];
      }
      ts := ts + [Transfer(Balance(aid), House(Sats), total * MSATS, false)];
      ts := Linked(ts);
      assert ts == Batch(Debit(aid, from, covered, total));
      ApplyValid(book, Debit(aid, from, covered, total));
      DebitMoves(book, Debit(aid, from, covered, total));
      var ok := CreateTransfers(ts);
      assert ok[0] == CanDebit(old(book), Debit(aid, from, covered, total));
      posted := forall i :: 0 <= i < |ok| ==> ok[i];
    }

    /**
     tbDebit: our reduced fee, or None for the insufficient-funds error. first and second
     are what others do before and after it has read the balance.
     */
    method TbDebit(aid: nat, uid: nat, t: Option<CreditType>, amount: nat, tip: nat, fee: nat, ourfee: nat,
                   frozen: nat, first: seq<Op>, second: seq<Op>) returns (r: Option<nat>)
      requires Valid(book)
      modifies this
      ensures Valid(book)
      ensures r.None? ==> book == ApplyAll(ApplyAll(old(book), first), second)
      ensures r.Some? ==>
                var covered := Covered(old(book), aid, uid, t, ourfee);
                var seen := ApplyAll(old(book), first);
                var total := amount + tip + fee + r.value;
                && covered >= 0 && r.value * MSATS <= ourfee * MSATS - covered < (r.value + 1) * MSATS
                && (total + frozen) * MSATS <= Micro(seen, Balance(aid))
                && Debited(ApplyAll(seen, second), book, aid, uid, t, covered, total * MSATS)
      ensures r.Some? && t.Some? && uid == aid ==>
                var mid := ApplyAll(ApplyAll(old(book), first), second);
                var read := Micro(old(book), Credit(uid, t.value));
                var used := if read < ourfee * MSATS then read else ourfee * MSATS;
                && Micro(book, Credit(uid, t.value)) == Micro(mid, Credit(uid, t.value)) - used
                && r.value == (ourfee * MSATS - used) / MSATS
                && Untouched(mid, book, {Balance(aid), Credit(uid, t.value)})
      ensures r.Some? && t.Some? && uid != aid ==>
                var mid := ApplyAll(ApplyAll(old(book), first), second);
                var read := Micro(old(book), Credit(ZERO_UUID, t.value));
                var used := if read < ourfee * MSATS then read else ourfee * MSATS;
                && Micro(book, Credit(ZERO_UUID, t.value)) == Micro(mid, Credit(ZERO_UUID, t.value)) - used
                && r.value == (ourfee * MSATS - used) / MSATS
                && Untouched(mid, book, {Balance(aid), Credit(ZERO_UUID, t.value)})
      ensures r.Some? && t.None? ==> r.value == ourfee
      ensures first == second == [] ==>
                var charged := Reduced(ourfee, Covered(old(book), aid, uid, t, ourfee));
                r.Some? <==> Balance(aid) in old(book) &&
                             (amount + tip + fee + charged + frozen) * MSATS <= Micro(old(book), Balance(aid))
    {
      hide Sound, Submit, Batch, Untouched;
      var from := if t.Some? then CreditOf(aid, uid, t.value) else Credit(ZERO_UUID, Lightning);
      var covered := 0;
      var charged := ourfee;
      if ourfee > 0 && t.Some? {
        var credit := Micro(book, from);
        covered := if credit < ourfee * MSATS then credit else ourfee * MSATS;
        charged := Reduced(ourfee, covered);
      }
      CoveredRange(book, aid, uid, t, ourfee);
      NotOverdrawn(book, from);
      assert covered == Covered(book, aid, uid, t, ourfee);
      assert charged == Reduced(ourfee, covered);
      ghost var start := book;
      Await(first);
      var total := amount + tip + fee + charged;
      var current := Micro(book, Balance(aid));
      if current - frozen * MSATS < total * MSATS {
        Await(second);
        return None;
      }
      Await(second);
      ghost var now := book;
      var ok := SubmitDebit(aid, from, covered, total);
      if !ok {
        return None;
      }
      DebitedExactly(now, aid, uid, t, from, covered, total);
      if t.Some? {
        DebitedWhose(now, book, aid, uid, t.value, covered, total * MSATS);
      }
      return Some(charged);
    }

    /**
     tbCredit; rate is the configured fee rate of t. The two transfers are not linked, so a
     throw says nothing about the fee credit.
     */
    method TbCredit(aid: nat, uid: nat, t: Option<CreditType>, amount: nat, rate: real, noFreeTier: bool, pending: bool)
      returns (threw: bool)
      requires Valid(book) && rate >= 0.0
      modifies this
      ensures Valid(book)
      ensures var target := if pending then Pending(aid) else Balance(aid);
              && threw == (target !in old(book))
              && Micro(book, target) == old(Micro(book, target)) + (if threw then 0 else amount * MSATS)
              && Untouched(old(book), book, {target} + if t.Some? then {Credit(uid, t.value)} else {})
      ensures t.Some? ==>
                Micro(book, Credit(uid, t.value)) ==
                old(Micro(book, Credit(uid, t.value))) +
                if Credit(uid, t.value) in old(book) then FeeCredit(amount, t, rate, noFreeTier) else 0
    {
      hide Sound, Submit, FeeCredit;
      var target := if pending then Pending(aid) else Balance(aid);
      var ts := [Transfer(House(Sats), target, amount * MSATS, false)];
      var bonus := FeeCredit(amount, t, rate, noFreeTier);
      if t.Some? && bonus > 0 {
        ts := ts + [Transfer(House(Fees(t.value)), Credit(uid, t.value), bonus, false)];
      }
      ghost var op := Receive(target, amount, Credit(uid, if t.Some? then t.value else Lightning),
                              if t.Some? then bonus else 0);
      assert ts == Batch(op);
      ApplyValid(book, op);
      ReceiveMoves(book, op);
      var ok := CreateTransfers(ts);
      return !ok[0];
    }

    /** tbConfirm: pending to balance through the house, or nothing. */
    method TbConfirm(aid: nat, amount: nat)
      requires Valid(book)
      modifies this
      ensures Valid(book)
      ensures if CanConfirm(old(book), aid, amount) then
                && Micro(book, Pending(aid)) == old(Micro(book, Pending(aid))) - amount * MSATS
                && Micro(book, Balance(aid)) == old(Micro(book, Balance(aid))) + amount * MSATS
                && Micro(book, House(Sats)) == old(Micro(book, House(Sats)))
                && Untouched(old(book), book, {Pending(aid), Balance(aid)})
              else book == old(book)
    {
      ApplyValid(book, Confirm(aid, amount));
      ConfirmMoves(book, aid, amount);
      var ok := CreateTransfers([Transfer(Pending(aid), House(Sats), amount * MSATS, true),
                                 Transfer(House(Sats), Balance(aid), amount * MSATS, false)]);
    }

    /** tbReverse: a fee credit of zero or less is left out. */
    method TbReverse(uid: nat, total: nat, creditAmount: int)
      requires Valid(book)
      modifies this
      ensures Valid(book)
      ensures var restored := if creditAmount > 0 then creditAmount else 0;
              if CanReverse(old(book), uid, restored) then
                && Micro(book, Balance(uid)) == old(Micro(book, Balance(uid))) + total * MSATS
                && Micro(book, Credit(uid, Lightning)) ==
                   old(Micro(book, Credit(uid, Lightning))) + restored * MSATS
                && Untouched(old(book), book, {Balance(uid), Credit(uid, Lightning)})
              else book == old(book)
    {
      hide Sound, Submit;
      var ts := [Transfer(House(Sats), Balance(uid), total * MSATS, creditAmount > 0)];
      if creditAmount > 0 {
        ts := ts + [Transfer(House(Fees(Lightning)), Credit(uid, Lightning), creditAmount * MSATS, false)];
      }
      ghost var restored := if creditAmount > 0 then creditAmount else 0;
      assert ts == Batch(Reverse(uid, total, restored));
      ApplyValid(book, Reverse(uid, total, restored));
      ReverseMoves(book, uid, total, restored);
      var ok := CreateTransfers(ts);
    }

    method TbRefund(uid: nat, amount: int)
      requires Valid(book)
      modifies this
      ensures Valid(book)
      ensures Micro(book, Balance(uid)) ==
              old(Micro(book, Balance(uid))) +
              (if amount > 0 && Balance(uid) in old(book) then amount * MSATS else 0)
      ensures Untouched(old(book), book, {Balance(uid)})
    {
      if amount <= 0 { return; }
      ApplyValid(book, Refund(uid, amount));
      RefundMoves(book, uid, amount);
      var ok := CreateTransfers([Transfer(House(Sats), Balance(uid), amount * MSATS, false)]);
    }

    method TbFundCredit(name: string, amount: nat)
      requires Valid(book)
      modifies this
      ensures Valid(book) && Fund(name) in book
      ensures Micro(book, Fund(name)) == old(Micro(book, Fund(name))) + amount * MSATS
      ensures Untouched(old(book), book, {Fund(name)})
    {
      ApplyValid(book, FundCredit(name, amount));
      FundCreditMoves(book, name, amount);
      SubmitSound(Prepared(book, FundCredit(name, amount)), Batch(FundCredit(name, amount))) by {
        OpenSound(book, Fund(name));
      }
      book := Open(book, Fund(name));
      var ok := CreateTransfers([Transfer(House(Sats), Fund(name), amount * MSATS, false)]);
    }

    method TbFundDebit(name: string, amount: nat) returns (paid: bool)
      requires Valid(book)
      modifies this
      ensures Valid(book) && paid == CanFundDebit(old(book), name, amount)
      ensures Micro(book, Fund(name)) == old(Micro(book, Fund(name))) - (if paid then amount * MSATS else 0)
      ensures Untouched(old(book), book, {Fund(name)})
    {
      ApplyValid(book, FundDebit(name, amount));
      FundDebitMoves(book, name, amount);
      var ok := CreateTransfers([Transfer(Fund(name), House(Sats), amount * MSATS, false)]);
      return ok[0];
    }
  }

  /**
   A tbCredit that throws because its receipt is refused has moved nothing exactly when there
   was no fee credit to give or no account to give it to; otherwise the fee credit is given for
   a receipt that was not.
   */
  lemma ThrownCreditExactly(b: Book, op: Op)
    requires Valid(b) && op.Receive? && WellFormed(op)
    requires !Submit(b, Batch(op)).1[0]
    ensures Apply(b, op) == b <==> op.bonus == 0 || op.to !in b
  {
    hide Sound, Submit;
    ReceiveMoves(b, op);
    if op.bonus == 0 || op.to !in b {
      ReceiveRefused(b, op);
    }
  }

  /** A refused receipt whose fee credit is given all the same. */
  lemma ThrownCreditGives() returns (b: Book, op: Op)
    ensures Valid(b) && op.Receive? && WellFormed(op) && !Submit(b, Batch(op)).1[0]
    ensures Micro(Apply(b, op), op.target) == Micro(b, op.target)
    ensures Micro(Apply(b, op), op.to) == Micro(b, op.to) + op.bonus > Micro(b, op.to)
  {
    hide Sound, Submit, Apply;
    HousesValid();
    OpenSound(Houses(), Credit(1, Lightning));
    b := Open(Houses(), Credit(1, Lightning));
    op := Receive(Balance(1), 1, Credit(1, Lightning), 1);
    ReceiveMoves(b, op);
  }

  lemma ReceiveRefused(b: Book, op: Op)
    requires Valid(b) && op.Receive? && op.target !in b && (op.to !in b || op.bonus == 0)
    ensures Apply(b, op) == b
  {
    hide Sound, Submit;
    var ts := Batch(op);
    SubmitOne(b, ts[0]);
    if op.bonus > 0 {
      SubmitUnlinked(b, ts[0], ts[1]);
      SubmitOne(b, ts[1]);
    }
  }
}
