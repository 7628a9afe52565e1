/**
 The double-entry ledger: TigerBeetle's createTransfers as a batch interpreter, and each
 tb* operation as a program over it. Amounts are in microsats.

 Accounts are abstract and distinct. A user, pending, fee-credit or fund account is
 created with debits_must_not_exceed_credits; a house account has no limit.
 */
module Ledger {
  import opened Options
  import opened Sums

  const MSATS := 1_000_000

  datatype CreditType = Bitcoin | Lightning | Liquid

  datatype LedgerId = Sats | Fees(t: CreditType)

  datatype Account =
    | House(of: LedgerId)
    | Balance(aid: nat)
    | Pending(aid: nat)
    | Credit(uid: nat, t: CreditType)
    | Fund(name: string)
  {
    function On(): LedgerId {
      match this
      case House(l) => l
      case Credit(_, t) => Fees(t)
      case _ => Sats
    }

    predicate Limited() { !House? }
  }

  datatype Posted = Posted(debits: nat, credits: nat) {
    function Net(): int { credits - debits }
  }

  type Book = map<Account, Posted>

  /** accountBalanceMicro: zero for an account that does not exist. */
  function Micro(b: Book, a: Account): int { if a in b then b[a].Net() else 0 }

  /** getBalance: whole sats, rounded down. */
  function WholeSats(b: Book, a: Account): int { Micro(b, a) / MSATS }

  ghost predicate Housed(b: Book) { forall l :: House(l) in b }

  // ---- createTransfers ------------------------------------------------------

  datatype Transfer = Transfer(debit: Account, credit: Account, amount: nat, linked: bool)

  /** One transfer, or None when the ledger refuses it. */
  function Post(b: Book, t: Transfer): Option<Book> {
    if t.debit !in b || t.credit !in b || t.debit == t.credit || t.debit.On() != t.credit.On() then None
    else
      var d, c := b[t.debit], b[t.credit];
      if t.debit.Limited() && d.debits + t.amount > d.credits then None
      else Some(b[t.debit := d.(debits := d.debits + t.amount)][t.credit := c.(credits := c.credits + t.amount)])
  }

  function PostAll(b: Book, ts: seq<Transfer>): Option<Book> {
    if ts == [] then Some(b)
    else match Post(b, ts[0])
      case None => None
      case Some(b') => PostAll(b', ts[1..])
  }

  /** The length of the first chain: the linked transfers and the one that closes it. */
  function Chain(ts: seq<Transfer>): (n: nat)
    ensures n <= |ts| && (ts != [] ==> n > 0)
  {
    if ts == [] then 0 else if ts[0].linked then 1 + Chain(ts[1..]) else 1
  }

  /** The new book, and which transfers were posted: a chain is posted whole or not at all. */
  function Submit(b: Book, ts: seq<Transfer>): (r: (Book, seq<bool>))
    ensures |r.1| == |ts|
    decreases |ts|
  {
    if ts == [] then (b, [])
    else
      var n := Chain(ts);
      var posted := if ts[n - 1].linked then None else PostAll(b, ts[..n]);
      var rest := Submit(if posted.Some? then posted.value else b, ts[n..]);
      (rest.0, seq(n, i => posted.Some?) + rest.1)
  }

  /** A batch that is one chain. */
  predicate OneChain(ts: seq<Transfer>) {
    ts != [] && forall i :: 0 <= i < |ts| ==> ts[i].linked == (i < |ts| - 1)
  }

  lemma {:induction false} ChainLength(ts: seq<Transfer>)
    requires OneChain(ts)
    ensures Chain(ts) == |ts|
  {
    if |ts| > 1 {
      ChainLength(ts[1..]);
    }
  }

  /** A linked chain is all-or-nothing. */
  lemma AllOrNothing(b: Book, ts: seq<Transfer>)
    requires OneChain(ts)
    ensures var (b', ok) := Submit(b, ts);
            || (PostAll(b, ts) == Some(b') && forall i :: 0 <= i < |ts| ==> ok[i])
            || (PostAll(b, ts) == None && b' == b && forall i :: 0 <= i < |ts| ==> !ok[i])
  {
    ChainLength(ts);
    assert ts[..|ts|] == ts && ts[|ts|..] == [];
  }

  // ---- What every batch keeps -----------------------------------------------

  /** The accounts of one ledger, the users' balances, or those and the funds. */
  datatype Group = OnLedger(l: LedgerId) | Users | UsersAndFunds {
    predicate Has(a: Account) {
      match this
      case OnLedger(l) => a.On() == l
      case Users => a.Balance?
      case UsersAndFunds => a.Balance? || a.Fund?
    }
  }

  ghost function Nets(b: Book, g: Group): map<Account, int> {
    map a | a in b :: if g.Has(a) then b[a].Net() else 0
  }

  /** The signed total of a group of accounts. */
  ghost function Total(b: Book, g: Group): int { Sum(Nets(b, g)) }

  /** When a is the only account of the group to change, the total changes with it. */
  lemma TotalChanges(b: Book, b': Book, g: Group, a: Account)
    requires b'.Keys == b.Keys && forall x :: x in b && g.Has(x) && x != a ==> b'[x].Net() == b[x].Net()
    ensures Total(b', g) == Total(b, g) + if g.Has(a) then Micro(b', a) - Micro(b, a) else 0
  {
    if a in b {
      SumUpdate(Nets(b, g), a, Nets(b', g)[a]);
      assert Nets(b, g)[a := Nets(b', g)[a]] == Nets(b', g);
    } else {
      assert Nets(b, g) == Nets(b', g);
    }
  }

  /** No limited account is overdrawn and every ledger balances. */
  ghost predicate Sound(b: Book) {
    && (forall a :: a in b && a.Limited() ==> b[a].debits <= b[a].credits)
    && (forall l :: Total(b, OnLedger(l)) == 0)
  }

  lemma NotOverdrawn(b: Book, a: Account)
    requires Sound(b) && a.Limited()
    ensures Micro(b, a) >= 0
  {
  }

  lemma EmptySound()
    ensures Sound(map[])
  {
  }

  lemma PostSound(b: Book, t: Transfer)
    requires Sound(b) && Post(b, t).Some?
    ensures Sound(Post(b, t).value)
  {
    var d, c := b[t.debit], b[t.credit];
    var b1 := b[t.debit := d.(debits := d.debits + t.amount)];
    forall l ensures Total(Post(b, t).value, OnLedger(l)) == 0 {
      TotalChanges(b, b1, OnLedger(l), t.debit);
      TotalChanges(b1, Post(b, t).value, OnLedger(l), t.credit);
    }
  }

  lemma {:induction false} PostAllSound(b: Book, ts: seq<Transfer>)
    requires Sound(b) && PostAll(b, ts).Some?
    ensures Sound(PostAll(b, ts).value) && PostAll(b, ts).value.Keys == b.Keys
    decreases ts
  {
    if ts != [] {
      PostSound(b, ts[0]);
      PostAllSound(Post(b, ts[0]).value, ts[1..]);
    }
  }

  /** Ledger safety, for any batch whatever. */
  lemma {:induction false} SubmitSound(b: Book, ts: seq<Transfer>)
    requires Sound(b)
    ensures Sound(Submit(b, ts).0) && Submit(b, ts).0.Keys == b.Keys
    decreases |ts|
  {
    if ts != [] {
      var n := Chain(ts);
      if !ts[n - 1].linked && PostAll(b, ts[..n]).Some? {
        PostAllSound(b, ts[..n]);
        SubmitSound(PostAll(b, ts[..n]).value, ts[n..]);
      } else {
        SubmitSound(b, ts[n..]);
      }
    }
  }

  /** A new account has nothing posted. */
  function Open(b: Book, a: Account): Book { if a in b then b else b[a := Posted(0, 0)] }

  lemma OpenTotal(b: Book, a: Account, g: Group)
    ensures Total(Open(b, a), g) == Total(b, g)
  {
    if a !in b {
      SumUpdate(Nets(b, g), a, 0);
      assert Nets(b, g)[a := 0] == Nets(Open(b, a), g);
    }
  }

  lemma OpenSound(b: Book, a: Account)
    requires Sound(b)
    ensures Sound(Open(b, a))
  {
    hide Total;
    forall l ensures Total(Open(b, a), OnLedger(l)) == 0 {
      OpenTotal(b, a, OnLedger(l));
    }
  }

  // ---- What each posted transfer moves --------------------------------------

  /** b' is b after amount has gone from one account to another. */
  ghost predicate Moves(b: Book, b': Book, from: Account, to: Account, amount: nat) {
    && b'.Keys == b.Keys
    && Micro(b', from) == Micro(b, from) - amount
    && Micro(b', to) == Micro(b, to) + amount
    && forall a :: a != from && a != to ==> Micro(b', a) == Micro(b, a)
  }

  lemma SubmitOne(b: Book, t: Transfer)
    requires !t.linked
    ensures var (b', ok) := Submit(b, [t]);
            && ok[0] == Post(b, t).Some?
            && if ok[0] then Moves(b, b', t.debit, t.credit, t.amount) else b' == b
  {
    AllOrNothing(b, [t]);
    if Post(b, t).Some? {
      assert PostAll(b, [t]) == PostAll(Post(b, t).value, []);
    }
  }

  /** Two linked transfers: both, each with its effect, or neither. */
  lemma SubmitLinked(b: Book, t: Transfer, u: Transfer)
    requires t.linked && !u.linked
    ensures var (b', ok) := Submit(b, [t, u]);
            && ok[0] == ok[1]
            && if ok[0] then
                 && Post(b, t).Some? && Moves(b, Post(b, t).value, t.debit, t.credit, t.amount)
                 && Post(Post(b, t).value, u) == Some(b')
                 && Moves(Post(b, t).value, b', u.debit, u.credit, u.amount)
               else b' == b && (Post(b, t).None? || Post(Post(b, t).value, u).None?)
  {
    AllOrNothing(b, [t, u]);
    assert [t, u][1..] == [u];
    if Post(b, t).Some? {
      var m := Post(b, t).value;
      if Post(m, u).Some? {
        assert PostAll(m, [u]) == PostAll(Post(m, u).value, []);
      }
    }
  }

  /** Two unlinked transfers are posted one after the other, each on its own. */
  lemma SubmitUnlinked(b: Book, t: Transfer, u: Transfer)
    requires !t.linked && !u.linked
    ensures var m := Submit(b, [t]);
            Submit(b, [t, u]) == (Submit(m.0, [u]).0, m.1 + Submit(m.0, [u]).1)
  {
    assert [t, u][..1] == [t] && [t, u][1..] == [u];
    assert [t][..1] == [t] && [t][1..] == [];
    assert Submit(b, [t]).1 == seq(1, i => PostAll(b, [t]).Some?);
  }
}
