/**
 The ecash house wallet: one stored list of proofs, rewritten behind a promise-chain lock.
 claim() and mint() let the mint swap proofs between reading the list and writing it, and what
 has been swapped is spent whether or not the list is written. A claimed token's proofs are not
 the pool's, so only mint() can leave spent proofs on the list.
 */
module CashPool {
  import opened L = Locks
  import R = Runs

  /** id stands for the proof's secret, which the mint accepts once. */
  datatype Proof = Proof(id: nat, amount: nat)

  /**
   claim appends the proofs it swapped a token for; mint lets the wallet swap the proofs with
   these ids, worth at least amount, and keeps what is left of the list and the change.
   */
  datatype Op = Claim(received: seq<Proof>) | Mint(amount: nat, swaps: set<nat>, keep: seq<Proof>)

  function Apply(pool: seq<Proof>, op: Op): seq<Proof> {
    match op
    case Claim(received) => pool + received
    case Mint(_, _, keep) => keep
  }

  /** What the mint would still accept of these proofs. */
  function Value(proofs: seq<Proof>, spent: set<nat>): nat {
    if proofs == [] then 0 else (if proofs[0].id in spent then 0 else proofs[0].amount) + Value(proofs[1..], spent)
  }

  lemma {:induction false} ValueConcat(a: seq<Proof>, b: seq<Proof>, spent: set<nat>)
    ensures Value(a + b, spent) == Value(a, spent) + Value(b, spent)
    decreases a
  {
    if a == [] {
      assert a + b == b;
    } else {
      ValueConcat(a[1..], b, spent);
      assert (a + b)[1..] == a[1..] + b;
    }
  }

  /** torn: a section may throw, or the process die, between a mint's swap and its write. */
  datatype Setting = Setting(form: Form, torn: bool)

  /** swapped are the mints whose proofs are swapped and whose list is not yet written. */
  datatype Pool = Pool(lock: State<seq<Proof>, Op>, spent: set<nat>, swapped: set<nat>) {
    function Worth(): nat { Value(lock.cell, spent) }

    /** Nobody is past reading the list. */
    predicate Free() { forall i :: 0 <= i < |lock.phases| ==> !lock.phases[i].Loaded? }
  }

  datatype PoolStep = Locked(k: Step<Op>) | Swap(i: nat)

  ghost predicate Starting(s: Pool) { Init(s.lock) && s.swapped == {} }

  /**
   The wallet is honest about the list a caller read: a claim's proofs are fresh, and what a
   mint keeps and what it hands out make up what that list was worth.
   */
  ghost predicate Next(c: Setting, s: Pool, k: PoolStep, s': Pool) {
    match k
    case Locked(k) =>
      && s' == Pool(s'.lock, s.spent, if k.Store? || k.Throw? then s.swapped - {k.i} else s.swapped)
      && L.Next(c.form, Apply, s.lock, k, s'.lock)
      && (k.Store? && s.lock.ops[k.i].Mint? ==> k.i in s.swapped)
      && (k.Store? && s.lock.ops[k.i].Claim? ==> forall x :: x in s.lock.ops[k.i].received ==> x.id !in s.spent)
      && (k.Throw? ==> c.torn || k.i !in s.swapped)
    case Swap(i) =>
      && i < |s.lock.phases| == |s.lock.ops| && s.lock.phases[i].Loaded? && i !in s.swapped
      && var op := s.lock.ops[i];
      && op.Mint?
      && s' == s.(spent := s.spent + op.swaps, swapped := s.swapped + {i})
      && Value(op.keep, s'.spent) + op.amount == Value(s.lock.phases[i].v, s.spent)
  }

  ghost function Steps(c: Setting): (Pool, PoolStep, Pool) -> bool { (s, k, s') => Next(c, s, k, s') }

  ghost function From(s0: Pool): Pool -> bool { s => s == s0 }

  ghost predicate PoolRun(c: Setting, s0: Pool, ss: seq<Pool>, ks: seq<PoolStep>) {
    Starting(s0) && R.Run(From(s0), Steps(c), ss, ks)
  }

  ghost predicate Reachable(c: Setting, s0: Pool, s: Pool) {
    Starting(s0) && R.Reachable(From(s0), Steps(c), s)
  }

  function Gain(op: Op): int { if op.Claim? then Value(op.received, {}) else -(op.amount as int) }

  /** Claimed less minted, over the first n operations. */
  function Net(ops: seq<Op>, thrown: set<nat>, n: nat): int
    requires n <= |ops|
  {
    if n == 0 then 0
    else Net(ops, thrown, n - 1) + (if n - 1 in thrown then 0 else Gain(ops[n - 1]))
  }

  /** What the pool should be worth: what it was, plus claimed, less minted. */
  function Due(s0: Pool, s: Pool): int
    requires |s.lock.ops| == |s.lock.phases|
  {
    s0.Worth() + Net(s.lock.ops, s.lock.thrown, Served(s.lock.phases))
  }

  predicate Conserved(s0: Pool, s: Pool) { |s.lock.ops| == |s.lock.phases| && s.Worth() == Due(s0, s) }

  // ---- Without torn sections --------------------------------------------------

  /** Between its swap and its write a mint holds what the pool will be worth. */
  ghost predicate PoolInv(s0: Pool, s: Pool) {
    && Inv(Apply, s0.lock.cell, s.lock)
    && (s.swapped == {} ==> s.Worth() == Due(s0, s))
    && forall i :: i in s.swapped ==>
         && i < |s.lock.phases| && s.lock.phases[i].Loaded? && s.lock.ops[i].Mint?
         && Value(s.lock.ops[i].keep, s.spent) + s.lock.ops[i].amount == Due(s0, s)
  }

  lemma {:induction false} NetFrame(ops: seq<Op>, more: seq<Op>, thrown: set<nat>, thrown': set<nat>, n: nat)
    requires n <= |ops| && ops <= more && forall i :: 0 <= i < n ==> (i in thrown <==> i in thrown')
    ensures Net(ops, thrown, n) == Net(more, thrown', n)
  {
    if n > 0 {
      NetFrame(ops, more, thrown, thrown', n - 1);
    }
  }

  /** Fresh proofs are worth their face. */
  lemma {:induction false} FreshValue(proofs: seq<Proof>, spent: set<nat>)
    requires forall x :: x in proofs ==> x.id !in spent
    ensures Value(proofs, spent) == Value(proofs, {})
  {
    if proofs != [] {
      FreshValue(proofs[1..], spent);
    }
  }

  /** Whoever has read the list is the only one past waiting. */
  lemma OnlyReader(s0: Pool, s: Pool, i: nat)
    requires PoolInv(s0, s) && i < |s.lock.phases| && s.lock.phases[i].Holding()
    ensures Served(s.lock.phases) == i && s.swapped <= {i}
  {
    ServedIs(s.lock.phases, i);
    forall j | j in s.swapped ensures j == i {
    }
  }

  /** The step that writes the list, or throws, serves the caller that holds the lock. */
  lemma ReleaseWorth(c: Setting, s0: Pool, s: Pool, k: PoolStep, s': Pool)
    requires !c.torn && PoolInv(s0, s) && k.Locked? && (k.k.Store? || k.k.Throw?) && Next(c, s, k, s')
    requires Inv(Apply, s0.lock.cell, s'.lock)
    ensures PoolInv(s0, s')
  {
    hide Inv;
    var i := k.k.i;
    InvHolds(c, s0, s);
    ReleaseServes(c.form, Apply, s0.lock.cell, s.lock, k.k, s'.lock);
    OnlyReader(s0, s, i);
    NetFrame(s.lock.ops, s'.lock.ops, s.lock.thrown, s'.lock.thrown, i);
    if k.k.Store? && s.lock.ops[i].Claim? {
      ValueConcat(s.lock.cell, s.lock.ops[i].received, s.spent);
      FreshValue(s.lock.ops[i].received, s.spent);
    }
  }

  /** What of Locks' invariant the accounting rests on: the list as read is the list. */
  lemma InvHolds(c: Setting, s0: Pool, s: Pool)
    requires PoolInv(s0, s)
    ensures |s.lock.ops| == |s.lock.phases| && (forall i :: i in s.lock.thrown ==> i < Served(s.lock.phases))
    ensures forall i :: 0 <= i < |s.lock.phases| && s.lock.phases[i].Loaded? ==> s.lock.phases[i].v == s.lock.cell
  {
  }

  lemma SwapWorth(c: Setting, s0: Pool, s: Pool, k: PoolStep, s': Pool)
    requires PoolInv(s0, s) && k.Swap? && Next(c, s, k, s')
    ensures PoolInv(s0, s')
  {
    OnlyReader(s0, s, k.i);
    InvHolds(c, s0, s);
  }

  lemma OtherWorth(c: Setting, s0: Pool, s: Pool, k: PoolStep, s': Pool)
    requires PoolInv(s0, s) && k.Locked? && !k.k.Store? && !k.k.Throw? && Next(c, s, k, s')
    requires Inv(Apply, s0.lock.cell, s'.lock)
    ensures PoolInv(s0, s')
  {
    hide Inv;
    InvHolds(c, s0, s);
    StillServes(c.form, Apply, s0.lock.cell, s.lock, k.k, s'.lock);
    NetFrame(s.lock.ops, s'.lock.ops, s.lock.thrown, s'.lock.thrown, Served(s.lock.phases));
  }

  lemma PoolNext(c: Setting, s0: Pool, s: Pool, k: PoolStep, s': Pool)
    requires !c.torn && PoolInv(s0, s) && Next(c, s, k, s')
    ensures PoolInv(s0, s')
  {
    hide PoolInv;
    if k.Swap? {
      SwapWorth(c, s0, s, k, s');
    } else {
      LockKept(c, s0, s, k, s');
      if k.k.Store? || k.k.Throw? {
        ReleaseWorth(c, s0, s, k, s');
      } else {
        OtherWorth(c, s0, s, k, s');
      }
    }
  }

  lemma LockKept(c: Setting, s0: Pool, s: Pool, k: PoolStep, s': Pool)
    requires PoolInv(s0, s) && k.Locked? && Next(c, s, k, s')
    ensures Inv(Apply, s0.lock.cell, s'.lock)
  {
    L.NextInv(c.form, Apply, s0.lock.cell, s.lock, k.k, s'.lock);
  }

  /**
   No proof is lost to another caller's write or to a mint's own: at every point without a
   section under way the pool is worth what it was, plus claimed, less minted.
   */
  lemma {:induction false} PoolConserved(c: Setting, s0: Pool, ss: seq<Pool>, ks: seq<PoolStep>, n: nat)
    requires !c.torn && PoolRun(c, s0, ss, ks) && n < |ss|
    ensures PoolInv(s0, ss[n])
    ensures ss[n].Free() ==> Conserved(s0, ss[n])
  {
    hide Next;
    if n > 0 {
      PoolConserved(c, s0, ss, ks, n - 1);
      PoolNext(c, s0, ss[n - 1], ks[n - 1], ss[n]);
    }
    if ss[n].Free() {
      assert ss[n].swapped == {};
    }
  }

  // ---- With them --------------------------------------------------------------

  lemma Then(c: Setting, s0: Pool, s: Pool, k: PoolStep, s': Pool)
    requires Reachable(c, s0, s) && Next(c, s, k, s')
    ensures Reachable(c, s0, s')
  {
    R.Then(From(s0), Steps(c), s, k, s');
  }

  const COIN := Proof(0, 1)

  const MINT := Mint(1, {0}, [])

  /** One coin, and how far the one mint of it is. */
  function OneCoin(phase: Phase<seq<Proof>>, spent: set<nat>, swapped: set<nat>): Pool {
    Pool(State([COIN], [MINT], [phase], {}), spent, swapped)
  }

  /** The pool is, with no section under way, not worth what it should be. */
  ghost predicate ComesOutWrong(c: Setting) {
    exists s0, s :: Reachable(c, s0, s) && s.Free() && !Conserved(s0, s)
  }

  /** The only proof is swapped and the list that still names it is not replaced. */
  lemma TornMint(c: Setting)
    requires c.torn
    ensures ComesOutWrong(c)
  {
    var s0 := Pool(State([COIN], [], [], {}), {}, {});
    R.Starts(From(s0), Steps(c), s0);
    hide Reachable;
    Then(c, s0, s0, Locked(Arrive(MINT)), OneCoin(Waiting, {}, {}));
    Then(c, s0, OneCoin(Waiting, {}, {}), Locked(Enter(0)), OneCoin(Entered, {}, {}));
    Then(c, s0, OneCoin(Entered, {}, {}), Locked(Load(0)), OneCoin(Loaded([COIN]), {}, {}));
    Then(c, s0, OneCoin(Loaded([COIN]), {}, {}), Swap(0), OneCoin(Loaded([COIN]), {0}, {0}));
    var s := Pool(State([COIN], [MINT], [Released], {0}), {0}, {});
    Then(c, s0, OneCoin(Loaded([COIN]), {0}, {0}), Locked(Throw(0)), s);
    assert s.lock.phases[1..] == [] && Served(s.lock.phases) == 1;
    assert Net([MINT], {0}, 1) == Net([MINT], {0}, 0) == 0;
    assert [COIN][1..] == [] && s.Worth() == 0 && s0.Worth() == 1;
    assert s.Free() && !Conserved(s0, s);
  }

  /**
   The pool is worth what it should be, whenever no section is under way, in every run exactly
   when no mint's section ends between its swap and its write.
   */
  lemma PoolConservedExactly(c: Setting)
    ensures !ComesOutWrong(c) <==> !c.torn
  {
    if c.torn {
      TornMint(c);
    } else {
      forall s0, s | Reachable(c, s0, s) && s.Free() ensures Conserved(s0, s) {
        var ss: seq<Pool>, ks: seq<PoolStep> :| R.Run(From(s0), Steps(c), ss, ks) && ss[|ks|] == s;
        PoolConserved(c, s0, ss, ks, |ks|);
      }
    }
  }
}
