/**
 What finalize() and reverse() do to one lightning debit, await by await.

 One debit has one stored record, one place in the `pending` set, and two Redis
 claims. Any number of finalize and reverse calls may run at once, each on its own,
 possibly stale, copy of the record. A step is one await resolving together with the
 synchronous code up to the next one, so every interleaving at awaits is a run.

 Faults names what the environment may do wrong:
   early  tbReverse may throw before it writes the ledger
   late   an error, or a process crash, may hit between tbReverse's ledger write and
          the deletion of the record
   crash  the process may die between any other two awaits; claims and record survive
 Assumed besides: tbReverse's batch is accepted, as it is when the accounts the debit drew on
 exist (Operations.ReverseMoves; a refused batch is only warned about and the record deleted all
 the same), and no finalize call comes later than the 24 h for which `refunded:` is kept.
 */
module Settlement {
  import opened Options
  import R = Runs

  datatype Faults = Faults(early: bool, late: bool, crash: bool)

  /** settled: the record carries a preimage (ref) and is confirmed. */
  datatype Record = Record(amount: nat, fee: nat, ourfee: nat, settled: bool) {
    function Total(): nat { amount + fee + ourfee }
  }

  /**
   A refund of the fee reserve: the copy its call was handed, the fee the node reported, and
   what tbRefund credited.
   */
  datatype Refund = Refund(copy: Record, netFee: Option<nat>, amount: nat) {
    /** The reserve less the fee reported. */
    predicate Exact() { netFee.Some? && 0 < amount == copy.fee - netFee.value }
  }

  /**
   What the calls share. debited is the record as debit() wrote it and versions every
   value the record has had, so the copies a caller can hold are the members of versions.
   reversals and refunds log what tbReverse and tbRefund credited back.
   */
  datatype Memory = Memory(
    debited: Record,
    record: Option<Record>,
    versions: set<Record>,
    queued: bool,
    reversing: bool,
    refunded: bool,
    reversals: seq<nat>,
    refunds: seq<Refund>)
  {
    /** Nothing is left to reverse: the record is deleted or carries a preimage. */
    predicate Closed() { record.None? || record.value.settled }

    function Store(r: Record): Memory { this.(record := Some(r), versions := versions + {r}) }
  }

  /** Where a finalize or reverse call is suspended: the await it has issued. */
  datatype Call =
    | Returned
      // finalize(r, p), once it holds a preimage. p is the copy as it was handed over, netFee
      // the fee the node reports, or None when the reported amount is not a finite number.
    | FinDequeue(p: Record, netFee: Option<nat>)
    | FinLoad(p: Record, netFee: Option<nat>)
    | FinCheck(p: Record, netFee: Option<nat>)
    | FinStore(p: Record, netFee: Option<nat>)
    | FinClaim(p: Record, netFee: Option<nat>)
    | FinRefund(p: Record, netFee: Option<nat>, amount: nat)
    | RescueCheck(p: Record, netFee: Option<nat>)
    | RescueStore(p: Record, netFee: Option<nat>)
      // reverse(p)
    | RevClaim(p: Record)
    | RevPause(p: Record)
    | RevLoad(p: Record)
    | RevLedger(p: Record)
    | RevClean
    | RevRelease
  {
    predicate Finalizing() {
      FinDequeue? || FinLoad? || FinCheck? || FinStore? || FinClaim? || FinRefund? ||
      RescueCheck? || RescueStore?
    }

    /** The call won the `reversing:` claim and has neither returned nor released it. */
    predicate HoldsClaim() {
      RevPause? || RevLoad? || RevLedger? || RevClean? || RevRelease?
    }

    predicate Reversing() { RevClaim? || HoldsClaim() }
  }

  datatype State = State(mem: Memory, calls: map<nat, Call>) {
    function At(i: nat): Call { if i in calls then calls[i] else Returned }

    function Goto(i: nat, c: Call): State { this.(calls := calls[i := c]) }

    /** No call holds the `reversing:` claim. */
    predicate Unheld() { forall i :: i in calls ==> !calls[i].HoldsClaim() }
  }

  datatype Step =
    | CallFinalize(i: nat, p: Record, netFee: Option<nat>)
    | CallReverse(i: nat, p: Record)
    | Advance(i: nat)       // the awaited operation succeeds
    | Throw(i: nat)         // it throws without having had an effect
    | LateThrow(i: nat)     // an error after tbReverse has written
    | Dequeue               // someone else removes the invoice from `pending`
    | ExpireClaim           // the 300 s expiry of `reversing:`
    | Crash

  predicate Init(s: State) {
    && !s.mem.debited.settled
    && s.mem == Memory(s.mem.debited, Some(s.mem.debited), {s.mem.debited}, true, false, false, [], [])
    && s.calls == map[]
  }

  /** p after finalize has computed the network fee and marked it paid. */
  function Paid(p: Record, netFee: Option<nat>): Record {
    p.(fee := if netFee.Some? then netFee.value else p.fee, settled := true)
  }

  /** The memory, and where the call is next suspended, once the await it issued resolves. */
  function Resolve(m: Memory, c: Call): (Memory, Call) {
    match c
    case Returned => (m, Returned)
    case FinDequeue(p, netFee) => (m.(queued := false), FinLoad(p, netFee))
    case FinLoad(p, netFee) =>
      (m, if m.record.None? then Returned else FinCheck(p, netFee))
    case FinCheck(p, netFee) =>
      (m, if m.record.None? then RescueCheck(p, netFee)
          else if m.record.value.settled then FinClaim(p, netFee)
          else FinStore(p, netFee))
    case FinStore(p, netFee) => (m.Store(Paid(p, netFee)), FinClaim(p, netFee))
    case FinClaim(p, netFee) =>
      var maxfee, fee := p.fee, Paid(p, netFee).fee;
      if m.refunded then (m, Returned)
      else (m.(refunded := true),
            if maxfee <= fee then Returned else FinRefund(p, netFee, maxfee - fee))
    case FinRefund(p, netFee, amount) => (m.(refunds := m.refunds + [Refund(p, netFee, amount)]), Returned)
    case RescueCheck(p, netFee) =>
      (m, if m.Closed() then Returned else RescueStore(p, netFee))
    case RescueStore(p, netFee) => (m.Store(Paid(p, netFee)), Returned)
    case RevClaim(p) =>
      if m.reversing then (m, Returned) else (m.(reversing := true), RevPause(p))
    case RevPause(p) => (m, RevLoad(p))
    case RevLoad(p) =>
      (m, if m.record.None? then RevRelease
          else if m.record.value.settled then Returned
          else RevLedger(p))
    case RevLedger(p) => (m.(reversals := m.reversals + [p.Total()]), RevClean)
    case RevClean => (m.(record := None, queued := false), Returned)
    case RevRelease => (m.(reversing := false), Returned)
  }

  /** Where a call goes when the await it issued throws without having had an effect. */
  function Thrown(f: Faults, c: Call): Option<Call> {
    match c
    case FinRefund(p, netFee, _) => Some(RescueCheck(p, netFee))
    case RevPause(_) => if f.early then Some(RevRelease) else None
    case RevLedger(_) => if f.early then Some(RevRelease) else None
    case _ => None
  }

  /** Caller i may start a call on its copy p: the node honours the maxfee it was given. */
  predicate CanCall(s: State, i: nat, p: Record, netFee: Option<nat>) {
    && s.At(i).Returned? && p in s.mem.versions
    && (netFee.Some? ==> netFee.value <= s.mem.debited.fee)
  }

  predicate Next(f: Faults, s: State, k: Step, s': State) {
    match k
    case CallFinalize(i, p, netFee) =>
      CanCall(s, i, p, netFee) && s' == s.Goto(i, FinDequeue(p, netFee))
    case CallReverse(i, p) =>
      CanCall(s, i, p, None) && s' == s.Goto(i, RevClaim(p))
    case Advance(i) =>
      var (m, c) := Resolve(s.mem, s.At(i));
      !s.At(i).Returned? && s' == State(m, s.calls[i := c])
    case Throw(i) =>
      var c := Thrown(f, s.At(i));
      c.Some? && s' == s.Goto(i, c.value)
    case LateThrow(i) => f.late && s.At(i).RevClean? && s' == s.Goto(i, RevRelease)
    case Dequeue => s' == s.(mem := s.mem.(queued := false))
    case ExpireClaim =>
      // a claim outlives its holder
      s.Unheld() && s' == s.(mem := s.mem.(reversing := false))
    case Crash =>
      && f.crash && (f.late || forall i :: i in s.calls ==> !s.calls[i].RevClean?)
      && s' == s.(calls := map[])
  }

  ghost function Steps(f: Faults): (State, Step, State) -> bool { (s, k, s') => Next(f, s, k, s') }

  ghost predicate Run(f: Faults, ss: seq<State>, ks: seq<Step>) { R.Run(Init, Steps(f), ss, ks) }

  // ---- The invariant --------------------------------------------------------

  /** A copy of d: only finalize changes a record, once and to settled. */
  predicate Version(d: Record, v: Record) {
    v.amount == d.amount && v.ourfee == d.ourfee && v.fee <= d.fee && (!v.settled ==> v == d)
  }

  ghost predicate MemoryInv(m: Memory) {
    && !m.debited.settled
    && m.debited in m.versions
    && (m.record.Some? ==> m.record.value in m.versions)
    && (forall v :: v in m.versions ==> Version(m.debited, v))
    && (forall v :: v in m.versions && v.settled ==> m.Closed())
    && (forall n :: 0 <= n < |m.reversals| ==> m.reversals[n] == m.debited.Total())
    && (m.record.None? ==> m.reversals != [])
    && (m.refunded ==> m.Closed())
    && (m.refunds != [] ==>
          m.refunded && |m.refunds| == 1 && m.refunds[0].Exact() && m.refunds[0].copy in m.versions)
  }

  ghost predicate CallInv(m: Memory, c: Call) {
    match c
    case FinDequeue(p, netFee) => Handed(m, p, netFee)
    case FinLoad(p, netFee) => Handed(m, p, netFee)
    case FinCheck(p, netFee) => Handed(m, p, netFee)
    case FinStore(p, netFee) => Handed(m, p, netFee)
    case FinClaim(p, netFee) => Handed(m, p, netFee) && m.Closed()
    case FinRefund(p, netFee, amount) =>
      Handed(m, p, netFee) && Refund(p, netFee, amount).Exact() && m.refunded && m.refunds == []
    case RescueCheck(p, netFee) => Handed(m, p, netFee)
    case RescueStore(p, netFee) => Handed(m, p, netFee)
    case RevClaim(p) => p in m.versions
    case RevPause(p) => p in m.versions && m.reversing
    case RevLoad(p) => p in m.versions && m.reversing
    case RevLedger(p) => p == m.debited && m.reversing
    case RevClean => m.reversing && m.reversals != []
    case RevRelease => m.reversing
    case Returned => true
  }

  predicate Handed(m: Memory, p: Record, netFee: Option<nat>) {
    p in m.versions && (netFee.Some? ==> netFee.value <= m.debited.fee)
  }

  /** At most one call holds the claim, and at most one is refunding the fee reserve. */
  ghost predicate Exclusive(calls: map<nat, Call>) {
    && (forall i, j | i in calls && j in calls && calls[i].HoldsClaim() ::
          calls[j].HoldsClaim() ==> i == j)
    && (forall i, j | i in calls && j in calls && calls[i].FinRefund? ::
          calls[j].FinRefund? ==> i == j)
  }

  /** Without late faults, a ledger reversal leaves nothing to reverse again. */
  ghost predicate OnceInv(s: State) {
    && |s.mem.reversals| <= 1
    && (s.mem.reversals != [] ==> s.mem.Closed() || Cleaning(s))
    && (forall i :: i in s.calls && s.calls[i].RevLedger? ==> s.mem.reversals == [])
  }

  ghost predicate Cleaning(s: State) { exists i :: i in s.calls && s.calls[i].RevClean? }

  ghost predicate Inv(f: Faults, s: State) {
    && MemoryInv(s.mem)
    && (forall i :: i in s.calls ==> CallInv(s.mem, s.calls[i]))
    && Exclusive(s.calls)
    && (!f.late ==> OnceInv(s))
  }

  lemma ResolveMemory(m: Memory, c: Call)
    requires MemoryInv(m) && CallInv(m, c)
    ensures MemoryInv(Resolve(m, c).0)
    ensures CallInv(Resolve(m, c).0, Resolve(m, c).1)
  {
  }

  /** One call's step does not disturb what another call relies on. */
  lemma ResolveFrame(m: Memory, c: Call, other: Call)
    requires MemoryInv(m) && CallInv(m, c) && CallInv(m, other)
    requires !(c.HoldsClaim() && other.HoldsClaim())
    requires !(c.FinRefund? && other.FinRefund?)
    ensures CallInv(Resolve(m, c).0, other)
    ensures !(Resolve(m, c).1.HoldsClaim() && other.HoldsClaim())
    ensures !(Resolve(m, c).1.FinRefund? && other.FinRefund?)
  {
  }

  lemma AdvanceInv(f: Faults, s: State, i: nat, s': State)
    requires Inv(f, s) && Next(f, s, Advance(i), s')
    ensures Inv(f, s')
  {
    var c := s.calls[i];
    ResolveMemory(s.mem, c);
    forall j | j in s.calls && j != i
      ensures CallInv(s'.mem, s.calls[j])
      ensures !(s'.calls[i].HoldsClaim() && s.calls[j].HoldsClaim())
      ensures !(s'.calls[i].FinRefund? && s.calls[j].FinRefund?)
    {
      ResolveFrame(s.mem, c, s.calls[j]);
    }
    if !f.late {
      AdvanceOnce(f, s, i, s');
    }
  }

  lemma AdvanceOnce(f: Faults, s: State, i: nat, s': State)
    requires Inv(f, s) && Next(f, s, Advance(i), s') && !f.late
    ensures OnceInv(s')
  {
    var c := s.calls[i];
    assert CallInv(s.mem, c);
    if s.mem.reversals != [] && Cleaning(s) {
      var j :| j in s.calls && s.calls[j].RevClean?;
      assert j == i || s'.calls[j].RevClean?;
    }
    if c.RevLoad? {
      assert s.mem.reversals == [] || s.mem.Closed();
    }
    if c.RevLedger? {
      assert s'.calls[i].RevClean?;
    }
  }

  /** Suspending or starting another call leaves a call that is deleting the record alone. */
  lemma CleaningKept(s: State, i: nat, c: Call)
    requires Cleaning(s) && !s.At(i).RevClean?
    ensures Cleaning(s.Goto(i, c))
  {
    var j :| j in s.calls && s.calls[j].RevClean?;
    assert s.Goto(i, c).calls[j].RevClean?;
  }

  /** Suspending call i at c, where c does not win the claim or start to refund. */
  lemma GotoInv(f: Faults, s: State, i: nat, c: Call)
    requires Inv(f, s) && CallInv(s.mem, c)
    requires !s.At(i).RevClean? && !c.RevLedger? && !c.FinRefund?
    requires c.HoldsClaim() ==> s.At(i).HoldsClaim()
    ensures Inv(f, s.Goto(i, c))
  {
    if Cleaning(s) {
      CleaningKept(s, i, c);
    }
  }

  lemma NextInv(f: Faults, s: State, k: Step, s': State)
    requires Inv(f, s) && Next(f, s, k, s')
    ensures Inv(f, s')
  {
    match k
    case CallFinalize(i, p, netFee) => GotoInv(f, s, i, FinDequeue(p, netFee));
    case CallReverse(i, p) => GotoInv(f, s, i, RevClaim(p));
    case Advance(i) => AdvanceInv(f, s, i, s');
    case Throw(i) => assert CallInv(s.mem, s.calls[i]); GotoInv(f, s, i, s'.calls[i]);
    case LateThrow(i) => LateThrowInv(f, s, i);
    case Dequeue => SharedInv(f, s, s');
    case ExpireClaim => SharedInv(f, s, s');
    case Crash => CrashInv(f, s);
  }

  lemma LateThrowInv(f: Faults, s: State, i: nat)
    requires Inv(f, s) && f.late && s.At(i).RevClean?
    ensures Inv(f, s.Goto(i, RevRelease))
  {
    assert CallInv(s.mem, s.calls[i]);
  }

  lemma CrashInv(f: Faults, s: State)
    requires Inv(f, s) && (f.late || forall i :: i in s.calls ==> !s.calls[i].RevClean?)
    ensures Inv(f, s.(calls := map[]))
  {
    assert !f.late ==> !Cleaning(s);
  }

  lemma ResolveGrows(m: Memory, c: Call)
    ensures var m' := Resolve(m, c).0;
            && m'.debited == m.debited && m.versions <= m'.versions
            && m.reversals <= m'.reversals && m.refunds <= m'.refunds
  {
  }

  /** The logs and the set of record values only grow. */
  lemma NextGrows(f: Faults, s: State, k: Step, s': State)
    requires Next(f, s, k, s')
    ensures s'.mem.debited == s.mem.debited && s.mem.versions <= s'.mem.versions
    ensures s.mem.reversals <= s'.mem.reversals && s.mem.refunds <= s'.mem.refunds
  {
    hide Resolve, Thrown, CanCall;
    if k.Advance? {
      ResolveGrows(s.mem, s.At(k.i));
    }
  }

  /** `pending` and, while no call holds it, the claim bear on nothing else. */
  lemma SharedInv(f: Faults, s: State, s': State)
    requires Inv(f, s) && s'.calls == s.calls
    requires s'.mem == s.mem.(queued := s'.mem.queued, reversing := s'.mem.reversing)
    requires s.Unheld() || s'.mem.reversing == s.mem.reversing
    ensures Inv(f, s')
  {
    forall i | i in s.calls ensures CallInv(s'.mem, s.calls[i]) {
      assert CallInv(s.mem, s.calls[i]);
    }
    assert Cleaning(s) ==> Cleaning(s');
  }

  /** A running call stays of its kind, and only calls of that kind write the ledger. */
  lemma NextKinds(f: Faults, s: State, k: Step, s': State)
    requires Next(f, s, k, s') && (k.Advance? || k.Throw? || k.LateThrow? || k.ExpireClaim?)
    ensures forall j :: j in s'.calls ==> j in s.calls
    ensures forall j :: j in s'.calls && s'.calls[j].Finalizing() ==> s.calls[j].Finalizing()
    ensures forall j :: j in s'.calls && s'.calls[j].Reversing() ==> s.calls[j].Reversing()
    ensures s'.mem.reversals != s.mem.reversals ==> k.Advance? && s.At(k.i).Reversing()
    ensures s'.mem.refunds != s.mem.refunds ==> k.Advance? && s.At(k.i).Finalizing()
  {
  }

  lemma {:induction false} RunInv(f: Faults, ss: seq<State>, ks: seq<Step>, n: nat)
    requires Run(f, ss, ks) && n < |ss|
    ensures forall m :: 0 <= m <= n ==> Inv(f, ss[m]) && ss[m].mem.debited == ss[0].mem.debited
  {
    if n > 0 {
      RunInv(f, ss, ks, n - 1);
      NextInv(f, ss[n - 1], ks[n - 1], ss[n]);
      NextGrows(f, ss[n - 1], ks[n - 1], ss[n]);
    }
  }

  /** Some run ends in s. */
  ghost predicate Reachable(f: Faults, s: State) { R.Reachable(Init, Steps(f), s) }

  lemma Then(f: Faults, s: State, k: Step, s': State)
    requires Reachable(f, s) && Next(f, s, k, s')
    ensures Reachable(f, s')
  {
    R.Then(Init, Steps(f), s, k, s');
  }

  /**
   For any number of concurrent calls on stale copies: tbRefund runs at most once and returns
   exactly the reserve its call was handed less the fee its node reported, every reversal
   returns exactly what was debited, and without late faults tbReverse runs at most once and, once the record is
   deleted, anything that stores it again stores it paid.
   */
  lemma SettlesOnce(f: Faults, ss: seq<State>, ks: seq<Step>, n: nat)
    requires Run(f, ss, ks) && n < |ss|
    ensures |ss[n].mem.refunds| <= 1
    ensures forall r :: r in ss[n].mem.refunds ==> r.Exact() && r.copy.fee <= ss[0].mem.debited.fee
    ensures var d := ss[0].mem.debited;
            forall a :: a in ss[n].mem.reversals ==> a == d.amount + d.fee + d.ourfee
    ensures !f.late ==> |ss[n].mem.reversals| <= 1
    ensures !f.late && ss[n].mem.reversals != [] && !Cleaning(ss[n]) ==>
              ss[n].mem.record.None? || ss[n].mem.record.value.settled
  {
    RunInv(f, ss, ks, n);
  }

  /** A reverse call on an open record, run up to the await after the ledger write. */
  lemma ReverseOnce(f: Faults, m: Memory, calls: map<nat, Call>)
    requires Reachable(f, State(m, calls)) && calls.Keys <= {0} && State(m, calls).At(0).Returned?
    requires m.record == Some(m.debited) && m.debited in m.versions && !m.debited.settled && !m.reversing
    ensures Reachable(f, State(m.(reversing := true, reversals := m.reversals + [m.debited.Total()]),
                               map[0 := RevClean]))
  {
    hide Reachable;
    var d, m' := m.debited, m.(reversing := true);
    Then(f, State(m, calls), CallReverse(0, d), State(m, map[0 := RevClaim(d)]));
    Then(f, State(m, map[0 := RevClaim(d)]), Advance(0), State(m', map[0 := RevPause(d)]));
    Then(f, State(m', map[0 := RevPause(d)]), Advance(0), State(m', map[0 := RevLoad(d)]));
    Then(f, State(m', map[0 := RevLoad(d)]), Advance(0), State(m', map[0 := RevLedger(d)]));
    Then(f, State(m', map[0 := RevLedger(d)]), Advance(0),
         State(m'.(reversals := m.reversals + [d.Total()]), map[0 := RevClean]));
  }

  /** A late fault lets tbReverse run twice for one debit. */
  lemma LateFaultReversesTwice(f: Faults) returns (s: State)
    requires f.late
    ensures Reachable(f, s) && |s.mem.reversals| == 2
  {
    var d := Record(1, 0, 0, false);
    var m := Memory(d, Some(d), {d}, true, false, false, [], []);
    R.Starts(Init, Steps(f), State(m, map[]));
    hide Reachable;
    ReverseOnce(f, m, map[]);
    var m' := m.(reversing := true, reversals := [] + [1]);
    Then(f, State(m', map[0 := RevClean]), LateThrow(0), State(m', map[0 := RevRelease]));
    m := m'.(reversing := false);
    Then(f, State(m', map[0 := RevRelease]), Advance(0), State(m, map[0 := Returned]));
    ReverseOnce(f, m, map[0 := Returned]);
    s := State(m.(reversing := true, reversals := m.reversals + [1]), map[0 := RevClean]);
  }

  /** tbReverse runs at most once per debit in every run exactly when no late fault can hit. */
  lemma ReversesOnceExactly(f: Faults)
    ensures (forall s | Reachable(f, s) :: |s.mem.reversals| <= 1) <==> !f.late
  {
    if f.late {
      var s := LateFaultReversesTwice(f);
    } else {
      forall s | Reachable(f, s) ensures |s.mem.reversals| <= 1 {
        var ss: seq<State>, ks: seq<Step> :| Run(f, ss, ks) && ss[|ks|] == s;
        SettlesOnce(f, ss, ks, |ks|);
      }
    }
  }

  // ---- A call left to itself --------------------------------------------------

  function Rank(c: Call): nat {
    match c
    case Returned => 0
    case FinDequeue(_, _) => 8
    case FinLoad(_, _) => 7
    case FinCheck(_, _) => 6
    case FinStore(_, _) => 5
    case FinClaim(_, _) => 4
    case FinRefund(_, _, _) => 3
    case RescueCheck(_, _) => 2
    case RescueStore(_, _) => 1
    case RevClaim(_) => 6
    case RevPause(_) => 5
    case RevLoad(_) => 4
    case RevLedger(_) => 3
    case RevClean => 2
    case RevRelease => 1
  }

  lemma ResolveRanks(m: Memory, c: Call)
    requires !c.Returned?
    ensures Rank(Resolve(m, c).1) < Rank(c)
  {
  }

  /** The memory a call leaves behind when nothing comes in between and nothing throws. */
  function Finish(m: Memory, c: Call): Memory
    decreases Rank(c)
  {
    if c.Returned? then m
    else
      ResolveRanks(m, c);
      Finish(Resolve(m, c).0, Resolve(m, c).1)
  }

  lemma FinishStep(m: Memory, c: Call)
    ensures Finish(m, c) == if c.Returned? then m else Finish(Resolve(m, c).0, Resolve(m, c).1)
  {
  }

  /** From any point of any run, a call that is left to itself returns and leaves that behind. */
  lemma {:induction false} Completes(f: Faults, s: State, i: nat)
    requires Reachable(f, s) && i in s.calls
    ensures Reachable(f, State(Finish(s.mem, s.At(i)), s.calls[i := Returned]))
    decreases Rank(s.At(i))
  {
    hide Reachable;
    if s.At(i).Returned? {
      assert s == State(s.mem, s.calls[i := Returned]);
    } else {
      var (m, c) := Resolve(s.mem, s.At(i));
      ResolveRanks(s.mem, s.At(i));
      Then(f, s, Advance(i), State(m, s.calls[i := c]));
      Completes(f, State(m, s.calls[i := c]), i);
      assert s.calls[i := c][i := Returned] == s.calls[i := Returned];
    }
  }

  /**
   finalize on a debit that is still open: the record is paid, with the fee the node reported,
   it is out of `pending`, and exactly the rest of the reserve is given back.
   */
  lemma FinalizeAlone(m: Memory, netFee: Option<nat>)
    requires MemoryInv(m) && m.record == Some(m.debited) && (netFee.Some? ==> netFee.value <= m.debited.fee)
    ensures var d, fee := m.debited, if netFee.Some? then netFee.value else m.debited.fee;
            var m' := Finish(m, FinDequeue(d, netFee));
            && m'.record == Some(Record(d.amount, fee, d.ourfee, true)) && !m'.queued
            && m'.refunds == m.refunds + (if fee < d.fee then [Refund(d, netFee, d.fee - fee)] else [])
            && m'.reversals == m.reversals
  {
    hide Finish;
    var d := m.debited;
    var m1 := m.(queued := false);
    var m2 := m1.Store(Paid(d, netFee));
    var m3 := m2.(refunded := true);
    FinishStep(m, FinDequeue(d, netFee));
    FinishStep(m1, FinLoad(d, netFee));
    FinishStep(m1, FinCheck(d, netFee));
    FinishStep(m1, FinStore(d, netFee));
    FinishStep(m2, FinClaim(d, netFee));
    var fee := Paid(d, netFee).fee;
    if fee < d.fee {
      FinishStep(m3, FinRefund(d, netFee, d.fee - fee));
      FinishStep(Resolve(m3, FinRefund(d, netFee, d.fee - fee)).0, Returned);
    } else {
      FinishStep(m3, Returned);
    }
  }

  /** reverse on an open debit, its claim free: the whole debit is given back and the record is gone. */
  lemma ReverseAlone(m: Memory)
    requires !m.debited.settled && m.record == Some(m.debited) && !m.reversing
    ensures var d, m' := m.debited, Finish(m, RevClaim(m.debited));
            && m'.record == None && !m'.queued
            && m'.reversals == m.reversals + [d.amount + d.fee + d.ourfee] && m'.refunds == m.refunds
  {
    var d, m1 := m.debited, m.(reversing := true);
    var m2 := m1.(reversals := m.reversals + [d.Total()]);
    assert Finish(m, RevClaim(d)) == Finish(m1, RevPause(d)) == Finish(m1, RevLoad(d))
        == Finish(m1, RevLedger(d)) == Finish(m2, RevClean);
  }

  // ---- One fee, as a node reports it --------------------------------------------

  /** Every call was handed this fee, and the record has it once it is settled. */
  ghost predicate OneFee(s: State, fee: nat) {
    && (forall v :: v in s.mem.versions && v.settled ==> v.fee == fee)
    && (forall i :: i in s.calls && s.calls[i].Finalizing() ==> FeeOf(s.calls[i]) == Some(fee))
    && (forall r :: r in s.mem.refunds ==> r.netFee == Some(fee))
  }

  function FeeOf(c: Call): Option<nat> { if c.Finalizing() then c.netFee else None }

  lemma ResolveOneFee(m: Memory, c: Call, fee: nat)
    requires FeeOf(c) == Some(fee)
    ensures Resolve(m, c).1.Finalizing() ==> FeeOf(Resolve(m, c).1) == Some(fee)
    ensures forall v :: v in Resolve(m, c).0.versions && v !in m.versions ==> v.fee == fee
    ensures forall r :: r in Resolve(m, c).0.refunds && r !in m.refunds ==> r.netFee == Some(fee)
  {
  }

  lemma OneFeeNext(f: Faults, s: State, k: Step, s': State, fee: nat)
    requires OneFee(s, fee) && Next(f, s, k, s') && (k.CallFinalize? ==> k.netFee == Some(fee))
    ensures OneFee(s', fee)
  {
    if k.Advance? && s.At(k.i).Finalizing() {
      ResolveOneFee(s.mem, s.At(k.i), fee);
    }
  }

  lemma {:induction false} RunOneFee(f: Faults, ss: seq<State>, ks: seq<Step>, n: nat, fee: nat)
    requires Run(f, ss, ks) && n < |ss|
    requires forall m :: 0 <= m < n && ks[m].CallFinalize? ==> ks[m].netFee == Some(fee)
    ensures OneFee(ss[n], fee)
  {
    hide Next;
    if n > 0 {
      RunOneFee(f, ss, ks, n - 1, fee);
      OneFeeNext(f, ss[n - 1], ks[n - 1], ss[n], fee);
    }
  }

  /**
   When the node reports one fee to all of them, any number of concurrent finalize calls give
   back the debit's reserve less that fee, or nothing, and a settled record carries that fee.
   */
  lemma GivesBackTheRest(f: Faults, ss: seq<State>, ks: seq<Step>, n: nat, fee: nat)
    requires Run(f, ss, ks) && n < |ss|
    requires forall m :: 0 <= m < n && ks[m].CallFinalize? ==> ks[m].netFee == Some(fee)
    ensures var m := ss[n].mem;
            && (m.refunds == [] || exists amount: nat ::
                  m.refunds == [Refund(m.debited, Some(fee), amount)] && amount + fee == m.debited.fee)
            && (m.record.Some? && m.record.value.settled ==> m.record.value.fee == fee)
  {
    RunInv(f, ss, ks, n);
    RunOneFee(f, ss, ks, n, fee);
    var m := ss[n].mem;
    if m.refunds != [] {
      var r := m.refunds[0];
      assert r in m.refunds && m.refunds == [r];
      assert r.Exact() && r.netFee == Some(fee);
      assert r.copy in m.versions && Version(m.debited, r.copy);
      assert m.refunds == [Refund(m.debited, Some(fee), r.amount)];
    }
  }

  // ---- No debit is left behind ----------------------------------------------

  /** The debit needs nothing more: closed, or already given back. */
  predicate Resolved(m: Memory) { m.Closed() || m.reversals != [] }

  /** This call, or the one whose claim it will run into, resolves the debit. */
  predicate WillResolve(c: Call) {
    c.FinDequeue? || c.FinLoad? || c.FinCheck? || c.FinStore? || c.RevClaim? || WillReverse(c)
  }

  predicate WillReverse(c: Call) { c.RevPause? || c.RevLoad? || c.RevLedger? }

  ghost predicate Attended(s: State) {
    s.mem.queued || exists i :: i in s.calls && WillResolve(s.calls[i])
  }

  ghost predicate LiveInv(s: State) {
    && (!Resolved(s.mem) ==> Attended(s))
    && (!Resolved(s.mem) && s.mem.reversing ==> exists i :: i in s.calls && WillReverse(s.calls[i]))
    && (forall i :: i in s.calls && s.calls[i].RevRelease? ==> Resolved(s.mem))
    && (forall i :: i in s.calls && s.calls[i].RevClean? ==> s.mem.reversals != [])
  }

  /** Whoever attends to an unresolved debit still does after its own next step. */
  lemma DutyKept(m: Memory, c: Call)
    requires CallInv(m, c)
    ensures var (m', c') := Resolve(m, c);
            && (Resolved(m) ==> Resolved(m'))
            && (!Resolved(m') && WillResolve(c) && !(c.RevClaim? && m.reversing) ==> WillResolve(c'))
            && (!Resolved(m') && WillReverse(c) ==> WillReverse(c'))
            && (!Resolved(m') && m'.reversing && !m.reversing ==> WillReverse(c'))
            && (!Resolved(m') && m.queued && !m'.queued ==> WillResolve(c'))
            && (c'.RevRelease? && !c.RevRelease? ==> Resolved(m'))
            && (c'.RevClean? ==> m'.reversals != [])
  {
  }

  lemma ResolvedKept(f: Faults, s: State, k: Step, s': State)
    requires Inv(f, s) && Next(f, s, k, s') && Resolved(s.mem)
    ensures Resolved(s'.mem)
  {
    hide MemoryInv, Exclusive, OnceInv, Resolve;
    if k.Advance? {
      assert CallInv(s.mem, s.calls[k.i]);
      DutyKept(s.mem, s.At(k.i));
    }
  }

  lemma AdvanceLive(f: Faults, s: State, i: nat, s': State)
    requires Inv(f, s) && LiveInv(s) && Next(f, s, Advance(i), s')
    ensures LiveInv(s')
  {
    hide MemoryInv, Exclusive, OnceInv;
    assert CallInv(s.mem, s.calls[i]);
    DutyKept(s.mem, s.At(i));
    if !Resolved(s'.mem) {
      if s.mem.reversing {
        var j :| j in s.calls && WillReverse(s.calls[j]);
        assert WillReverse(s'.At(j));
        assert WillResolve(s'.At(j));
      } else if s'.mem.reversing {
        assert WillReverse(s'.At(i));
        assert WillResolve(s'.At(i));
      } else if s.mem.queued && !s'.mem.queued {
        assert WillResolve(s'.At(i));
      } else if !s.mem.queued {
        var j :| j in s.calls && WillResolve(s.calls[j]);
        assert WillResolve(s'.At(j));
      }
    }
  }

  /** A call started when the invoice leaves `pending` takes the duty over. */
  lemma CallLive(s: State, i: nat, c: Call, queued: bool)
    requires LiveInv(s) && s.At(i).Returned? && (c.FinDequeue? || c.RevClaim?)
    ensures LiveInv(State(s.mem.(queued := queued), s.calls[i := c]))
  {
    var s' := State(s.mem.(queued := queued), s.calls[i := c]);
    assert WillResolve(s'.At(i));
    if !Resolved(s.mem) && s.mem.reversing {
      var j :| j in s.calls && WillReverse(s.calls[j]);
      assert WillReverse(s'.At(j));
    }
  }

  lemma OtherLive(f: Faults, s: State, k: Step, s': State)
    requires LiveInv(s) && Next(f, s, k, s') && !f.early
    requires k.Throw? || k.LateThrow? || k.ExpireClaim?
    ensures LiveInv(s')
  {
    if !Resolved(s'.mem) {
      if s.mem.reversing {
        var j :| j in s.calls && WillReverse(s.calls[j]);
        assert WillReverse(s'.At(j)) && WillResolve(s'.At(j));
      } else if !s.mem.queued {
        var j :| j in s.calls && WillResolve(s.calls[j]);
        assert WillResolve(s'.At(j));
      }
    }
  }
}
