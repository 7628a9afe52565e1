/**
 The lightning receive listener: a durable cursor over CLN's pay_index sequence, any
 number of listeners and replay() calls at once, and credit()'s set-if-absent claim.

 A step is one await resolving. paid[k] is the settlement with pay_index k + 1, so
 waitanyinvoice(c) answers with paid[c]. A process may throw, and all processes may die,
 at any await; the lock inside credit() may expire at any time, so it promises nothing.
 CLN pays a request at most once and credit() uses the preimage as its ref.
 */
module Listener {
  import opened Options
  import R = Runs

  /** mint: the label marks an invoice of the ecash mint. */
  datatype Paid = Paid(preimage: Option<nat>, request: nat, mint: bool)

  /** A stored payment: an external receipt, or a record of an internal send to the same request. */
  datatype Record = External(request: nat, preimage: nat) | Internal(request: nat)

  /**
   What may go wrong around a settlement:
     lossy       tbCredit may throw, or the process die, between the claim and the ledger write
     doublePaid  CLN may settle a request for which an internal send has stored a record, be it
                 only debit()'s
     reused      two settlements may carry one preimage, as a merchant's own preimage allows
   */
  datatype Faults = Faults(lossy: bool, doublePaid: bool, reused: bool)

  /** Where a listener (or a replay, which never commits) is suspended. */
  datatype Pc =
    | Idle
    | Waiting(epoch: nat, from: nat)
    | LookInvoice(k: nat, replay: bool)
    | LookUser(k: nat, replay: bool)
    | LookPayment(k: nat, replay: bool)
    | Lock(k: nat, replay: bool)
    | Point(k: nat, replay: bool, id: nat)
    | Claim(k: nat, replay: bool, id: nat)
    | Ledger(k: nat, replay: bool, id: nat)
    | Persist(k: nat, replay: bool, id: nat)
    | Recheck(k: nat)
    | RecheckClaim(k: nat)
    | Commit(k: nat)
  {
    predicate InCredit() { Point? || Claim? || Ledger? || Persist? }

    predicate Replaying() {
      (LookInvoice? || LookUser? || LookPayment? || Lock? || InCredit()) && replay
    }
  }

  /**
   Durable: cursor, pointers, records, claims, locks, credits; credits lists the preimages
   tbCredit was called for, credited the indices. issued[id] is the request payment id was generated for. skipped
   remembers the indices some listener put in a skip class (no preimage, mint-owned, no
   invoice, no user). An internal send writes its pointer and then its record once in debit()
   and again in credit(): writing holds the ids still to be stored, sent the requests that
   have had one stored.
   */
  datatype State = State(
    paid: seq<Paid>, cursor: nat, epoch: nat,
    pointers: map<nat, nat>, records: map<nat, Record>, issued: seq<nat>,
    claims: set<nat>, locks: set<nat>, credits: seq<nat>, credited: set<nat>,
    skipped: set<nat>, writing: set<nat>, sent: set<nat>, procs: map<nat, Pc>)
  {
    function At(i: nat): Pc { if i in procs then procs[i] else Idle }

    function Goto(i: nat, pc: Pc): State { this.(procs := procs[i := pc]) }

    function Unlock(k: nat): State requires k < |paid| { this.(locks := locks - {paid[k].request}) }

    /** getPayment: the record the request's pointer leads to. */
    predicate Found(request: nat) {
      request in pointers && pointers[request] in records
    }
  }

  /** A process's awaits outside credit(). */
  datatype LookStep =
    | Listen                               // a listener starts and reads the cursor
    | Replay(index: nat)
    | Receive
    | InvoiceAnswers(found: bool)
    | UserAnswers(found: bool)
    | PaymentAnswers
    | Rechecked
    | ClaimRechecked

  /** Its awaits inside credit(). */
  datatype CreditStep =
    | Skips                                // no invoice, or no user
    | LockAnswers
    | PointerWritten
    | ClaimAnswers
    | Credited
    | Persisted

  datatype Step =
    | Pay(p: Paid)                         // CLN settles another invoice
    | InternalPoints(request: nat)         // debit() or credit() of an internal send writes its pointer
    | InternalStores(id: nat)              // and its record
    | Recycle                              // the watchdog bumps the epoch
    | LockExpires(request: nat)
    | Look(i: nat, l: LookStep)
    | Credit(i: nat, c: CreditStep)
    | Committed(i: nat)
    | Throw(i: nat)
    | Crash

  predicate Init(s: State) {
    s == State([], 0, 0, map[], map[], [], {}, {}, [], {}, {}, {}, {}, map[])
  }

  /** The process leaves credit(): a replay is over, a listener checks what was stored. */
  function LeaveCredit(s: State, i: nat, k: nat, replay: bool): State
    requires k < |s.paid|
  {
    s.Unlock(k).Goto(i, if replay then Idle else Recheck(k))
  }

  /** The settlement is in a skip class. */
  function Skip(s: State, i: nat, k: nat, replay: bool): State {
    if replay then s.Goto(i, Idle) else s.(skipped := s.skipped + {k}).Goto(i, Commit(k))
  }

  predicate LookNext(s: State, i: nat, l: LookStep, s': State) {
    var pc := s.At(i);
    match l
    case Listen => pc.Idle? && s' == s.Goto(i, Waiting(s.epoch, s.cursor))
    case Replay(k) =>
      && pc.Idle? && k < |s.paid|
      && s' == s.Goto(i, if s.paid[k].preimage.None? then Idle else LookInvoice(k, true))
    case Receive =>
      && pc.Waiting? && pc.from < |s.paid|
      && s' == if pc.epoch != s.epoch then s.Goto(i, Idle)
               else if s.paid[pc.from].preimage.None? || s.paid[pc.from].mint
               then Skip(s, i, pc.from, false)
               else s.Goto(i, LookInvoice(pc.from, false))
    case InvoiceAnswers(found) =>
      && pc.LookInvoice?
      && s' == if !found then Skip(s, i, pc.k, pc.replay)
               else s.Goto(i, if pc.replay then LookPayment(pc.k, true) else LookUser(pc.k, false))
    case UserAnswers(found) =>
      && pc.LookUser?
      && s' == if !found then Skip(s, i, pc.k, pc.replay)
               else s.Goto(i, LookPayment(pc.k, pc.replay))
    case PaymentAnswers =>
      && pc.LookPayment? && pc.k < |s.paid|
      && s' == s.Goto(i, if !s.Found(s.paid[pc.k].request) then Lock(pc.k, pc.replay)
                         else if pc.replay then Idle else Commit(pc.k))
    case Rechecked =>
      && pc.Recheck? && pc.k < |s.paid|
      && s' == s.Goto(i, if s.Found(s.paid[pc.k].request) then Commit(pc.k) else RecheckClaim(pc.k))
    case ClaimRechecked =>
      && pc.RecheckClaim? && pc.k < |s.paid| && s.paid[pc.k].preimage.Some?
      && s' == s.Goto(i, if s.paid[pc.k].preimage.value in s.claims then Commit(pc.k) else Idle)
  }

  predicate CreditNext(s: State, i: nat, c: CreditStep, s': State) {
    var pc := s.At(i);
    && (pc.Lock? || pc.InCredit()) && pc.k < |s.paid| && s.paid[pc.k].preimage.Some?
    && var k, replay := pc.k, pc.replay;
    var request, preimage := s.paid[k].request, s.paid[k].preimage.value;
    match c
    case Skips =>
      && (pc.Lock? || pc.Point?)
      && s' == if pc.Lock? then s.Goto(i, if replay then Idle else Recheck(k))
               else LeaveCredit(s, i, k, replay)
    case LockAnswers =>
      && pc.Lock?
      && s' == if request in s.locks then s.Goto(i, Idle)
               else s.(locks := s.locks + {request}, issued := s.issued + [request])
                     .Goto(i, Point(k, replay, |s.issued|))
    case PointerWritten =>
      && pc.Point?
      && s' == s.(pointers := s.pointers[request := pc.id]).Goto(i, Claim(k, replay, pc.id))
    case ClaimAnswers =>
      && pc.Claim?
      && s' == if preimage in s.claims then LeaveCredit(s, i, k, replay)
               else s.(claims := s.claims + {preimage}).Goto(i, Ledger(k, replay, pc.id))
    case Credited =>
      && pc.Ledger?
      && s' == s.(credits := s.credits + [preimage], credited := s.credited + {k}).Goto(i, Persist(k, replay, pc.id))
    case Persisted =>
      && pc.Persist?
      && s' == LeaveCredit(s.(records := s.records[pc.id := External(request, preimage)]), i, k, replay)
  }

  predicate Next(f: Faults, s: State, step: Step, s': State) {
    match step
    case Pay(p) =>
      && (forall k :: 0 <= k < |s.paid| ==> s.paid[k].request != p.request)
      && (f.doublePaid || p.request !in s.sent)
      && (f.reused || forall k :: 0 <= k < |s.paid| && p.preimage.Some? ==> s.paid[k].preimage != p.preimage)
      && s' == s.(paid := s.paid + [p])
    case InternalPoints(request) =>
      var id := |s.issued|;
      s' == s.(pointers := s.pointers[request := id], issued := s.issued + [request], writing := s.writing + {id})
    case InternalStores(id) =>
      && id in s.writing && id < |s.issued|
      && (f.doublePaid || forall k :: 0 <= k < |s.paid| ==> s.paid[k].request != s.issued[id])
      && s' == s.(records := s.records[id := Internal(s.issued[id])], writing := s.writing - {id},
                  sent := s.sent + {s.issued[id]})
    case Recycle => s' == s.(epoch := s.epoch + 1)
    case LockExpires(request) => s' == s.(locks := s.locks - {request})
    case Look(i, l) => LookNext(s, i, l, s')
    case Credit(i, c) => CreditNext(s, i, c, s')
    case Committed(i) => s.At(i).Commit? && s' == s.(cursor := s.At(i).k + 1).Goto(i, Idle)
    case Throw(i) =>
      && (s.At(i).Ledger? ==> f.lossy)
      && (s.At(i).InCredit() ==> s.At(i).k < |s.paid|)
      && s' == (if s.At(i).InCredit() then s.Unlock(s.At(i).k) else s).Goto(i, Idle)
    case Crash =>
      && (f.lossy || forall i :: i in s.procs ==> !s.procs[i].Ledger?)
      && s' == s.(procs := map[], writing := {})
  }

  ghost function Steps(f: Faults): (State, Step, State) -> bool { (s, k, s') => Next(f, s, k, s') }

  ghost predicate Run(f: Faults, ss: seq<State>, steps: seq<Step>) { R.Run(Init, Steps(f), ss, steps) }

  // ---- The invariant --------------------------------------------------------

  /** The settlement is accounted for: skipped, claimed, or an internal send stored a record for its request. */
  ghost predicate Handled(s: State, k: nat)
    requires k < |s.paid|
  {
    || k in s.skipped
    || (s.paid[k].preimage.Some? && s.paid[k].preimage.value in s.claims)
    || s.paid[k].request in s.sent
  }

  ghost predicate HandledBelow(s: State, k: nat) {
    k <= |s.paid| && forall j :: 0 <= j < k ==> Handled(s, j)
  }

  ghost predicate PcInv(s: State, pc: Pc) {
    if pc.Idle? then true
    else if pc.Waiting? then HandledBelow(s, pc.from)
    else if pc.Commit? then HandledBelow(s, pc.k + 1)
    else
      && pc.k < |s.paid| && s.paid[pc.k].preimage.Some?
      && (!pc.Replaying() ==> HandledBelow(s, pc.k))
      && (pc.InCredit() ==> pc.id < |s.issued| && s.issued[pc.id] == s.paid[pc.k].request)
      && (pc.Ledger? || pc.Persist? ==> s.paid[pc.k].preimage.value in s.claims)
      && (pc.Ledger? ==> s.paid[pc.k].preimage.value !in s.credits)
      && (pc.Persist? ==> s.paid[pc.k].preimage.value in s.credits)
  }

  ghost predicate RecordInv(s: State, id: nat, r: Record) {
    && id < |s.issued| && s.issued[id] == r.request
    && match r
       case Internal(request) => request in s.sent
       case External(request, preimage) => preimage in s.claims && ReceivedFor(s, request, preimage)
  }

  ghost predicate ReceivedFor(s: State, request: nat, preimage: nat) {
    exists k :: 0 <= k < |s.paid| && s.paid[k].request == request && s.paid[k].preimage == Some(preimage)
  }

  ghost predicate StoreInv(s: State) {
    && (forall j, k :: 0 <= j < k < |s.paid| ==> s.paid[j].request != s.paid[k].request)
    && (forall r :: r in s.pointers ==> s.pointers[r] < |s.issued| && s.issued[s.pointers[r]] == r)
    && (forall id :: id in s.records ==> RecordInv(s, id, s.records[id]))
    && (forall n :: 0 <= n < |s.credits| ==> s.credits[n] in s.claims)
    && (forall m, n :: 0 <= m < n < |s.credits| ==> s.credits[m] != s.credits[n])
  }

  /** The process is between winning this preimage's claim and crediting it. */
  predicate Crediting(s: State, pc: Pc, preimage: nat) {
    pc.Ledger? && pc.k < |s.paid| && s.paid[pc.k].preimage == Some(preimage)
  }

  /** At most one process is crediting a preimage. */
  ghost predicate Exclusive(s: State) {
    forall i, j, p | i in s.procs && j in s.procs && Crediting(s, s.procs[i], p) ::
      Crediting(s, s.procs[j], p) ==> i == j
  }

  ghost predicate Inv(s: State) {
    && StoreInv(s)
    && HandledBelow(s, s.cursor)
    && (forall i :: i in s.procs ==> PcInv(s, s.procs[i]))
    && Exclusive(s)
  }

  /** What any process relies on about the store, once true, stays true. */
  predicate Grows(s: State, s': State) {
    && s.paid <= s'.paid && s.issued <= s'.issued
    && s.claims <= s'.claims && s.credits <= s'.credits
    && s.skipped <= s'.skipped && s.sent <= s'.sent
  }

  lemma HandledFrame(s: State, s': State, k: nat)
    requires HandledBelow(s, k) && Grows(s, s')
    ensures HandledBelow(s', k)
  {
    forall j | 0 <= j < k ensures Handled(s', j) {
      assert Handled(s, j);
    }
  }

  /** A process keeps its footing as long as its own preimage is not credited by another. */
  lemma PcFrame(s: State, s': State, pc: Pc)
    requires PcInv(s, pc) && Grows(s, s')
    requires pc.Ledger? ==> s'.paid[pc.k].preimage.value !in s'.credits
    ensures PcInv(s', pc)
  {
    if pc.Waiting? {
      HandledFrame(s, s', pc.from);
    } else if pc.Commit? {
      HandledFrame(s, s', pc.k + 1);
    } else if !pc.Idle? && !pc.Replaying() {
      HandledFrame(s, s', pc.k);
    }
  }

  /** One process moves to pc and no other is disturbed. */
  lemma GotoInv(s: State, s': State, i: nat, pc: Pc)
    requires Inv(s) && Grows(s, s') && StoreInv(s') && HandledBelow(s', s'.cursor)
    requires s'.procs == s.procs[i := pc] && PcInv(s', pc)
    requires forall j :: j in s.procs && j != i && s.procs[j].Ledger? ==>
                           s'.paid[s.procs[j].k].preimage.value !in s'.credits
    requires pc.Ledger? ==> forall j :: j in s.procs && j != i ==>
                                          !Crediting(s, s.procs[j], s'.paid[pc.k].preimage.value)
    ensures Inv(s')
  {
    forall j | j in s'.procs ensures PcInv(s', s'.procs[j]) {
      if j != i {
        assert PcInv(s, s.procs[j]);
        PcFrame(s, s', s.procs[j]);
      }
    }
    forall j, l, p | j in s'.procs && l in s'.procs && Crediting(s', s'.procs[j], p) && Crediting(s', s'.procs[l], p)
      ensures j == l
    {
      assert j != i ==> PcInv(s, s.procs[j]) && Crediting(s, s.procs[j], p);
      assert l != i ==> PcInv(s, s.procs[l]) && Crediting(s, s.procs[l], p);
    }
  }

  /** A found record settles the question: its request was credited or sent to internally. */
  lemma FoundHandled(s: State, k: nat)
    requires StoreInv(s) && k < |s.paid| && s.Found(s.paid[k].request)
    ensures Handled(s, k)
  {
    var request := s.paid[k].request;
    var r := s.records[s.pointers[request]];
    assert RecordInv(s, s.pointers[request], r);
    if r.External? {
      var j :| 0 <= j < |s.paid| && s.paid[j].request == request && s.paid[j].preimage == Some(r.preimage);
      assert j == k;
    }
  }

  /** Only the process moved: the store, its claims and its credits are as they were. */
  predicate SameStore(s: State, s': State) {
    && s'.paid == s.paid && s'.cursor == s.cursor && s'.pointers == s.pointers
    && s'.records == s.records && s'.issued == s.issued && s'.claims == s.claims
    && s'.credits == s.credits && s.skipped <= s'.skipped && s'.sent == s.sent
  }

  lemma MoveInv(s: State, s': State, i: nat, pc: Pc)
    requires Inv(s) && SameStore(s, s') && s'.procs == s.procs[i := pc]
    requires PcInv(s', pc) && !pc.Ledger?
    ensures Inv(s')
  {
    assert StoreInv(s') by {
      forall id | id in s'.records ensures RecordInv(s', id, s'.records[id]) {
        assert RecordInv(s, id, s.records[id]);
      }
    }
    HandledFrame(s, s', s.cursor);
    forall j | j in s.procs && s.procs[j].Ledger?
      ensures s'.paid[s.procs[j].k].preimage.value !in s'.credits
    {
      assert PcInv(s, s.procs[j]);
    }
    GotoInv(s, s', i, pc);
  }

  lemma LookShape(s: State, i: nat, l: LookStep, s': State)
    requires LookNext(s, i, l, s')
    ensures SameStore(s, s') && s'.procs == s.procs[i := s'.At(i)]
    ensures !s'.At(i).Ledger? && !s'.At(i).InCredit()
  {
  }

  /** A listener commits an index only once it is handled, on top of a handled prefix. */
  lemma LookPc(s: State, i: nat, l: LookStep, s': State)
    requires Inv(s) && LookNext(s, i, l, s') && SameStore(s, s')
    ensures PcInv(s', s'.At(i))
  {
    var pc, pc' := s.At(i), s'.At(i);
    assert PcInv(s, pc);
    if (l.PaymentAnswers? || l.Rechecked?) && pc'.Commit? {
      FoundHandled(s, pc.k);
    }
    if pc'.Commit? {
      HandledFrame(s, s', pc'.k);
    } else if pc'.Waiting? {
      HandledFrame(s, s', s.cursor);
    } else if !pc'.Idle? && !pc'.Replaying() {
      HandledFrame(s, s', pc'.k);
    }
  }

  lemma LookInv(s: State, i: nat, l: LookStep, s': State)
    requires Inv(s) && LookNext(s, i, l, s')
    ensures Inv(s')
  {
    LookShape(s, i, l, s');
    LookPc(s, i, l, s');
    MoveInv(s, s', i, s'.At(i));
  }

  /** The store's own invariant, over what credit() writes. */
  lemma CreditStore(s: State, i: nat, c: CreditStep, s': State)
    requires Inv(s) && CreditNext(s, i, c, s')
    ensures Grows(s, s') && StoreInv(s') && s'.cursor == s.cursor
  {
    var pc := s.procs[i];
    assert PcInv(s, pc);
    forall id | id in s'.records ensures RecordInv(s', id, s'.records[id]) {
      if id in s.records {
        assert RecordInv(s, id, s.records[id]);
      }
      if c.Persisted? && id == pc.id {
        assert s'.paid[pc.k].request == s'.paid[pc.k].request;
      } else {
        assert s'.records[id] == s.records[id];
      }
    }
  }

  lemma CreditPc(s: State, i: nat, c: CreditStep, s': State)
    requires Inv(s) && CreditNext(s, i, c, s') && Grows(s, s')
    ensures s'.procs == s.procs[i := s'.At(i)] && PcInv(s', s'.At(i))
  {
    var pc' := s'.At(i);
    assert PcInv(s, s.procs[i]);
    if !pc'.Idle? && !pc'.Replaying() {
      HandledFrame(s, s', pc'.k);
    }
  }

  /** The claim keeps one preimage's ledger write to one process. */
  lemma CreditAlone(s: State, i: nat, c: CreditStep, s': State, j: nat)
    requires Inv(s) && CreditNext(s, i, c, s') && j in s.procs && j != i
    ensures s.procs[j].Ledger? ==> s.procs[j].k < |s'.paid| && s'.paid[s.procs[j].k].preimage.Some?
                                   && s'.paid[s.procs[j].k].preimage.value !in s'.credits
    ensures s'.At(i).Ledger? ==> !Crediting(s, s.procs[j], s.paid[s.procs[i].k].preimage.value)
  {
    var pc, other := s.procs[i], s.procs[j];
    assert PcInv(s, pc) && PcInv(s, other);
    var preimage := s.paid[pc.k].preimage.value;
    if c.Credited? {
      assert Crediting(s, pc, preimage);
      assert !Crediting(s, other, preimage);
    }
  }

  lemma CreditInv(s: State, i: nat, c: CreditStep, s': State)
    requires Inv(s) && CreditNext(s, i, c, s')
    ensures Inv(s')
  {
    CreditStore(s, i, c, s');
    CreditPc(s, i, c, s');
    HandledFrame(s, s', s.cursor);
    forall j | j in s.procs && j != i
      ensures s.procs[j].Ledger? ==> s.procs[j].k < |s'.paid| && s'.paid[s.procs[j].k].preimage.Some?
                                     && s'.paid[s.procs[j].k].preimage.value !in s'.credits
      ensures s'.At(i).Ledger? ==> !Crediting(s, s.procs[j], s.paid[s.procs[i].k].preimage.value)
    {
      CreditAlone(s, i, c, s', j);
    }
    assert s'.At(i).Ledger? ==> s'.At(i).k == s.procs[i].k;
    GotoInv(s, s', i, s'.At(i));
  }

  lemma SharedInv(s: State, s': State)
    requires Inv(s) && Grows(s, s') && StoreInv(s') && HandledBelow(s', s'.cursor)
    requires s'.procs == s.procs && s'.credits == s.credits
    ensures Inv(s')
  {
    forall i | i in s.procs ensures PcInv(s', s.procs[i]) {
      assert PcInv(s, s.procs[i]);
      PcFrame(s, s', s.procs[i]);
    }
    forall i, j, p | i in s.procs && j in s.procs && Crediting(s', s.procs[i], p) && Crediting(s', s.procs[j], p)
      ensures i == j
    {
      assert PcInv(s, s.procs[i]) && PcInv(s, s.procs[j]);
      assert Crediting(s, s.procs[i], p) && Crediting(s, s.procs[j], p);
    }
  }

  /** What CLN, an internal send, the watchdog and a lock's expiry do. */
  lemma OutsideStore(f: Faults, s: State, step: Step, s': State)
    requires Inv(s) && Next(f, s, step, s')
    requires step.Pay? || step.InternalPoints? || step.InternalStores? || step.Recycle? || step.LockExpires?
    ensures Grows(s, s') && StoreInv(s') && HandledBelow(s', s'.cursor)
  {
    HandledFrame(s, s', s.cursor);
    forall id | id in s'.records ensures RecordInv(s', id, s'.records[id]) {
      if id in s.records && s'.records[id] == s.records[id] {
        assert RecordInv(s, id, s.records[id]);
        var r := s.records[id];
        if r.External? {
          var k :| 0 <= k < |s.paid| && s.paid[k].request == r.request && s.paid[k].preimage == Some(r.preimage);
          assert s'.paid[k] == s.paid[k];
        }
      }
    }
  }

  lemma NextInv(f: Faults, s: State, step: Step, s': State)
    requires Inv(s) && Next(f, s, step, s')
    ensures Inv(s')
  {
    match step
    case Look(i, l) => LookInv(s, i, l, s');
    case Credit(i, c) => CreditInv(s, i, c, s');
    case Committed(i) => CommitInv(s, i, s');
    case Throw(i) => assert PcInv(s, s.At(i)); MoveInv(s, s', i, Idle);
    case Crash => CrashInv(s, s');
    case _ => OutsideStore(f, s, step, s'); SharedInv(s, s');
  }

  lemma CommitInv(s: State, i: nat, s': State)
    requires Inv(s) && s.At(i).Commit? && s' == s.(cursor := s.At(i).k + 1).Goto(i, Idle)
    ensures Inv(s')
  {
    var t := s.(cursor := s'.cursor);
    assert PcInv(s, s.At(i));
    HandledFrame(s, t, t.cursor);
    forall id | id in t.records ensures RecordInv(t, id, t.records[id]) {
      assert RecordInv(s, id, s.records[id]);
    }
    SharedInv(s, t);
    MoveInv(t, s', i, Idle);
  }

  lemma CrashInv(s: State, s': State)
    requires Inv(s) && s' == s.(procs := map[], writing := {})
    ensures Inv(s')
  {
    HandledFrame(s, s', s.cursor);
    forall id | id in s'.records ensures RecordInv(s', id, s'.records[id]) {
      assert RecordInv(s, id, s.records[id]);
    }
  }

  // ---- Whole runs -----------------------------------------------------------

  lemma {:induction false} RunInv(f: Faults, ss: seq<State>, steps: seq<Step>, n: nat)
    requires Run(f, ss, steps) && n < |ss|
    ensures forall m :: 0 <= m <= n ==> Inv(ss[m])
  {
    if n > 0 {
      RunInv(f, ss, steps, n - 1);
      NextInv(f, ss[n - 1], steps[n - 1], ss[n]);
    }
  }

  /**
   With any listeners, replays, crashes and expired locks: every index at or below the
   stored cursor is accounted for, and tbCredit is called at most once per preimage.
   */
  lemma PrefixHandled(f: Faults, ss: seq<State>, steps: seq<Step>, n: nat)
    requires Run(f, ss, steps) && n < |ss|
    ensures ss[n].cursor <= |ss[n].paid|
    ensures forall k :: 0 <= k < ss[n].cursor ==> Handled(ss[n], k)
    ensures forall p :: multiset(ss[n].credits)[p] <= 1
  {
    RunInv(f, ss, steps, n);
    forall p ensures multiset(ss[n].credits)[p] <= 1 {
      DistinctOnce(ss[n].credits, p);
    }
  }

  /** A lookup finds no invoice, or no user, for settlement k. */
  predicate Unknown(s: State, step: Step, k: nat) {
    && step.Look? && (step.l == InvoiceAnswers(false) || step.l == UserAnswers(false))
    && var pc := s.At(step.i);
    (pc.LookInvoice? || pc.LookUser?) && pc.k == k
  }

  lemma SkipReason(f: Faults, s: State, step: Step, s': State, k: nat)
    requires Next(f, s, step, s') && k in s'.skipped && k !in s.skipped
    ensures Unknown(s, step, k) || (k < |s'.paid| && (s'.paid[k].preimage.None? || s'.paid[k].mint))
  {
    match step
    case Look(i, l) => LookSkips(s, i, l, s', k);
    case Credit(i, c) =>
    case _ =>
  }

  lemma LookSkips(s: State, i: nat, l: LookStep, s': State, k: nat)
    requires LookNext(s, i, l, s') && k in s'.skipped && k !in s.skipped
    ensures Unknown(s, Look(i, l), k) || (k < |s'.paid| && (s'.paid[k].preimage.None? || s'.paid[k].mint))
  {
  }

  lemma PaidGrows(f: Faults, s: State, step: Step, s': State)
    requires Next(f, s, step, s')
    ensures s.paid <= s'.paid
  {
  }

  /** Nothing is skipped but what carries no preimage, is the mint's, or is known to nobody. */
  lemma {:induction false} SkippedOnPurpose(f: Faults, ss: seq<State>, steps: seq<Step>, n: nat, k: nat)
    requires Run(f, ss, steps) && n < |ss| && k in ss[n].skipped
    ensures (k < |ss[n].paid| && (ss[n].paid[k].preimage.None? || ss[n].paid[k].mint))
            || exists m :: 0 <= m < n && Unknown(ss[m], steps[m], k)
  {
    hide Next, Unknown;
    assert n > 0;
    PaidGrows(f, ss[n - 1], steps[n - 1], ss[n]);
    if k in ss[n - 1].skipped {
      SkippedOnPurpose(f, ss, steps, n - 1, k);
    } else {
      SkipReason(f, ss[n - 1], steps[n - 1], ss[n], k);
    }
  }

  /** A listener at work on a settlement has seen that it is not the mint's. */
  ghost predicate NoMint(s: State) {
    && (forall k :: k in s.credited ==> k < |s.paid| && !s.paid[k].mint)
    && (forall i :: i in s.procs ==> AtWork(s.procs[i]) ==> s.procs[i].k < |s.paid| && !s.paid[s.procs[i].k].mint)
  }

  predicate AtWork(pc: Pc) { pc.LookInvoice? || pc.LookUser? || pc.LookPayment? || pc.Lock? || pc.InCredit() }

  lemma NoMintNext(f: Faults, s: State, step: Step, s': State)
    requires NoMint(s) && Next(f, s, step, s') && !(step.Look? && step.l.Replay?)
    ensures NoMint(s')
  {
    match step
    case Look(i, l) => LookNoMint(s, i, l, s');
    case Credit(i, c) => CreditNoMint(s, i, c, s');
    case _ =>
  }

  lemma LookNoMint(s: State, i: nat, l: LookStep, s': State)
    requires NoMint(s) && LookNext(s, i, l, s') && !l.Replay?
    ensures NoMint(s')
  {
    LookShape(s, i, l, s');
    LookAhead(s, i, l, s');
    hide LookNext;
  }

  lemma LookAhead(s: State, i: nat, l: LookStep, s': State)
    requires NoMint(s) && LookNext(s, i, l, s') && !l.Replay?
    ensures s'.credited == s.credited
    ensures AtWork(s'.At(i)) ==> s'.At(i).k < |s'.paid| && !s'.paid[s'.At(i).k].mint
  {
    assert i in s.procs || s.At(i).Idle?;
  }

  lemma CreditNoMint(s: State, i: nat, c: CreditStep, s': State)
    requires NoMint(s) && CreditNext(s, i, c, s')
    ensures NoMint(s')
  {
    assert i in s.procs && AtWork(s.procs[i]);
  }

  /** Without replays, which do not look at the label, no settlement of the mint's is ever credited. */
  lemma {:induction false} MintLeftAlone(f: Faults, ss: seq<State>, steps: seq<Step>, n: nat)
    requires Run(f, ss, steps) && n < |ss|
    requires forall m :: 0 <= m < n ==> !(steps[m].Look? && steps[m].l.Replay?)
    ensures NoMint(ss[n])
  {
    hide Next, NoMint;
    if n == 0 {
      NoneYet(ss[0]);
    } else {
      MintLeftAlone(f, ss, steps, n - 1);
      NoMintNext(f, ss[n - 1], steps[n - 1], ss[n]);
    }
  }

  lemma NoneYet(s: State)
    requires Init(s)
    ensures NoMint(s)
  {
  }

  lemma {:induction false} DistinctOnce(xs: seq<nat>, p: nat)
    requires forall m, n :: 0 <= m < n < |xs| ==> xs[m] != xs[n]
    ensures multiset(xs)[p] <= 1
  {
    if xs != [] {
      var last := |xs| - 1;
      DistinctOnce(xs[..last], p);
      assert xs == xs[..last] + [xs[last]];
      if xs[last] == p {
        assert p !in xs[..last];
      }
    }
  }

  // ---- Which settlements are lost -------------------------------------------

  /** A settlement behind the cursor that was not skipped on purpose, is not and will not be credited. */
  ghost predicate Lost(s: State, k: nat) {
    && k < s.cursor && k < |s.paid| && k !in s.skipped && k !in s.credited
    && forall i :: i in s.procs ==> !(s.procs[i].Ledger? && s.procs[i].k == k)
  }

  /** Some run loses a settlement. */
  ghost predicate Loses(f: Faults) { exists s, k: nat :: Reachable(f, s) && Lost(s, k) }

  /** Nothing takes a settlement's credit away from it. */
  predicate Orderly(f: Faults) { !f.lossy && !f.doublePaid && !f.reused }

  /** Some settlement with this preimage was credited. */
  ghost predicate Honoured(s: State, p: nat) {
    exists k :: k in s.credited && k < |s.paid| && s.paid[k].preimage == Some(p)
  }

  /** Every claimed preimage has been credited or is being credited. */
  ghost predicate ClaimsPaid(s: State) {
    forall p :: p in s.claims ==>
      Honoured(s, p) || exists i :: i in s.procs && Crediting(s, s.procs[i], p)
  }

  /** A preimage tells its settlement, and no internal send stored a record for a settled request. */
  ghost predicate PaidOnce(s: State) {
    && (forall j, k :: 0 <= j < k < |s.paid| && s.paid[j].preimage.Some? ==>
          s.paid[j].preimage != s.paid[k].preimage)
    && (forall k :: 0 <= k < |s.paid| ==> s.paid[k].request !in s.sent)
  }

  lemma PaidOnceNext(f: Faults, s: State, step: Step, s': State)
    requires Orderly(f) && PaidOnce(s) && Next(f, s, step, s')
    ensures PaidOnce(s')
  {
    match step
    case Look(i, l) => LookShape(s, i, l, s');
    case Credit(i, c) =>
    case _ =>
  }

  lemma CreditedGrows(f: Faults, s: State, step: Step, s': State)
    requires Next(f, s, step, s')
    ensures s.credited <= s'.credited && s.paid <= s'.paid
  {
    match step
    case Look(i, l) => LookShape(s, i, l, s');
    case Credit(i, c) =>
    case _ =>
  }

  lemma HonouredStays(s: State, s': State, p: nat)
    requires Honoured(s, p) && s.credited <= s'.credited && s.paid <= s'.paid
    ensures Honoured(s', p)
  {
    var k :| k in s.credited && k < |s.paid| && s.paid[k].preimage == Some(p);
    assert s'.paid[k] == s.paid[k];
  }

  /** A process that is crediting a preimage does nothing else first. */
  lemma CreditingKept(f: Faults, s: State, step: Step, s': State, i: nat, p: nat)
    requires !f.lossy && Next(f, s, step, s') && i in s.procs && Crediting(s, s.procs[i], p)
    ensures Honoured(s', p) || (i in s'.procs && Crediting(s', s'.procs[i], p))
  {
    match step
    case Look(j, l) => assert j != i; LookShape(s, j, l, s');
    case Credit(j, c) =>
      if j == i {
        assert s.procs[i].k in s'.credited;
      } else {
        CreditOther(s, j, c, s', i);
      }
    case Throw(j) => assert j != i;
    case Committed(j) => assert j != i;
    case _ =>
  }

  lemma CreditOther(s: State, j: nat, c: CreditStep, s': State, i: nat)
    requires CreditNext(s, j, c, s') && i in s.procs && i != j
    ensures s'.paid == s.paid && i in s'.procs && s'.procs[i] == s.procs[i]
  {
  }

  lemma ClaimStarts(f: Faults, s: State, step: Step, s': State, p: nat)
    requires Next(f, s, step, s') && p in s'.claims && p !in s.claims
    ensures exists i :: i in s'.procs && Crediting(s', s'.procs[i], p)
  {
    assert step.Credit? && Crediting(s', s'.procs[step.i], p);
  }

  lemma ClaimsPaidNext(f: Faults, s: State, step: Step, s': State)
    requires !f.lossy && ClaimsPaid(s) && Next(f, s, step, s')
    ensures ClaimsPaid(s')
  {
    hide Next, Honoured;
    CreditedGrows(f, s, step, s');
    forall p | p in s'.claims
      ensures Honoured(s', p) || exists i :: i in s'.procs && Crediting(s', s'.procs[i], p)
    {
      if p !in s.claims {
        ClaimStarts(f, s, step, s', p);
      } else if Honoured(s, p) {
        HonouredStays(s, s', p);
      } else {
        var i :| i in s.procs && Crediting(s, s.procs[i], p);
        CreditingKept(f, s, step, s', i, p);
      }
    }
  }

  lemma {:induction false} RunPaid(f: Faults, ss: seq<State>, steps: seq<Step>, n: nat)
    requires Orderly(f) && Run(f, ss, steps) && n < |ss|
    ensures ClaimsPaid(ss[n]) && PaidOnce(ss[n])
  {
    hide Next;
    if n > 0 {
      RunPaid(f, ss, steps, n - 1);
      ClaimsPaidNext(f, ss[n - 1], steps[n - 1], ss[n]);
      PaidOnceNext(f, ss[n - 1], steps[n - 1], ss[n]);
    }
  }

  /** Behind the cursor, an orderly settlement is skipped on purpose, credited, or being credited. */
  lemma NotLost(s: State, k: nat)
    requires Inv(s) && ClaimsPaid(s) && PaidOnce(s)
    ensures !Lost(s, k)
  {
    if k < s.cursor && k < |s.paid| && k !in s.skipped {
      assert Handled(s, k);
      var p := s.paid[k].preimage.value;
      if Honoured(s, p) {
        var j :| j in s.credited && j < |s.paid| && s.paid[j].preimage == Some(p);
        assert j == k;
      } else {
        var i :| i in s.procs && Crediting(s, s.procs[i], p);
        assert s.procs[i].k == k;
      }
    }
  }

  /** Some run reaches s. */
  ghost predicate Reachable(f: Faults, s: State) { R.Reachable(Init, Steps(f), s) }

  lemma Then(f: Faults, s: State, step: Step, s': State)
    requires Reachable(f, s) && Next(f, s, step, s')
    ensures Reachable(f, s')
  {
    R.Then(Init, Steps(f), s, step, s');
  }

  lemma Looks(f: Faults, s: State, i: nat, l: LookStep, s': State)
    requires Reachable(f, s) && LookNext(s, i, l, s')
    ensures Reachable(f, s')
  {
    Then(f, s, Look(i, l), s');
  }

  lemma Credits(f: Faults, s: State, i: nat, c: CreditStep, s': State)
    requires Reachable(f, s) && CreditNext(s, i, c, s')
    ensures Reachable(f, s')
  {
    Then(f, s, Credit(i, c), s');
  }

  const NEW := State([], 0, 0, map[], map[], [], {}, {}, [], {}, {}, {}, {}, map[])

  lemma Starts(f: Faults)
    ensures Reachable(f, NEW)
  {
    R.Starts(Init, Steps(f), NEW);
  }

  // ---- A listener left to itself ---------------------------------------------

  /** Listener i is idle, and the next settlement is one of the server's own. */
  predicate Due(s: State, i: nat) {
    && s.cursor < |s.paid| && s.paid[s.cursor].preimage.Some? && !s.paid[s.cursor].mint
    && s.At(i).Idle?
  }

  /** The next settlement's request has no record, and nobody is crediting it. */
  predicate Unrecorded(s: State)
    requires s.cursor < |s.paid|
  {
    !s.Found(s.paid[s.cursor].request) && s.paid[s.cursor].request !in s.locks
  }

  /** A settlement of the mint's, or without a preimage, is left alone, and the cursor moves on. */
  lemma LeavesAlone(f: Faults, s: State, i: nat)
    requires Reachable(f, s) && s.cursor < |s.paid| && s.At(i).Idle?
    requires s.paid[s.cursor].preimage.None? || s.paid[s.cursor].mint
    ensures Reachable(f, s.(skipped := s.skipped + {s.cursor}, cursor := s.cursor + 1).Goto(i, Idle))
  {
    hide Reachable;
    var t := s.Goto(i, Waiting(s.epoch, s.cursor));
    Looks(f, s, i, Listen, t);
    var u := s.(skipped := s.skipped + {s.cursor}).Goto(i, Commit(s.cursor));
    Looks(f, t, i, Receive, u);
    Then(f, u, Committed(i), s.(skipped := s.skipped + {s.cursor}, cursor := s.cursor + 1).Goto(i, Idle));
  }

  lemma ListenToInvoice(f: Faults, s: State, i: nat)
    requires Reachable(f, s) && Due(s, i)
    ensures Reachable(f, s.Goto(i, LookInvoice(s.cursor, false)))
  {
    hide Reachable;
    Looks(f, s, i, Listen, s.Goto(i, Waiting(s.epoch, s.cursor)));
    Looks(f, s.Goto(i, Waiting(s.epoch, s.cursor)), i, Receive, s.Goto(i, LookInvoice(s.cursor, false)));
  }

  lemma ListenToLook(f: Faults, s: State, i: nat)
    requires Reachable(f, s) && Due(s, i)
    ensures Reachable(f, s.Goto(i, LookPayment(s.cursor, false)))
  {
    hide Reachable;
    ListenToInvoice(f, s, i);
    var t := s.Goto(i, LookUser(s.cursor, false));
    Looks(f, s.Goto(i, LookInvoice(s.cursor, false)), i, InvoiceAnswers(true), t);
    Looks(f, t, i, UserAnswers(true), s.Goto(i, LookPayment(s.cursor, false)));
  }

  /** A settlement whose request has a record is passed over. */
  lemma PassesRecorded(f: Faults, s: State, i: nat)
    requires Reachable(f, s) && Due(s, i) && s.Found(s.paid[s.cursor].request)
    ensures Reachable(f, s.(cursor := s.cursor + 1).Goto(i, Idle))
  {
    hide Reachable;
    ListenToLook(f, s, i);
    var t := s.Goto(i, Commit(s.cursor));
    Looks(f, s.Goto(i, LookPayment(s.cursor, false)), i, PaymentAnswers, t);
    Then(f, t, Committed(i), s.(cursor := s.cursor + 1).Goto(i, Idle));
  }

  /** The state in which listener i of s asks for the claim. */
  function Claiming(s: State, i: nat): State
    requires s.cursor < |s.paid|
  {
    var request := s.paid[s.cursor].request;
    s.(issued := s.issued + [request], locks := s.locks + {request}, pointers := s.pointers[request := |s.issued|])
     .Goto(i, Claim(s.cursor, false, |s.issued|))
  }

  lemma ListenToPoint(f: Faults, s: State, i: nat) returns (s': State)
    requires Reachable(f, s) && Due(s, i) && Unrecorded(s)
    ensures Reachable(f, s')
    ensures var request := s.paid[s.cursor].request;
            s' == s.(issued := s.issued + [request], locks := s.locks + {request})
                   .Goto(i, Point(s.cursor, false, |s.issued|))
  {
    hide Reachable;
    ListenToLook(f, s, i);
    var t := s.Goto(i, Lock(s.cursor, false));
    Looks(f, s.Goto(i, LookPayment(s.cursor, false)), i, PaymentAnswers, t);
    var request := s.paid[s.cursor].request;
    s' := s.(issued := s.issued + [request], locks := s.locks + {request})
           .Goto(i, Point(s.cursor, false, |s.issued|));
    Credits(f, t, i, LockAnswers, s');
  }

  lemma ListenToClaim(f: Faults, s: State, i: nat)
    requires Reachable(f, s) && Due(s, i) && Unrecorded(s)
    ensures Reachable(f, Claiming(s, i))
  {
    hide Reachable;
    var t := ListenToPoint(f, s, i);
    Credits(f, t, i, PointerWritten, Claiming(s, i));
  }

  /** It wins the claim. */
  lemma ListenToLedger(f: Faults, s: State, i: nat) returns (s': State)
    requires Reachable(f, s) && Due(s, i) && Unrecorded(s) && s.paid[s.cursor].preimage.value !in s.claims
    ensures Reachable(f, s')
    ensures s' == Claiming(s, i).(claims := s.claims + {s.paid[s.cursor].preimage.value})
                                .Goto(i, Ledger(s.cursor, false, |s.issued|))
  {
    hide Reachable;
    ListenToClaim(f, s, i);
    s' := Claiming(s, i).(claims := s.claims + {s.paid[s.cursor].preimage.value})
                        .Goto(i, Ledger(s.cursor, false, |s.issued|));
    Credits(f, Claiming(s, i), i, ClaimAnswers, s');
  }

  /** What crediting the next settlement adds. */
  function WithCredit(s: State): State
    requires s.cursor < |s.paid| && s.paid[s.cursor].preimage.Some?
  {
    var request, preimage, id := s.paid[s.cursor].request, s.paid[s.cursor].preimage.value, |s.issued|;
    s.(issued := s.issued + [request], pointers := s.pointers[request := id], claims := s.claims + {preimage},
       credits := s.credits + [preimage], credited := s.credited + {s.cursor},
       records := s.records[id := External(request, preimage)])
  }

  lemma ListenToRecheck(f: Faults, s: State, i: nat)
    requires Reachable(f, s) && Due(s, i) && Unrecorded(s) && s.paid[s.cursor].preimage.value !in s.claims
    ensures Reachable(f, WithCredit(s).Goto(i, Recheck(s.cursor)))
  {
    hide Reachable;
    var t := ListenToLedger(f, s, i);
    var k, preimage := s.cursor, s.paid[s.cursor].preimage.value;
    var u := t.(credits := s.credits + [preimage], credited := s.credited + {k})
              .Goto(i, Persist(k, false, |s.issued|));
    Credits(f, t, i, Credited, u);
    assert u.locks - {s.paid[k].request} == s.locks;
    Credits(f, u, i, Persisted, WithCredit(s).Goto(i, Recheck(k)));
  }

  /**
   A settlement that has no record and whose preimage is not claimed is credited, once, its
   record is stored, and the cursor moves past it.
   */
  lemma CreditsNext(f: Faults, s: State, i: nat)
    requires Reachable(f, s) && Due(s, i) && Unrecorded(s) && s.paid[s.cursor].preimage.value !in s.claims
    ensures Reachable(f, WithCredit(s).(cursor := s.cursor + 1).Goto(i, Idle))
  {
    hide Reachable;
    ListenToRecheck(f, s, i);
    var t := WithCredit(s).Goto(i, Commit(s.cursor));
    Looks(f, WithCredit(s).Goto(i, Recheck(s.cursor)), i, Rechecked, t);
    Then(f, t, Committed(i), WithCredit(s).(cursor := s.cursor + 1).Goto(i, Idle));
  }

  lemma ListenToDuplicate(f: Faults, s: State, i: nat)
    requires Reachable(f, s) && Due(s, i) && Unrecorded(s) && s.paid[s.cursor].preimage.value in s.claims
    ensures Reachable(f, Claiming(s, i).(locks := s.locks).Goto(i, Recheck(s.cursor)))
  {
    hide Reachable;
    ListenToClaim(f, s, i);
    assert Claiming(s, i).locks - {s.paid[s.cursor].request} == s.locks;
    Credits(f, Claiming(s, i), i, ClaimAnswers, Claiming(s, i).(locks := s.locks).Goto(i, Recheck(s.cursor)));
  }

  /** A settlement whose preimage is claimed already is passed over. */
  lemma PassesClaimed(f: Faults, s: State, i: nat)
    requires Reachable(f, s) && Due(s, i) && Unrecorded(s) && s.paid[s.cursor].preimage.value in s.claims
    requires |s.issued| !in s.records
    ensures Reachable(f, Claiming(s, i).(locks := s.locks, cursor := s.cursor + 1).Goto(i, Idle))
  {
    hide Reachable;
    ListenToDuplicate(f, s, i);
    var t := Claiming(s, i).(locks := s.locks);
    Looks(f, t.Goto(i, Recheck(s.cursor)), i, Rechecked, t.Goto(i, RecheckClaim(s.cursor)));
    Looks(f, t.Goto(i, RecheckClaim(s.cursor)), i, ClaimRechecked, t.Goto(i, Commit(s.cursor)));
    Then(f, t.Goto(i, Commit(s.cursor)), Committed(i), t.(cursor := s.cursor + 1).Goto(i, Idle));
  }

  // ---- Lost settlements -------------------------------------------------------

  /** A settlement of request r with preimage 7. */
  function Seven(r: nat): Paid { Paid(Some(7), r, false) }

  /** The process dies holding the claim, before the ledger write. */
  lemma DieWithClaim(f: Faults) returns (s: State)
    requires f.lossy
    ensures Reachable(f, s)
    ensures s == NEW.(paid := [Seven(0)], pointers := map[0 := 0], issued := [0], claims := {7})
  {
    hide Reachable;
    Starts(f);
    var t := NEW.(paid := [Seven(0)]);
    Then(f, NEW, Pay(Seven(0)), t);
    t := ListenToLedger(f, t, 0);
    s := t.(procs := map[]);
    Then(f, t, Crash, s);
    t := s.(locks := {});
    Then(f, s, LockExpires(0), t);
    s := t;
  }

  /** The next listener finds the claim taken and moves the cursor past the settlement. */
  lemma LoseSettlement(f: Faults)
    requires f.lossy
    ensures Loses(f)
  {
    var s := DieWithClaim(f);
    PassesClaimed(f, s, 0);
    assert Lost(Claiming(s, 0).(locks := s.locks, cursor := 1).Goto(0, Idle), 0);
  }

  lemma DebitsOnly(f: Faults) returns (s: State)
    requires f.doublePaid
    ensures Reachable(f, s)
    ensures s == NEW.(pointers := map[0 := 0], records := map[0 := Internal(0)], issued := [0], sent := {0})
  {
    hide Reachable;
    Starts(f);
    var t := NEW.(pointers := map[0 := 0], issued := [0], writing := {0});
    Then(f, NEW, InternalPoints(0), t);
    s := t.(records := map[0 := Internal(0)], writing := {}, sent := {0});
    Then(f, t, InternalStores(0), s);
  }

  /**
   An internal send is debited and goes no further; CLN settles its request, and though nothing
   was ever credited for it, the settlement is passed over.
   */
  lemma LoseDoublePayment(f: Faults)
    requires f.doublePaid
    ensures exists s :: Reachable(f, s) && Lost(s, 0) && s.credits == [] && s.records == map[0 := Internal(0)]
  {
    hide Reachable;
    var t := DebitsOnly(f);
    var s := t.(paid := [Seven(0)]);
    Then(f, t, Pay(Seven(0)), s);
    PassesRecorded(f, s, 0);
    s := s.(cursor := 1).Goto(0, Idle);
    assert Lost(s, 0);
  }

  /** Of two settlements with one preimage, the second is replayed as far as credit(). */
  lemma ReplayToLock(f: Faults) returns (s: State)
    requires f.reused
    ensures Reachable(f, s) && s == NEW.(paid := [Seven(0), Seven(1)], procs := map[1 := Lock(1, true)])
  {
    hide Reachable;
    Starts(f);
    var t := NEW.(paid := [Seven(0)]);
    Then(f, NEW, Pay(Seven(0)), t);
    s := NEW.(paid := [Seven(0), Seven(1)]);
    Then(f, t, Pay(Seven(1)), s);
    t := s.(procs := map[1 := LookInvoice(1, true)]);
    Looks(f, s, 1, Replay(1), t);
    s := s.(procs := map[1 := LookPayment(1, true)]);
    Looks(f, t, 1, InvoiceAnswers(true), s);
    t := s.(procs := map[1 := Lock(1, true)]);
    Looks(f, s, 1, PaymentAnswers, t);
    s := t;
  }

  /** It claims the preimage and is credited. */
  lemma ReplayClaims(f: Faults) returns (s: State)
    requires f.reused
    ensures Reachable(f, s)
    ensures s == NEW.(paid := [Seven(0), Seven(1)], pointers := map[1 := 0], issued := [1], locks := {1},
                      claims := {7}, procs := map[1 := Ledger(1, true, 0)])
  {
    hide Reachable;
    var t := ReplayToLock(f);
    s := t.(locks := {1}, issued := [1], procs := map[1 := Point(1, true, 0)]);
    Credits(f, t, 1, LockAnswers, s);
    t := s.(pointers := map[1 := 0], procs := map[1 := Claim(1, true, 0)]);
    Credits(f, s, 1, PointerWritten, t);
    s := t.(claims := {7}, procs := map[1 := Ledger(1, true, 0)]);
    Credits(f, t, 1, ClaimAnswers, s);
  }

  /** The first is passed over, because its preimage is taken. */
  lemma LoseReusedPreimage(f: Faults)
    requires f.reused
    ensures Loses(f)
  {
    hide Reachable;
    var s := ReplayClaims(f);
    var t := s.(credits := [7], credited := {1}, procs := map[1 := Persist(1, true, 0)]);
    Credits(f, s, 1, Credited, t);
    s := t.(records := map[0 := External(1, 7)], locks := {}, procs := map[1 := Idle]);
    Credits(f, t, 1, Persisted, s);
    PassesClaimed(f, s, 0);
    assert Lost(Claiming(s, 0).(locks := s.locks, cursor := 1).Goto(0, Idle), 0);
  }

  /**
   No settlement behind the cursor is lost, in any reachable state, exactly when tbCredit
   cannot fail, nor the process die, between the claim and the ledger write, CLN settles no
   request for which an internal send has stored a record, and no preimage is used twice.
   */
  lemma NoSettlementLostExactly(f: Faults)
    ensures !Loses(f) <==> Orderly(f)
  {
    if f.lossy {
      LoseSettlement(f);
    } else if f.doublePaid {
      LoseDoublePayment(f);
    } else if f.reused {
      LoseReusedPreimage(f);
    } else {
      forall s, k: nat | Reachable(f, s) ensures !Lost(s, k) {
        var ss: seq<State>, steps: seq<Step> :| Run(f, ss, steps) && ss[|steps|] == s;
        RunInv(f, ss, steps, |steps|);
        RunPaid(f, ss, steps, |steps|);
        NotLost(s, k);
      }
    }
  }
}
