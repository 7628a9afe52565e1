/**
 The spending budget of a wallet connection: checkBudget, the spend limit debit() enforces
 once it has captured the invoice's tip, and the record put on the connection's list before
 its lock is released, so one spend runs at a time. Outside the lock finalize() stores a lower
 fee and then refunds the rest, and reverse() gives everything back and then deletes the record;
 the ledger accepts what they give back.
 */
module NwcBudget {
  import opened Options
  import opened Windows
  import L = Locks
  import R = Runs

  /** max_amount as stored: blank means unlimited, anything else should be a number. */
  datatype MaxAmount = Blank | NotFinite | Finite(n: int)

  datatype Verdict = Unauthorized | QuotaExceeded | Unlimited | Remaining(sats: nat) {
    predicate Refused() { Unauthorized? || QuotaExceeded? }
  }

  /** deleted: a reversal has removed the record, so it reads back as nothing. */
  datatype Payment = Payment(created: nat, amount: nat, tip: nat, fee: nat, ourfee: nat, deleted: bool) {
    function Spent(): nat { if deleted then 0 else amount + tip + fee + ourfee }
  }

  const DAY_MS := 86_400_000

  function Period(renewal: string): Option<nat> {
    match renewal
    case "daily" => Some(DAY_MS)
    case "weekly" => Some(7 * DAY_MS)
    case "monthly" => Some(30 * DAY_MS)
    case "yearly" => Some(365 * DAY_MS)
    case "never" => Some(3650 * DAY_MS)
    case _ => None
  }

  function Entries(ps: seq<Payment>): seq<Entry> {
    seq(|ps|, i requires 0 <= i < |ps| => Entry(ps[i].created, ps[i].Spent()))
  }

  /** checkBudget's sum over the payments created in the last period. */
  function Spent(ps: seq<Payment>, now: nat, period: nat): nat {
    Total(Prune(Entries(ps), now, period))
  }

  /** A wallet connection as stored: whether it has a creation date, its budget and renewal. */
  datatype App = App(connected: bool, max: MaxAmount, renewal: string) {
    /** The budget is in force: a positive limit and a known period. */
    predicate Limited() { max.Finite? && max.n > 0 && Period(renewal).Some? }
  }

  function CheckBudget(app: App, ps: seq<Payment>, amount: nat, now: nat): Verdict {
    if !app.connected || app.max.NotFinite? || (app.max.Finite? && app.max.n < 0) then Unauthorized
    else if app.max.Blank? then Unlimited
    else if app.max.n == 0 then QuotaExceeded
    else match Period(app.renewal)
      case None => Unauthorized
      case Some(period) =>
        var spent := Spent(ps, now, period);
        var remaining := if app.max.n > spent then app.max.n - spent else 0;
        if amount > remaining then QuotaExceeded else Remaining(remaining)
  }

  /** The renewal periods in milliseconds. */
  const WIDTHS := map[
    "daily" := 86_400_000, "weekly" := 604_800_000, "monthly" := 2_592_000_000,
    "yearly" := 31_536_000_000, "never" := 315_360_000_000]

  /** What checkBudget decides, case by case; in force, it goes by the window that ends now. */
  lemma BudgetDecides(app: App, ps: seq<Payment>, amount: nat, now: nat)
    ensures CheckBudget(app, ps, amount, now).Unlimited? <==> app.connected && app.max.Blank?
    ensures CheckBudget(app, ps, amount, now).Unauthorized? <==>
              !app.connected || app.max.NotFinite? ||
              (app.max.Finite? && (app.max.n < 0 || (app.max.n > 0 && app.renewal !in WIDTHS)))
    ensures app.connected && app.max == Finite(0) ==> CheckBudget(app, ps, amount, now).QuotaExceeded?
    ensures app.connected && app.max.Finite? && app.max.n > 0 && app.renewal in WIDTHS && Past(Entries(ps), now) ==>
              var width := WIDTHS[app.renewal];
              var used := Within(Entries(ps), now - width + 1, width);
              CheckBudget(app, ps, amount, now) ==
              if amount > 0 && used + amount > app.max.n then QuotaExceeded
              else Remaining(if used < app.max.n then app.max.n - used else 0)
  {
    if Period(app.renewal).Some? && Past(Entries(ps), now) {
      KeptIsWindow(Entries(ps), now, Period(app.renewal).value);
    }
  }

  /** assertWithinSpendLimit. */
  predicate WithinSpendLimit(total: nat, maxTotal: Option<nat>) { maxTotal.Some? ==> total <= maxTotal.value }

  /** A spend fails in debit(), after the debit but before it is recorded, or not at all. */
  datatype Outcome = DebitFails | Unrecorded | Recorded

  /**
   One budgeted request: the amount is checked at checkAt, the tip is whatever the invoice
   holds when debit() captures it, fee credit may lower ourfee to charged, the ledger is
   debited at debitAt and the record is dated created.
   */
  datatype Request = Request(
    amount: nat, checkAt: nat, tip: nat, fee: nat, ourfee: nat, charged: nat, debitAt: nat, created: nat)
  {
    predicate Sane() { checkAt <= debitAt <= created && charged <= ourfee }

    function Total(): nat { amount + tip + fee + ourfee }

    function Record(): Payment { Payment(created, amount, tip, fee, charged, false) }
  }

  /** debit() gets as far as the ledger. */
  predicate Allowed(app: App, ps: seq<Payment>, r: Request) {
    var verdict := CheckBudget(app, ps, r.amount, r.checkAt);
    && r.amount > 0 && !verdict.Refused() && (verdict.Remaining? ==> r.Total() <= verdict.sats)
  }

  lemma AllowedFits(app: App, ps: seq<Payment>, r: Request)
    requires app.Limited() && Allowed(app, ps, r)
    ensures Spent(ps, r.checkAt, Period(app.renewal).value) + r.Total() <= app.max.n
  {
  }

  class Connection {
    const app: App
    var payments: seq<Payment>         // oldest first
    ghost var debits: seq<Entry>       // what the ledger was debited

    ghost predicate Valid() reads this {
      app.Limited() ==> Bounded(Entries(payments), Period(app.renewal).value, app.max.n)
    }

    constructor (app: App)
      ensures Valid() && payments == [] && debits == [] && this.app == app
    {
      this.app := app;
      payments, debits := [], [];
    }

    /** One budgeted spend, check to record, under the lock. */
    method Pay(r: Request, outcome: Outcome) returns (debited: bool)
      requires Valid() && r.Sane()
      modifies this
      ensures Valid() && debited == (Allowed(app, old(payments), r) && !outcome.DebitFails?)
      ensures debits == if debited then old(debits) + [Entry(r.debitAt, r.amount + r.tip + r.fee + r.charged)]
                        else old(debits)
      ensures payments == if debited && outcome.Recorded?
                          then old(payments) + [Payment(r.created, r.amount, r.tip, r.fee, r.charged, false)]
                          else old(payments)
      ensures app.connected && app.max.Blank? ==> debited == (r.amount > 0 && !outcome.DebitFails?)
      ensures app.connected && app.max.Finite? && app.max.n > 0 && app.renewal in WIDTHS
              && Past(Entries(old(payments)), r.checkAt) ==>
                var width := WIDTHS[app.renewal];
                var used := Within(Entries(old(payments)), r.checkAt - width + 1, width);
                debited <==> r.amount > 0 && !outcome.DebitFails?
                             && used + r.amount + r.tip + r.fee + r.ourfee <= app.max.n
    {
      hide CheckBudget, Within;
      BudgetDecides(app, payments, r.amount, r.checkAt);
      var verdict := CheckBudget(app, payments, r.amount, r.checkAt);
      if verdict.Refused() { return false; }
      var maxTotal := if verdict.Remaining? then Some(verdict.sats) else None;
      if r.amount == 0 || !WithinSpendLimit(r.Total(), maxTotal) || outcome.DebitFails? {
        return false;
      }
      debits := debits + [Entry(r.debitAt, r.amount + r.tip + r.fee + r.charged)];
      if outcome.Recorded? {
        if app.Limited() {
          AllowedFits(app, payments, r);
          RecordBounded(payments, r.Record(), r.checkAt, Period(app.renewal).value, app.max.n);
        }
        payments := payments + [r.Record()];
      }
      return true;
    }

    /** finalize lowers a recorded fee, or a reversal deletes the record. */
    method Settle(i: nat, fee: nat, deleted: bool)
      requires Valid() && i < |payments| && fee <= payments[i].fee
      modifies this`payments
      ensures Valid()
      ensures payments == var ps := old(payments); ps[i := ps[i].(fee := fee, deleted := ps[i].deleted || deleted)]
    {
      var p := payments[i].(fee := fee, deleted := payments[i].deleted || deleted);
      if app.Limited() {
        SettleBounded(payments, i, p, Period(app.renewal).value, app.max.n);
      }
      payments := payments[i := p];
    }

    /** No window of the renewal period holds more than the limit, wherever it starts. */
    lemma AllWindows(from: int)
      requires Valid() && app.Limited()
      ensures Within(Entries(payments), from, Period(app.renewal).value) <= app.max.n
    {
      EveryWindow(Entries(payments), from, Period(app.renewal).value, app.max.n);
    }
  }

  lemma RecordBounded(ps: seq<Payment>, p: Payment, checkAt: nat, period: nat, limit: nat)
    requires period > 0 && checkAt <= p.created && Bounded(Entries(ps), period, limit)
    requires Spent(ps, checkAt, period) + p.Spent() <= limit
    ensures Bounded(Entries(ps + [p]), period, limit)
  {
    var e := Entry(p.created, p.Spent());
    assert NoLarger(Entries(ps), Entries(ps));
    NoLargerTotal(Entries(ps), Entries(ps), p.created, checkAt, period);
    BoundedAppend(Entries(ps), e, period, limit);
    assert Entries(ps + [p]) == Entries(ps) + [e];
  }

  /** Entry by entry no later and no larger. */
  predicate NoLarger(es: seq<Entry>, fs: seq<Entry>) {
    |es| == |fs| && forall i :: 0 <= i < |es| ==> es[i].at <= fs[i].at && es[i].amount <= fs[i].amount
  }

  lemma {:induction false} NoLargerTotal(es: seq<Entry>, fs: seq<Entry>, later: int, now: int, width: nat)
    requires NoLarger(es, fs) && now <= later
    ensures Total(Prune(es, later, width)) <= Total(Prune(fs, now, width))
    decreases es
  {
    if es != [] {
      NoLargerTotal(es[1..], fs[1..], later, now, width);
      var a, b := Prune(es[1..], later, width), Prune(fs[1..], now, width);
      assert ([es[0]] + a)[1..] == a && ([fs[0]] + b)[1..] == b;
    }
  }

  /** Lowering one entry keeps every window bounded. */
  lemma LowerBounded(es: seq<Entry>, i: nat, amount: nat, period: nat, limit: nat)
    requires Bounded(es, period, limit) && i < |es| && amount <= es[i].amount
    ensures Bounded(es[i := es[i].(amount := amount)], period, limit)
  {
    var fs := es[i := es[i].(amount := amount)];
    forall n | 0 <= n < |fs| ensures EndingAt(fs, n, period) <= limit {
      NoLargerTotal(fs[..n + 1], es[..n + 1], fs[n].at, es[n].at, period);
      assert EndingAt(es, n, period) <= limit;
    }
  }

  lemma SettleBounded(ps: seq<Payment>, i: nat, p: Payment, period: nat, limit: nat)
    requires Bounded(Entries(ps), period, limit) && i < |ps|
    requires p.created == ps[i].created && p.Spent() <= ps[i].Spent()
    ensures Bounded(Entries(ps[i := p]), period, limit)
  {
    LowerBounded(Entries(ps), i, p.Spent(), period, limit);
    assert Entries(ps[i := p]) == Entries(ps)[i := Entries(ps)[i].(amount := p.Spent())];
  }

  // ---- Any number of requests at once ---------------------------------------

  /** A record, and the ledger's entry for its debit. */
  datatype Spend = Spend(record: Payment, entry: nat)

  function Records(spends: seq<Spend>): seq<Payment> {
    seq(|spends|, n requires 0 <= n < |spends| => spends[n].record)
  }

  function Listed(spends: seq<Spend>): seq<Entry> { Entries(Records(spends)) }

  /**
   What may go wrong:
     unrecorded  a request may throw, or the process die, between the debit and the list
     lagging     a request may read the list while a lower fee in it has not been refunded,
                 or after its refund has failed
   */
  datatype Setting = Setting(app: App, form: L.Form, unrecorded: bool, lagging: bool) {
    function Width(): nat requires app.Limited() { Period(app.renewal).value }
  }

  /**
   The lock's cell is the connection's list. open are the spends that are debited and not on
   it. ledger has what each debit took and has not given back.
   */
  datatype State = State(lock: L.State<seq<Spend>, Request>, open: map<nat, Spend>, ledger: seq<Entry>) {
    predicate Has(w: Place) { if w.OnList? then w.n < |lock.cell| else w.n in open }

    function Get(w: Place): Spend
      requires Has(w)
    {
      if w.OnList? then lock.cell[w.n] else open[w.n]
    }

    function Put(w: Place, p: Payment): State
      requires Has(w)
    {
      if w.OnList? then this.(lock := lock.(cell := lock.cell[w.n := lock.cell[w.n].(record := p)]))
      else this.(open := open[w.n := open[w.n].(record := p)])
    }

    /** Nothing is owed on a record: the ledger has given back what the record no longer shows. */
    predicate Square(spend: Spend) {
      spend.entry < |ledger| && ledger[spend.entry].amount <= spend.record.Spent()
    }
  }

  datatype Place = OnList(n: nat) | Open(n: nat)

  datatype Step =
    | Locked(k: L.Step<Request>)     // a request arrives, enters, reads the list, returns or throws
    | Debits(i: nat)
      // without the lock
    | Lowers(w: Place, fee: nat)     // finalize stores the record
    | Refunds(w: Place)
    | Reverses(w: Place)
    | Deletes(w: Place)              // reverse deletes it

  ghost predicate Init(s: State) { L.Init(s.lock) && s.lock.cell == [] && s.open == map[] && s.ledger == [] }

  /** Entering, reading and throwing leave the list alone. */
  const KEEP := (spends: seq<Spend>, r: Request) => spends

  ghost predicate LockNext(c: Setting, s: State, k: L.Step<Request>, s': State) {
    && s' == s.(lock := s'.lock) && L.Next(c.form, KEEP, s.lock, k, s'.lock)
    && (k.Arrive? ==> k.op.Sane())
    && (k.Load? ==> c.lagging || forall n :: 0 <= n < |s.lock.cell| ==> s.Square(s.lock.cell[n]))
    && (k.Throw? ==> c.unrecorded || k.i !in s.open)
  }

  ghost predicate Next(c: Setting, s: State, k: Step, s': State) {
    match k
    case Locked(Store(i)) =>
      // it returns, and what it debited is on the list
      && i < |s.lock.phases| == |s.lock.ops| && s.lock.phases[i].Loaded?
      && s' == s.(open := s.open - {i}, lock := s.lock.Goto(i, L.Released).(
                    cell := if i in s.open then s.lock.cell + [s.open[i]] else s.lock.cell))
    case Locked(k) => LockNext(c, s, k, s')
    case Debits(i) =>
      && i < |s.lock.phases| == |s.lock.ops| && s.lock.phases[i].Loaded? && i !in s.open
      && var r := s.lock.ops[i];
      && Allowed(c.app, Records(s.lock.phases[i].v), r)
      && s' == s.(open := s.open[i := Spend(r.Record(), |s.ledger|)],
                  ledger := s.ledger + [Entry(r.debitAt, r.amount + r.tip + r.fee + r.charged)])
    case Lowers(w, fee) =>
      s.Has(w) && fee <= s.Get(w).record.fee && s' == s.Put(w, s.Get(w).record.(fee := fee))
    case Refunds(w) =>
      && s.Has(w) && s.Get(w).entry < |s.ledger| && !s.Square(s.Get(w))
      && s' == s.(ledger := Lowered(s.ledger, s.Get(w).entry, s.Get(w).record.Spent()))
    case Reverses(w) =>
      s.Has(w) && s.Get(w).entry < |s.ledger| && s' == s.(ledger := Lowered(s.ledger, s.Get(w).entry, 0))
    case Deletes(w) =>
      && s.Has(w) && s.Get(w).entry < |s.ledger| && s.ledger[s.Get(w).entry].amount == 0
      && s' == s.Put(w, s.Get(w).record.(deleted := true))
  }

  function Lowered(es: seq<Entry>, i: nat, amount: nat): seq<Entry>
    requires i < |es|
  {
    es[i := es[i].(amount := amount)]
  }

  ghost function Steps(c: Setting): (State, Step, State) -> bool { (s, k, s') => Next(c, s, k, s') }

  ghost predicate Run(c: Setting, ss: seq<State>, ks: seq<Step>) { R.Run(Init, Steps(c), ss, ks) }

  ghost predicate Reachable(c: Setting, s: State) { R.Reachable(Init, Steps(c), s) }

  /**
   The list is bounded; whoever has read it read one that has only been settled since; and what
   it has debited was allowed by what it read.
   */
  ghost predicate Inv(c: Setting, s: State)
    requires c.app.Limited()
  {
    && |s.lock.ops| == |s.lock.phases| && L.InOrder(s.lock.phases)
    && (forall i :: 0 <= i < |s.lock.ops| ==> s.lock.ops[i].Sane())
    && Bounded(Listed(s.lock.cell), c.Width(), c.app.max.n)
    && forall i :: 0 <= i < |s.lock.phases| && s.lock.phases[i].Loaded? ==> Reader(c, s, i)
  }

  predicate Reader(c: Setting, s: State, i: nat)
    requires c.app.Limited() && i < |s.lock.phases| == |s.lock.ops| && s.lock.phases[i].Loaded?
  {
    var v, r := s.lock.phases[i].v, s.lock.ops[i];
    && NoLarger(Listed(s.lock.cell), Listed(v))
    && (i in s.open ==>
          && Allowed(c.app, Records(v), r)
          && s.open[i].record.created == r.created
          && s.open[i].record.Spent() <= r.Record().Spent())
  }

  predicate IsReturn(k: Step) { k.Locked? && k.k.Store? }

  /** What is allowed by the list as read still fits the list as it is. */
  lemma ReturnBounded(c: Setting, spends: seq<Spend>, read: seq<Spend>, r: Request, spend: Spend)
    requires c.app.Limited() && r.Sane() && Allowed(c.app, Records(read), r)
    requires NoLarger(Listed(spends), Listed(read)) && Bounded(Listed(spends), c.Width(), c.app.max.n)
    requires spend.record.created == r.created && spend.record.Spent() <= r.Record().Spent()
    ensures Bounded(Listed(spends + [spend]), c.Width(), c.app.max.n)
  {
    hide Bounded;
    NoLargerTotal(Listed(spends), Listed(read), r.checkAt, r.checkAt, c.Width());
    RecordBounded(Records(spends), spend.record, r.checkAt, c.Width(), c.app.max.n);
    assert Records(spends + [spend]) == Records(spends) + [spend.record];
  }

  lemma ReturnInv(c: Setting, s: State, k: Step, s': State)
    requires c.app.Limited() && Inv(c, s) && IsReturn(k) && Next(c, s, k, s')
    ensures Inv(c, s')
  {
    hide Bounded, Allowed;
    var i := k.k.i;
    L.OrderNext(c.form, KEEP, s.lock, k.k, s'.lock.(cell := s.lock.phases[i].v));
    assert Reader(c, s, i);
    if i in s.open {
      ReturnBounded(c, s.lock.cell, s.lock.phases[i].v, s.lock.ops[i], s.open[i]);
    }
    assert forall j :: 0 <= j < |s'.lock.phases| ==> !s'.lock.phases[j].Loaded?;
  }

  lemma PutInv(c: Setting, s: State, w: Place, p: Payment)
    requires c.app.Limited() && Inv(c, s) && s.Has(w)
    requires p.created == s.Get(w).record.created && p.Spent() <= s.Get(w).record.Spent()
    ensures Inv(c, s.Put(w, p))
  {
    hide Bounded, Allowed;
    var s' := s.Put(w, p);
    if w.OnList? {
      SettleBounded(Records(s.lock.cell), w.n, p, c.Width(), c.app.max.n);
      assert Records(s'.lock.cell) == Records(s.lock.cell)[w.n := p];
    }
    forall i | 0 <= i < |s'.lock.phases| && s'.lock.phases[i].Loaded? ensures Reader(c, s', i) {
      assert Reader(c, s, i);
    }
  }

  lemma LockInv(c: Setting, s: State, k: Step, s': State)
    requires c.app.Limited() && Inv(c, s) && k.Locked? && !IsReturn(k) && Next(c, s, k, s')
    requires forall i :: i in s.open ==> i < |s.lock.phases| && !s.lock.phases[i].Entered?
    ensures Inv(c, s')
  {
    hide Bounded, Allowed;
    L.OrderNext(c.form, KEEP, s.lock, k.k, s'.lock);
    forall i | 0 <= i < |s'.lock.phases| && s'.lock.phases[i].Loaded? ensures Reader(c, s', i) {
      assert (k.k.Load? && i == k.k.i) || Reader(c, s, i);
    }
  }

  lemma DebitInv(c: Setting, s: State, k: Step, s': State)
    requires c.app.Limited() && Inv(c, s) && k.Debits? && Next(c, s, k, s')
    ensures Inv(c, s')
  {
    hide Bounded, Allowed;
    forall i | 0 <= i < |s'.lock.phases| && s'.lock.phases[i].Loaded? ensures Reader(c, s', i) {
      assert Reader(c, s, i);
    }
  }

  /** Only a request that has read the list debits, so none debits before it. */
  ghost predicate OpenLate(s: State) {
    forall i :: i in s.open ==> i < |s.lock.phases| && (s.lock.phases[i].Loaded? || s.lock.phases[i].Released?)
  }

  lemma OpenLateNext(c: Setting, s: State, k: Step, s': State)
    requires OpenLate(s) && Next(c, s, k, s')
    ensures OpenLate(s')
  {
    hide Allowed;
  }

  lemma NextInv(c: Setting, s: State, k: Step, s': State)
    requires c.app.Limited() && Inv(c, s) && OpenLate(s) && Next(c, s, k, s')
    ensures Inv(c, s')
  {
    hide Bounded, Allowed;
    match k
    case Locked(_) => if IsReturn(k) { ReturnInv(c, s, k, s'); } else { LockInv(c, s, k, s'); }
    case Debits(_) => DebitInv(c, s, k, s');
    case Lowers(w, fee) => PutInv(c, s, w, s.Get(w).record.(fee := fee));
    case Deletes(w) => PutInv(c, s, w, s.Get(w).record.(deleted := true));
    case _ =>
      forall i | 0 <= i < |s'.lock.phases| && s'.lock.phases[i].Loaded? ensures Reader(c, s', i) {
        assert Reader(c, s, i);
      }
  }

  lemma {:induction false} RunInv(c: Setting, ss: seq<State>, ks: seq<Step>, n: nat)
    requires c.app.Limited() && Run(c, ss, ks) && n < |ss|
    ensures forall m :: 0 <= m <= n ==> Inv(c, ss[m]) && OpenLate(ss[m])
  {
    hide Next;
    if n > 0 {
      RunInv(c, ss, ks, n - 1);
      NextInv(c, ss[n - 1], ks[n - 1], ss[n]);
      OpenLateNext(c, ss[n - 1], ks[n - 1], ss[n]);
    }
  }

  /**
   However many requests arrive on one connection at once, whichever of them throw, and
   whenever finalize and reverse change a record: with the connection's lock held from check
   to record, no window of the renewal period ever holds more than the limit.
   */
  lemma ConcurrentSpends(c: Setting, ss: seq<State>, ks: seq<Step>, n: nat, from: int)
    requires c.app.Limited() && Run(c, ss, ks) && n < |ss|
    ensures Within(Listed(ss[n].lock.cell), from, c.Width()) <= c.app.max.n
  {
    RunInv(c, ss, ks, n);
    EveryWindow(Listed(ss[n].lock.cell), from, c.Width(), c.app.max.n);
  }

  // ---- What the ledger has taken ---------------------------------------------

  /**
   Every debit reaches the list, and none is decided while a refund is owed, unless the limit is
   a single sat, which leaves no room for a fee.
   */
  predicate Orderly(c: Setting)
    requires c.app.Limited()
  {
    !c.unrecorded && (c.lagging ==> c.app.max.n == 1)
  }

  /** The record is dated no earlier than its debit and, if there is no room for fees, carries none. */
  predicate Fits(c: Setting, s: State, spend: Spend)
    requires c.app.Limited()
  {
    && spend.entry < |s.ledger| && s.ledger[spend.entry].at <= spend.record.created
    && (c.app.max.n == 1 ==> spend.record.fee == 0 && s.Square(spend))
  }

  /** The ledger's entries are the listed spends in order, and perhaps one that is not listed yet. */
  ghost predicate Tidy(c: Setting, s: State)
    requires c.app.Limited() && |s.lock.ops| == |s.lock.phases|
  {
    && (forall i :: i in s.open ==> i < |s.lock.phases| && s.lock.phases[i].Loaded?)
    && (forall i :: i in s.open ==> |s.ledger| == |s.lock.cell| + 1 && s.open[i].entry == |s.lock.cell|)
    && (s.open == map[] ==> |s.ledger| == |s.lock.cell|)
    && (forall n :: 0 <= n < |s.lock.cell| ==> s.lock.cell[n].entry == n)
    && (forall w :: s.Has(w) ==> Fits(c, s, s.Get(w)))
    && Bounded(s.ledger, c.Width(), c.app.max.n)
    && forall i :: 0 <= i < |s.lock.phases| && s.lock.phases[i].Loaded? ==> Covered(s, s.lock.phases[i].v)
  }

  /** What was read shows at least what the ledger has taken. */
  predicate Covered(s: State, read: seq<Spend>) {
    |s.lock.cell| <= |s.ledger| && NoLarger(s.ledger[..|s.lock.cell|], Listed(read))
  }

  /** One request is past waiting at a time, so nobody else's spend is open. */
  lemma OnlyOpen(c: Setting, s: State, i: nat)
    requires c.app.Limited() && Inv(c, s) && Tidy(c, s)
    requires i < |s.lock.phases| && s.lock.phases[i].Holding()
    ensures forall j :: j in s.open ==> j == i
  {
  }

  lemma NoneOpen(c: Setting, s: State, i: nat)
    requires c.app.Limited() && Inv(c, s) && Tidy(c, s)
    requires i < |s.lock.phases| && s.lock.phases[i].Holding() && i !in s.open
    ensures s.open == map[] && |s.ledger| == |s.lock.cell|
  {
    OnlyOpen(c, s, i);
    assert s.open.Keys == {};
  }

  lemma DebitTidy(c: Setting, s: State, k: Step, s': State)
    requires c.app.Limited() && Inv(c, s) && Tidy(c, s) && k.Debits? && Next(c, s, k, s')
    ensures Tidy(c, s')
  {
    hide Bounded;
    var v, r := s.lock.phases[k.i].v, s.lock.ops[k.i];
    NoneOpen(c, s, k.i);
    assert Covered(s, v) && s.ledger[..|s.lock.cell|] == s.ledger;
    NoLargerTotal(s.ledger, Listed(v), r.debitAt, r.checkAt, c.Width());
    BoundedAppend(s.ledger, Entry(r.debitAt, r.Record().Spent()), c.Width(), c.app.max.n);
    forall w | s'.Has(w) ensures Fits(c, s', s'.Get(w)) {
      assert w != Open(k.i) ==> s.Has(w) && Fits(c, s, s.Get(w));
    }
    OneReader(c, s, s', k.i);
  }

  /** Nobody else has read the list. */
  lemma OneReader(c: Setting, s: State, s': State, i: nat)
    requires c.app.Limited() && Inv(c, s) && Tidy(c, s) && s'.lock == s.lock
    requires i < |s.lock.phases| && s.lock.phases[i].Loaded? && |s.ledger| == |s.lock.cell| && s.ledger <= s'.ledger
    ensures forall j :: 0 <= j < |s'.lock.phases| && s'.lock.phases[j].Loaded? ==> Covered(s', s'.lock.phases[j].v)
  {
    forall j | 0 <= j < |s.lock.phases| && s.lock.phases[j].Loaded? ensures Covered(s', s.lock.phases[j].v) {
      assert Covered(s, s.lock.phases[j].v);
      assert s'.ledger[..|s.lock.cell|] == s.ledger[..|s.lock.cell|];
    }
  }

  lemma ReturnTidy(c: Setting, s: State, k: Step, s': State)
    requires c.app.Limited() && Inv(c, s) && Tidy(c, s) && IsReturn(k) && Next(c, s, k, s')
    ensures Tidy(c, s')
  {
    hide Bounded;
    var i := k.k.i;
    OnlyOpen(c, s, i);
    forall w | s'.Has(w) ensures Fits(c, s', s'.Get(w)) {
      assert s.Has(if w.OnList? && w.n == |s.lock.cell| then Open(i) else w);
    }
    assert forall j :: 0 <= j < |s'.lock.phases| ==> !s'.lock.phases[j].Loaded?;
  }

  lemma LoadTidy(c: Setting, s: State, k: Step, s': State)
    requires c.app.Limited() && Orderly(c) && Inv(c, s) && Tidy(c, s)
    requires k.Locked? && k.k.Load? && Next(c, s, k, s')
    ensures Tidy(c, s')
  {
    hide Bounded;
    NoneOpen(c, s, k.k.i);
    forall n | 0 <= n < |s.lock.cell|
      ensures s.ledger[n].at <= s.lock.cell[n].record.created && s.ledger[n].amount <= s.lock.cell[n].record.Spent()
    {
      assert s.Has(OnList(n)) && Fits(c, s, s.Get(OnList(n)));
    }
    assert s.ledger[..|s.lock.cell|] == s.ledger;
    LockFits(c, s, s');
    forall j | 0 <= j < |s'.lock.phases| && s'.lock.phases[j].Loaded? ensures Covered(s', s'.lock.phases[j].v) {
      assert j == k.k.i;
    }
  }

  lemma LockFits(c: Setting, s: State, s': State)
    requires c.app.Limited() && |s.lock.ops| == |s.lock.phases| && Tidy(c, s)
    requires s'.lock.cell == s.lock.cell && s'.open == s.open && s'.ledger == s.ledger
    ensures forall w :: s'.Has(w) ==> Fits(c, s', s'.Get(w))
  {
    forall w | s'.Has(w) ensures Fits(c, s', s'.Get(w)) {
      assert s.Has(w);
    }
  }

  lemma LockTidy(c: Setting, s: State, k: Step, s': State)
    requires c.app.Limited() && Orderly(c) && Inv(c, s) && Tidy(c, s)
    requires k.Locked? && !k.k.Load? && !IsReturn(k) && Next(c, s, k, s')
    ensures Tidy(c, s')
  {
    hide Bounded;
    LockFits(c, s, s');
    forall j | 0 <= j < |s'.lock.phases| && s'.lock.phases[j].Loaded? ensures Covered(s', s'.lock.phases[j].v) {
      assert Covered(s, s.lock.phases[j].v);
    }
  }

  /** A record is lowered, or deleted once nothing is taken for it. */
  lemma PutTidy(c: Setting, s: State, w: Place, p: Payment)
    requires c.app.Limited() && |s.lock.ops| == |s.lock.phases| && Tidy(c, s) && s.Has(w)
    requires p.created == s.Get(w).record.created && p.fee <= s.Get(w).record.fee
    requires c.app.max.n == 1 ==> s.Square(Spend(p, s.Get(w).entry))
    ensures Tidy(c, s.Put(w, p))
  {
    hide Bounded;
    var s' := s.Put(w, p);
    forall u | s'.Has(u) ensures Fits(c, s', s'.Get(u)) {
      assert s.Has(u) && Fits(c, s, s.Get(u));
    }
    forall j | 0 <= j < |s'.lock.phases| && s'.lock.phases[j].Loaded? ensures Covered(s', s'.lock.phases[j].v) {
      assert Covered(s, s.lock.phases[j].v);
    }
  }

  /** The ledger gives something back. */
  lemma LowerTidy(c: Setting, s: State, i: nat, amount: nat)
    requires c.app.Limited() && |s.lock.ops| == |s.lock.phases| && Tidy(c, s)
    requires i < |s.ledger| && amount <= s.ledger[i].amount
    ensures Tidy(c, s.(ledger := Lowered(s.ledger, i, amount)))
  {
    hide Bounded;
    var s' := s.(ledger := Lowered(s.ledger, i, amount));
    LowerBounded(s.ledger, i, amount, c.Width(), c.app.max.n);
    forall u | s'.Has(u) ensures Fits(c, s', s'.Get(u)) {
      assert s.Has(u) && Fits(c, s, s.Get(u));
    }
    forall j | 0 <= j < |s'.lock.phases| && s'.lock.phases[j].Loaded? ensures Covered(s', s'.lock.phases[j].v) {
      assert Covered(s, s.lock.phases[j].v);
    }
  }

  lemma TidyNext(c: Setting, s: State, k: Step, s': State)
    requires c.app.Limited() && Orderly(c) && Inv(c, s) && Tidy(c, s) && Next(c, s, k, s')
    requires |s'.lock.ops| == |s'.lock.phases|
    ensures Tidy(c, s')
  {
    hide Bounded, Tidy, Inv, Allowed;
    match k
    case Locked(l) =>
      if IsReturn(k) {
        ReturnTidy(c, s, k, s');
      } else if l.Load? {
        LoadTidy(c, s, k, s');
      } else {
        LockTidy(c, s, k, s');
      }
    case Debits(_) => DebitTidy(c, s, k, s');
    case Lowers(w, fee) => GetFits(c, s, w); PutTidy(c, s, w, s.Get(w).record.(fee := fee));
    case Deletes(w) => GetFits(c, s, w); PutTidy(c, s, w, s.Get(w).record.(deleted := true));
    case Refunds(w) => LowerTidy(c, s, s.Get(w).entry, s.Get(w).record.Spent());
    case Reverses(w) => LowerTidy(c, s, s.Get(w).entry, 0);
  }

  lemma GetFits(c: Setting, s: State, w: Place)
    requires c.app.Limited() && |s.lock.ops| == |s.lock.phases| && Tidy(c, s) && s.Has(w)
    ensures Fits(c, s, s.Get(w))
  {
  }

  lemma {:induction false} RunTidy(c: Setting, ss: seq<State>, ks: seq<Step>, n: nat)
    requires c.app.Limited() && Orderly(c) && Run(c, ss, ks) && n < |ss|
    ensures forall m :: 0 <= m <= n ==> |ss[m].lock.ops| == |ss[m].lock.phases| && Tidy(c, ss[m])
  {
    hide Next;
    RunInv(c, ss, ks, n);
    if n > 0 {
      RunTidy(c, ss, ks, n - 1);
      RunInv(c, ss, ks, n - 1);
      TidyNext(c, ss[n - 1], ks[n - 1], ss[n]);
    }
  }

  // ---- The ways to exceed the limit ------------------------------------------

  lemma Then(c: Setting, s: State, k: Step, s': State)
    requires Reachable(c, s) && Next(c, s, k, s')
    ensures Reachable(c, s')
  {
    R.Then(Init, Steps(c), s, k, s');
  }

  /** A request comes in while nobody holds the lock, and reads the list. */
  lemma Reads(c: Setting, s: State, r: Request) returns (s': State)
    requires Reachable(c, s) && |s.lock.ops| == |s.lock.phases| && r.Sane()
    requires forall j :: 0 <= j < |s.lock.phases| ==> s.lock.phases[j].Released?
    requires c.lagging || forall n :: 0 <= n < |s.lock.cell| ==> s.Square(s.lock.cell[n])
    ensures Reachable(c, s')
    ensures s' == s.(lock := s.lock.(ops := s.lock.ops + [r], phases := s.lock.phases + [L.Loaded(s.lock.cell)]))
  {
    hide Reachable;
    var i := |s.lock.phases|;
    var t := s.(lock := s.lock.(ops := s.lock.ops + [r], phases := s.lock.phases + [L.Waiting]));
    Then(c, s, Locked(L.Arrive(r)), t);
    if i > 0 {
      L.AllBefore(c.form, t.lock.phases, i - 1);
    }
    s' := t.(lock := t.lock.Goto(i, L.Entered));
    Then(c, t, Locked(L.Enter(i)), s');
    assert s'.lock.phases[i := L.Loaded(s.lock.cell)] == s.lock.phases + [L.Loaded(s.lock.cell)];
    t := s'.(lock := s'.lock.Goto(i, L.Loaded(s.lock.cell)));
    Then(c, s', Locked(L.Load(i)), t);
    s' := t;
  }

  /** And is debited. */
  lemma Spends(c: Setting, s: State, r: Request) returns (s': State)
    requires Reachable(c, s) && |s.lock.ops| == |s.lock.phases| && r.Sane()
    requires forall j :: 0 <= j < |s.lock.phases| ==> s.lock.phases[j].Released?
    requires c.lagging || forall n :: 0 <= n < |s.lock.cell| ==> s.Square(s.lock.cell[n])
    requires Allowed(c.app, Records(s.lock.cell), r) && |s.lock.phases| !in s.open
    ensures Reachable(c, s')
    ensures s' == State(
      s.lock.(ops := s.lock.ops + [r], phases := s.lock.phases + [L.Loaded(s.lock.cell)]),
      s.open[|s.lock.phases| := Spend(r.Record(), |s.ledger|)],
      s.ledger + [Entry(r.debitAt, r.Record().Spent())])
  {
    hide Reachable, Allowed;
    var t := Reads(c, s, r);
    var i := |s.lock.phases|;
    s' := t.(open := s.open[i := Spend(r.Record(), |s.ledger|)],
             ledger := s.ledger + [Entry(r.debitAt, r.Record().Spent())]);
    Then(c, t, Debits(i), s');
  }

  const NEW := State(L.State([], [], [], {}), map[], [])

  /** One request for amount and fee at time 0. */
  function At0(amount: nat, fee: nat): Request { Request(amount, 0, 0, fee, 0, 0, 0, 0) }

  lemma FirstSpend(c: Setting, r: Request)
    requires c.app.connected && c.app.Limited() && r.amount > 0 && r == At0(r.amount, r.fee) && r.Total() <= c.app.max.n
    ensures Reachable(c, State(L.State([], [r], [L.Loaded([])], {}), map[0 := Spend(r.Record(), 0)],
                               [Entry(0, r.Total())]))
  {
    R.Starts(Init, Steps(c), NEW);
    assert Records([]) == [] && Entries([]) == [];
    hide Reachable;
    var s := Spends(c, NEW, r);
    assert s.lock.phases == [L.Loaded(NEW.lock.cell)] && s.lock.ops == [r];
    assert s.open == map[0 := Spend(r.Record(), 0)];
    assert NEW.ledger + [Entry(0, r.Total())] == [Entry(0, r.Total())];
  }

  /** Two debits at time 0. */
  lemma TwoDebits(a: nat, b: nat, width: nat)
    requires width > 0
    ensures Within([Entry(0, a)] + [Entry(0, b)], 0, width) == a + b
  {
    WithinAppend([Entry(0, a)], Entry(0, b), 0, width);
    assert [Entry(0, a)][1..] == [];
  }

  /** A debit that never reaches the list, as when the credit of an internal send fails, is spent again. */
  lemma UnrecordedSpend(c: Setting) returns (s: State)
    requires c.app.connected && c.app.Limited() && c.unrecorded
    ensures Reachable(c, s) && Within(s.ledger, 0, c.Width()) == c.app.max.n + c.app.max.n
  {
    var n: nat := c.app.max.n;
    var r := At0(n, 0);
    FirstSpend(c, r);
    assert Records([]) == [] && Entries([]) == [];
    hide Reachable;
    var t := State(L.State([], [r], [L.Loaded([])], {}), map[0 := Spend(r.Record(), 0)], [Entry(0, n)]);
    s := t.(lock := L.State([], [r], [L.Released], {0}));
    assert t.lock.phases[0 := L.Released] == s.lock.phases;
    Then(c, t, Locked(L.Throw(0)), s);
    s := Spends(c, s, r);
    TwoDebits(n, n, c.Width());
  }

  /** The first spend is listed with the lower fee, and its refund is owed. */
  lemma LowersFirst(c: Setting, r: Request) returns (s: State)
    requires c.app.connected && c.app.Limited() && r.amount > 0 && r == At0(r.amount, r.fee) && r.Total() <= c.app.max.n
    ensures Reachable(c, s)
    ensures s == State(L.State([Spend(Payment(0, r.amount, 0, 0, 0, false), 0)], [r], [L.Released], {}),
                       map[], [Entry(0, r.Total())])
  {
    FirstSpend(c, r);
    hide Reachable;
    var t := State(L.State([], [r], [L.Loaded([])], {}), map[0 := Spend(r.Record(), 0)], [Entry(0, r.Total())]);
    var u := State(L.State([Spend(r.Record(), 0)], [r], [L.Released], {}), map[], [Entry(0, r.Total())]);
    assert t.lock.phases[0 := L.Released] == u.lock.phases && [] + [Spend(r.Record(), 0)] == u.lock.cell;
    Then(c, t, Locked(L.Store(0)), u);
    s := u.Put(OnList(0), r.Record().(fee := 0));
    Then(c, u, Lowers(OnList(0), 0), s);
    assert s.lock.cell == [Spend(Payment(0, r.amount, 0, 0, 0, false), 0)];
  }

  lemma OneSat(width: nat)
    requires width > 0
    ensures Total(Prune([Entry(0, 1)], 0, width)) == 1
  {
    assert Prune([Entry(0, 1)][1..], 0, width) == [];
    assert ([Entry(0, 1)] + [])[1..] == [];
  }

  /** A fee that the record no longer shows, and the ledger has not given back, is spent again. */
  lemma UnrefundedSpend(c: Setting) returns (s: State)
    requires c.app.connected && c.app.Limited() && c.lagging && c.app.max.n > 1
    ensures Reachable(c, s) && Within(s.ledger, 0, c.Width()) == c.app.max.n + (c.app.max.n - 1)
  {
    var n: nat := c.app.max.n;
    hide Reachable;
    s := LowersFirst(c, At0(1, n - 1));
    var ps := [Payment(0, 1, 0, 0, 0, false)];
    assert Records(s.lock.cell) == ps && Entries(ps) == [Entry(0, 1)];
    OneSat(c.Width());
    s := Spends(c, s, At0(n - 1, 0));
    TwoDebits(n, n - 1, c.Width());
  }

  /**
   What the ledger has taken on a connection's behalf, less what it has given back, stays within
   the limit in every window of the renewal period, in every run, exactly when no debit goes
   unrecorded and, unless the limit leaves no room for a fee, no request is decided while a
   lowered fee has not been refunded.
   */
  lemma NetDebitsExactly(c: Setting)
    requires c.app.connected && c.app.Limited()
    ensures (forall s, from: int | Reachable(c, s) :: Within(s.ledger, from, c.Width()) <= c.app.max.n) <==> Orderly(c)
  {
    if c.unrecorded {
      var s := UnrecordedSpend(c);
    } else if c.lagging && c.app.max.n > 1 {
      var s := UnrefundedSpend(c);
    } else {
      forall s, from: int | Reachable(c, s) ensures Within(s.ledger, from, c.Width()) <= c.app.max.n {
        var ss: seq<State>, ks: seq<Step> :| Run(c, ss, ks) && ss[|ks|] == s;
        RunTidy(c, ss, ks, |ks|);
        EveryWindow(s.ledger, from, c.Width(), c.app.max.n);
      }
    }
  }
}
