/**
 Confirming one on-chain deposit: any number of /confirm calls, which take a lock but test a
 copy of the record read before it, and of watched-transaction callbacks, which take none.
 Each tbConfirm moves the deposit's amount from pending to balance.
 */
module Confirmations {
  import R = Runs

  /**
   What may go wrong:
     stale   the record may be read while another call, having read it unconfirmed, has yet
             to write it
     late    an error may follow tbConfirm's ledger write, before the record is written
     crash   the process may die
   */
  datatype Setting = Setting(stale: bool, late: bool, crash: bool)

  datatype Pc =
    | Idle
      // a /confirm call
    | Read(confirmed: bool)
    | Won(confirmed: bool)       // holds the lock
    | Moved                      // tbConfirm has run
    | Stored                     // the record says confirmed
      // a watched-transaction callback
    | Watching                   // it read an unconfirmed record
    | Marked                     // the record says confirmed, tbConfirm still to come
  {
    predicate Holding() { Won? || Moved? || Stored? }

    /** It has read an unconfirmed record and not written it. */
    predicate Open() { (Read? && !confirmed) || (Won? && !confirmed) || Moved? || Watching? }
  }

  /** moves counts the tbConfirm calls. The 60 s lock outlives its holder. */
  datatype State = State(confirmed: bool, locked: bool, moves: nat, procs: map<nat, Pc>) {
    function At(i: nat): Pc { if i in procs then procs[i] else Idle }

    function Goto(i: nat, pc: Pc): State { this.(procs := procs[i := pc]) }

    predicate NoneOpen() { forall i :: i in procs ==> !procs[i].Open() }
  }

  datatype Step = Confirm(i: nat) | Watch(i: nat) | Advance(i: nat) | GiveUp(i: nat) | Throw(i: nat) | Expire | Crash

  predicate Init(s: State) { s == State(false, false, 0, map[]) }

  predicate AdvanceNext(s: State, i: nat, s': State) {
    match s.At(i)
    case Idle => false
    case Read(confirmed) =>
      s' == if s.locked then s.Goto(i, Idle) else s.(locked := true).Goto(i, Won(confirmed))
    case Won(confirmed) =>
      s' == if confirmed then s.(locked := false).Goto(i, Idle) else s.(moves := s.moves + 1).Goto(i, Moved)
    case Moved => s' == s.(confirmed := true).Goto(i, Stored)
    case Stored => s' == s.(locked := false).Goto(i, Idle)
    case Watching => s' == s.(confirmed := true).Goto(i, Marked)
    case Marked => s' == s.(moves := s.moves + 1).Goto(i, Idle)
  }

  predicate Next(c: Setting, s: State, k: Step, s': State) {
    match k
    case Confirm(i) => s.At(i).Idle? && (c.stale || s.NoneOpen()) && s' == s.Goto(i, Read(s.confirmed))
    case Watch(i) =>
      s.At(i).Idle? && (c.stale || s.NoneOpen()) && s' == s.Goto(i, if s.confirmed then Idle else Watching)
    case Advance(i) => AdvanceNext(s, i, s')
    case GiveUp(i) => s.At(i).Won? && s' == s.(locked := false).Goto(i, Idle)      // no invoice
    case Throw(i) =>
      // the lock is left to its expiry
      (s.At(i).Won? || (s.At(i).Moved? && c.late)) && s' == s.Goto(i, Idle)
    case Expire => (forall i :: i in s.procs ==> !s.procs[i].Holding()) && s' == s.(locked := false)
    case Crash => c.crash && s' == s.(procs := map[])
  }

  ghost function Steps(c: Setting): (State, Step, State) -> bool { (s, k, s') => Next(c, s, k, s') }

  ghost predicate Run(c: Setting, ss: seq<State>, ks: seq<Step>) { R.Run(Init, Steps(c), ss, ks) }

  /** Whoever is about to move the amount is the first to. */
  predicate PcInv(s: State, pc: Pc) {
    match pc
    case Idle => true
    case Read(confirmed) => confirmed || (s.moves == 0 && !s.confirmed)
    case Won(confirmed) => confirmed || (s.moves == 0 && !s.confirmed)
    case Moved => s.moves == 1 && !s.confirmed
    case Stored => true
    case Watching => s.moves == 0 && !s.confirmed
    case Marked => s.moves == 0 && s.confirmed
  }

  /** At most one call is between its unconfirmed read and its move or write. */
  ghost predicate OneOpen(s: State) {
    forall i, j | i in s.procs && j in s.procs && Acting(s.procs[i]) && Acting(s.procs[j]) :: i == j
  }

  predicate Acting(pc: Pc) { pc.Open() || pc.Marked? }

  ghost predicate Inv(s: State) {
    && OneOpen(s) && s.moves <= 1
    && (forall i :: i in s.procs ==> PcInv(s, s.procs[i]))
    && (s.moves == 1 && !s.confirmed ==> exists i :: i in s.procs && s.procs[i].Moved?)
    && (s.moves == 0 && s.confirmed ==> exists i :: i in s.procs && s.procs[i].Marked?)
  }

  predicate Orderly(c: Setting) { !c.stale && !c.late && !c.crash }

  lemma StaysOne(c: Setting, s: State, k: Step, s': State)
    requires Orderly(c) && Inv(s) && Next(c, s, k, s')
    ensures OneOpen(s')
  {
    if k.Confirm? || k.Watch? {
      forall i | i in s.procs && Acting(s.procs[i]) ensures s.confirmed {
        assert PcInv(s, s.procs[i]);
      }
    }
  }

  /** A record that says confirmed ahead of the move has its callback still at work. */
  lemma MarkedKept(c: Setting, s: State, k: Step, s': State)
    requires Orderly(c) && Inv(s) && Next(c, s, k, s')
    ensures s'.moves == 0 && s'.confirmed ==> exists i :: i in s'.procs && s'.procs[i].Marked?
  {
    if s.moves == 0 && s.confirmed {
      var i :| i in s.procs && s.procs[i].Marked?;
      assert s'.moves == 1 || s'.procs[i].Marked?;
    } else if k.Advance? {
      assert PcInv(s, s.At(k.i));
      assert s'.moves == 0 && s'.confirmed ==> s'.procs[k.i].Marked?;
    }
  }

  lemma NextInv(c: Setting, s: State, k: Step, s': State)
    requires Orderly(c) && Inv(s) && Next(c, s, k, s')
    ensures Inv(s')
  {
    StaysOne(c, s, k, s');
    forall i | i in s'.procs ensures PcInv(s', s'.procs[i]) {
      assert i in s.procs ==> PcInv(s, s.procs[i]);
      assert k.Advance? ==> PcInv(s, s.At(k.i));
    }
    if s.moves == 1 && !s.confirmed {
      var i :| i in s.procs && s.procs[i].Moved?;
      assert s'.procs[i].Moved? || s'.confirmed;
    }
    if k.Advance? && s'.At(k.i).Moved? {
      assert s'.procs[k.i].Moved?;
    }
    MarkedKept(c, s, k, s');
  }

  lemma {:induction false} RunInv(c: Setting, ss: seq<State>, ks: seq<Step>, n: nat)
    requires Orderly(c) && Run(c, ss, ks) && n < |ss|
    ensures forall m :: 0 <= m <= n ==> Inv(ss[m])
  {
    if n > 0 {
      RunInv(c, ss, ks, n - 1);
      NextInv(c, ss[n - 1], ks[n - 1], ss[n]);
    }
  }

  /** Some run ends in s. */
  ghost predicate Reachable(c: Setting, s: State) { R.Reachable(Init, Steps(c), s) }

  lemma Then(c: Setting, s: State, k: Step, s': State)
    requires Reachable(c, s) && Next(c, s, k, s')
    ensures Reachable(c, s')
  {
    R.Then(Init, Steps(c), s, k, s');
  }

  /** A call that holds an unconfirmed copy takes the free lock and moves the amount. */
  lemma MoveOnce(c: Setting, s: State, i: nat)
    requires Reachable(c, s) && s.At(i) == Read(false) && !s.locked
    ensures Reachable(c, s.(locked := true, moves := s.moves + 1, procs := s.procs[i := Moved]))
  {
    hide Reachable;
    var t := s.(locked := true).Goto(i, Won(false));
    Then(c, s, Advance(i), t);
    assert t.procs[i := Moved] == s.procs[i := Moved];
    Then(c, t, Advance(i), s.(locked := true, moves := s.moves + 1, procs := s.procs[i := Moved]));
  }

  /** Left to itself, a call on an unconfirmed record moves the amount and says so in the record. */
  lemma ConfirmsAlone(c: Setting, s: State, i: nat)
    requires Reachable(c, s) && s.At(i).Idle? && s.NoneOpen() && !s.confirmed && !s.locked
    ensures Reachable(c, s.(confirmed := true, moves := s.moves + 1, procs := s.procs[i := Idle]))
  {
    hide Reachable;
    var t := s.Goto(i, Read(false));
    Then(c, s, Confirm(i), t);
    MoveOnce(c, t, i);
    var u := s.(locked := true, moves := s.moves + 1, procs := s.procs[i := Moved]);
    assert t.procs[i := Moved] == u.procs;
    t := s.(confirmed := true, locked := true, moves := s.moves + 1, procs := s.procs[i := Stored]);
    assert u.procs[i := Stored] == t.procs;
    Then(c, u, Advance(i), t);
    assert t.procs[i := Idle] == s.procs[i := Idle];
    Then(c, t, Advance(i), s.(confirmed := true, moves := s.moves + 1, procs := s.procs[i := Idle]));
  }

  /** So does a callback. */
  lemma WatchesAlone(c: Setting, s: State, i: nat)
    requires Reachable(c, s) && s.At(i).Idle? && s.NoneOpen() && !s.confirmed
    ensures Reachable(c, s.(confirmed := true, moves := s.moves + 1, procs := s.procs[i := Idle]))
  {
    hide Reachable;
    var t := s.Goto(i, Watching);
    Then(c, s, Watch(i), t);
    var u := s.(confirmed := true, procs := s.procs[i := Marked]);
    assert t.procs[i := Marked] == u.procs;
    Then(c, t, Advance(i), u);
    assert u.procs[i := Idle] == s.procs[i := Idle];
    Then(c, u, Advance(i), s.(confirmed := true, moves := s.moves + 1, procs := s.procs[i := Idle]));
  }

  /** When no call is under way, the amount has been moved exactly if the record says so. */
  lemma ConfirmedMeansMoved(c: Setting, ss: seq<State>, ks: seq<Step>, n: nat)
    requires Orderly(c) && Run(c, ss, ks) && n < |ss| && forall i :: i in ss[n].procs ==> ss[n].procs[i].Idle?
    ensures ss[n].moves == if ss[n].confirmed then 1 else 0
  {
    RunInv(c, ss, ks, n);
  }

  /** Two calls that both read the record before either has written it move the amount twice. */
  lemma OverlapMovesTwice(c: Setting) returns (s: State)
    requires c.stale
    ensures Reachable(c, s) && s.moves == 2
  {
    var s0 := State(false, false, 0, map[]);
    R.Starts(Init, Steps(c), s0);
    hide Reachable;
    Then(c, s0, Confirm(0), State(false, false, 0, map[0 := Read(false)]));
    s := State(false, false, 0, map[0 := Read(false), 1 := Read(false)]);
    Then(c, State(false, false, 0, map[0 := Read(false)]), Confirm(1), s);
    MoveOnce(c, s, 0);
    var t := State(false, true, 1, s.procs[0 := Moved]);
    s := State(true, true, 1, t.procs[0 := Stored]);
    Then(c, t, Advance(0), s);
    t := State(true, false, 1, s.procs[0 := Idle]);
    Then(c, s, Advance(0), t);
    MoveOnce(c, t, 1);
    s := State(true, true, 2, t.procs[1 := Moved]);
  }

  /** The amount is moved, and the lock expires with the record still unconfirmed. */
  lemma MovedUnrecorded(c: Setting) returns (s: State)
    requires c.late || c.crash
    ensures Reachable(c, s) && s == State(false, false, 1, if c.late then map[0 := Idle] else map[])
  {
    var s0 := State(false, false, 0, map[]);
    R.Starts(Init, Steps(c), s0);
    hide Reachable;
    Then(c, s0, Confirm(0), State(false, false, 0, map[0 := Read(false)]));
    MoveOnce(c, State(false, false, 0, map[0 := Read(false)]), 0);
    var t := State(false, true, 1, map[0 := Read(false)][0 := Moved]);
    var k := if c.late then Throw(0) else Crash;
    s := State(false, true, 1, if c.late then map[0 := Idle] else map[]);
    Then(c, t, k, s);
    Then(c, s, Expire, s.(locked := false));
    s := s.(locked := false);
  }

  /** The next call, one at a time and in a live process, moves it again. */
  lemma FaultMovesTwice(c: Setting) returns (s: State)
    requires c.late || c.crash
    ensures Reachable(c, s) && s.moves == 2
  {
    hide Reachable;
    var t := MovedUnrecorded(c);
    Then(c, t, Confirm(0), t.Goto(0, Read(false)));
    MoveOnce(c, t.Goto(0, Read(false)), 0);
    s := t.(locked := true, moves := 2, procs := t.Goto(0, Read(false)).procs[0 := Moved]);
  }

  /**
   A deposit is confirmed at most once in every run exactly when no call reads the record
   between another's unconfirmed read and its write, none fails between tbConfirm's ledger
   write and the record's, and the process does not die.
   */
  lemma ConfirmsOnceExactly(c: Setting)
    ensures (forall s | Reachable(c, s) :: s.moves <= 1) <==> Orderly(c)
  {
    if c.stale {
      var s := OverlapMovesTwice(c);
    } else if c.late || c.crash {
      var s := FaultMovesTwice(c);
    } else {
      forall s | Reachable(c, s) ensures s.moves <= 1 {
        var ss: seq<State>, ks: seq<Step> :| Run(c, ss, ks) && ss[|ks|] == s;
        RunInv(c, ss, ks, |ks|);
      }
    }
  }
}
