/**
 The in-process promise-chain mutex: each caller takes the promise stored for the key, puts
 its own in its place, awaits the one it took, and resolves its own in a finally block.
 withLimitLock and withBudgetLock store prev.then(() => next), withCashLock stores next.
 One key's chain; a critical section reads a shared cell and later writes it.
 */
module Locks {
  import R = Runs

  datatype Form = Chained | Plain

  datatype Phase<V> = Waiting | Entered | Loaded(v: V) | Released {
    predicate Holding() { Entered? || Loaded? }
  }

  /** Caller i, in order of arrival, applies ops[i]; thrown are those whose section threw. */
  datatype State<V, O> = State(cell: V, ops: seq<O>, phases: seq<Phase<V>>, thrown: set<nat>) {
    function Goto(i: nat, p: Phase<V>): State<V, O>
      requires i < |phases|
    {
      this.(phases := phases[i := p])
    }
  }

  datatype Step<O> = Arrive(op: O) | Enter(i: nat) | Load(i: nat) | Store(i: nat) | Throw(i: nat)

  /** The promise caller i stored is resolved. */
  predicate Resolved<V(!new)>(form: Form, phases: seq<Phase<V>>, i: nat)
    requires i < |phases|
  {
    phases[i].Released? && (form.Plain? || i == 0 || Resolved(form, phases, i - 1))
  }

  ghost predicate Init<V(!new), O>(s: State<V, O>) { s.ops == [] && s.phases == [] && s.thrown == {} }

  ghost predicate Next<V(!new), O(!new)>(form: Form, f: (V, O) -> V, s: State<V, O>, k: Step<O>, s': State<V, O>) {
    && |s.ops| == |s.phases|
    && match k
       case Arrive(op) => s' == s.(ops := s.ops + [op], phases := s.phases + [Waiting])
       case Enter(i) =>
         && i < |s.phases| && s.phases[i].Waiting? && (i == 0 || Resolved(form, s.phases, i - 1))
         && s' == s.Goto(i, Entered)
       case Load(i) => i < |s.phases| && s.phases[i].Entered? && s' == s.Goto(i, Loaded(s.cell))
       case Store(i) =>
         && i < |s.phases| && s.phases[i].Loaded?
         && s' == s.Goto(i, Released).(cell := f(s.phases[i].v, s.ops[i]))
       case Throw(i) =>
         && i < |s.phases| && s.phases[i].Holding()
         && s' == s.Goto(i, Released).(thrown := s.thrown + {i})
  }

  ghost function Steps<V(!new), O(!new)>(form: Form, f: (V, O) -> V): (State<V, O>, Step<O>, State<V, O>) -> bool {
    (s, k, s') => Next(form, f, s, k, s')
  }

  ghost predicate Run<V(!new), O(!new)>(form: Form, f: (V, O) -> V, ss: seq<State<V, O>>, ks: seq<Step<O>>) {
    R.Run(Init, Steps(form, f), ss, ks)
  }

  /** How many callers, from the first on, are through. */
  function Served<V(!new)>(phases: seq<Phase<V>>): (n: nat)
    ensures n <= |phases|
    ensures forall i :: 0 <= i < n ==> phases[i].Released?
    ensures n < |phases| ==> !phases[n].Released?
  {
    if phases == [] || !phases[0].Released? then 0 else 1 + Served(phases[1..])
  }

  /** The first n operations one after the other, leaving out those that threw. */
  function Serial<V, O>(f: (V, O) -> V, v: V, ops: seq<O>, thrown: set<nat>, n: nat): V
    requires n <= |ops|
  {
    if n == 0 then v
    else
      var before := Serial(f, v, ops, thrown, n - 1);
      if n - 1 in thrown then before else f(before, ops[n - 1])
  }

  /** Nobody is past waiting unless all before are through. */
  ghost predicate InOrder<V(!new)>(phases: seq<Phase<V>>) {
    forall i, j :: 0 <= i < j < |phases| && !phases[j].Waiting? ==> phases[i].Released?
  }

  /** And the cell is their serial result. */
  ghost predicate Inv<V(!new), O(!new)>(f: (V, O) -> V, v: V, s: State<V, O>) {
    && |s.ops| == |s.phases|
    && InOrder(s.phases)
    && (forall i :: i in s.thrown ==> i < Served(s.phases))
    && s.cell == Serial(f, v, s.ops, s.thrown, Served(s.phases))
    && (forall i :: 0 <= i < |s.phases| && s.phases[i].Loaded? ==> s.phases[i].v == s.cell)
  }

  lemma {:induction false} AllBefore<V(!new)>(form: Form, phases: seq<Phase<V>>, i: nat)
    requires i < |phases| && InOrder(phases)
    ensures Resolved(form, phases, i) <==> forall j :: 0 <= j <= i ==> phases[j].Released?
  {
    if i > 0 {
      AllBefore(form, phases, i - 1);
    }
  }

  /** The order holds whatever the sections do to the cell. */
  lemma OrderNext<V(!new), O(!new)>(form: Form, f: (V, O) -> V, s: State<V, O>, k: Step<O>, s': State<V, O>)
    requires InOrder(s.phases) && Next(form, f, s, k, s')
    ensures InOrder(s'.phases)
  {
    if k.Enter? && k.i > 0 {
      AllBefore(form, s.phases, k.i - 1);
    }
  }

  lemma ServedIs<V(!new)>(phases: seq<Phase<V>>, n: nat)
    requires n <= |phases| && forall i :: 0 <= i < n ==> phases[i].Released?
    requires n < |phases| ==> !phases[n].Released?
    ensures Served(phases) == n
  {
  }

  lemma {:induction false} SerialFrame<V, O>(f: (V, O) -> V, v: V, ops: seq<O>, more: seq<O>, thrown: set<nat>,
                                             thrown': set<nat>, n: nat)
    requires n <= |ops| && ops <= more && forall i :: 0 <= i < n ==> (i in thrown <==> i in thrown')
    ensures Serial(f, v, ops, thrown, n) == Serial(f, v, more, thrown', n)
  {
    if n > 0 {
      SerialFrame(f, v, ops, more, thrown, thrown', n - 1);
    }
  }

  lemma ArriveInv<V(!new), O(!new)>(form: Form, f: (V, O) -> V, v: V, s: State<V, O>, op: O, s': State<V, O>)
    requires Inv(f, v, s) && Next(form, f, s, Arrive(op), s')
    ensures Inv(f, v, s')
  {
    ServedIs(s'.phases, Served(s.phases));
    SerialFrame(f, v, s.ops, s'.ops, s.thrown, s.thrown, Served(s.phases));
  }

  /** The holder lets go: it was the first not served. */
  lemma ReleaseServes<V(!new), O(!new)>(form: Form, f: (V, O) -> V, v: V, s: State<V, O>, k: Step<O>, s': State<V, O>)
    requires Inv(f, v, s) && Next(form, f, s, k, s') && (k.Store? || k.Throw?)
    ensures Served(s.phases) == k.i && Served(s'.phases) == k.i + 1
  {
    ServedIs(s.phases, k.i);
    ServedIs(s'.phases, k.i + 1);
  }

  /** Arriving, entering and reading serve nobody. */
  lemma StillServes<V(!new), O(!new)>(form: Form, f: (V, O) -> V, v: V, s: State<V, O>, k: Step<O>, s': State<V, O>)
    requires Inv(f, v, s) && Next(form, f, s, k, s') && (k.Arrive? || k.Enter? || k.Load?)
    ensures Served(s'.phases) == Served(s.phases)
  {
    if k.Arrive? {
      ServedIs(s'.phases, Served(s.phases));
    } else {
      if k.Enter? && k.i > 0 {
        AllBefore(form, s.phases, k.i - 1);
      }
      ServedIs(s.phases, k.i);
      ServedIs(s'.phases, k.i);
    }
  }

  lemma ReleaseInv<V(!new), O(!new)>(form: Form, f: (V, O) -> V, v: V, s: State<V, O>, k: Step<O>, s': State<V, O>)
    requires Inv(f, v, s) && Next(form, f, s, k, s') && (k.Store? || k.Throw?)
    ensures Inv(f, v, s')
  {
    hide Served;
    ReleaseServes(form, f, v, s, k, s');
    SerialFrame(f, v, s.ops, s'.ops, s.thrown, s'.thrown, k.i);
  }

  lemma NextInv<V(!new), O(!new)>(form: Form, f: (V, O) -> V, v: V, s: State<V, O>, k: Step<O>, s': State<V, O>)
    requires Inv(f, v, s) && Next(form, f, s, k, s')
    ensures Inv(f, v, s')
  {
    match k
    case Arrive(op) => ArriveInv(form, f, v, s, op, s');
    case Enter(i) =>
      if i > 0 {
        AllBefore(form, s.phases, i - 1);
      }
      ServedIs(s.phases, i);
      ServedIs(s'.phases, i);
    case Load(i) =>
      ServedIs(s.phases, i);
      ServedIs(s'.phases, i);
    case _ => ReleaseInv(form, f, v, s, k, s');
  }

  lemma {:induction false} RunInv<V(!new), O(!new)>(form: Form, f: (V, O) -> V, ss: seq<State<V, O>>,
                                                    ks: seq<Step<O>>, n: nat)
    requires Run(form, f, ss, ks) && n < |ss|
    ensures forall m :: 0 <= m <= n ==> Inv(f, ss[0].cell, ss[m])
  {
    if n > 0 {
      RunInv(form, f, ss, ks, n - 1);
      NextInv(form, f, ss[0].cell, ss[n - 1], ks[n - 1], ss[n]);
    }
  }

  /** Mutual exclusion and first-come order, for either form of the chain and whoever throws. */
  lemma OneAtATimeInOrder<V(!new), O(!new)>(form: Form, f: (V, O) -> V, ss: seq<State<V, O>>, ks: seq<Step<O>>,
                                            n: nat, i: nat, j: nat)
    requires Run(form, f, ss, ks) && n < |ss| && i < j < |ss[n].phases|
    ensures !(ss[n].phases[i].Holding() && ss[n].phases[j].Holding())
    ensures !ss[n].phases[j].Waiting? ==> ss[n].phases[i].Released?
  {
    RunInv(form, f, ss, ks, n);
  }

  /** No section, finished or thrown, leaves the lock stuck: the first in line can always enter. */
  lemma FirstInLineEnters<V(!new), O(!new)>(form: Form, f: (V, O) -> V, ss: seq<State<V, O>>, ks: seq<Step<O>>, n: nat)
    requires Run(form, f, ss, ks) && n < |ss|
    requires forall i :: 0 <= i < |ss[n].phases| ==> !ss[n].phases[i].Holding()
    ensures var i := Served(ss[n].phases);
            i < |ss[n].phases| ==> Next(form, f, ss[n], Enter(i), ss[n].Goto(i, Entered))
  {
    RunInv(form, f, ss, ks, n);
    var i := Served(ss[n].phases);
    if 0 < i <= |ss[n].phases| {
      AllBefore(form, ss[n].phases, i - 1);
    }
  }

  /**
   Read-modify-write sections linearize: the cell holds what the served operations give one
   after the other in order of arrival.
   */
  lemma Linearizes<V(!new), O(!new)>(form: Form, f: (V, O) -> V, ss: seq<State<V, O>>, ks: seq<Step<O>>, n: nat)
    requires Run(form, f, ss, ks) && n < |ss|
    ensures |ss[n].ops| == |ss[n].phases|
    ensures ss[n].cell == Serial(f, ss[0].cell, ss[n].ops, ss[n].thrown, Served(ss[n].phases))
  {
    RunInv(form, f, ss, ks, n);
  }
}
