/** Runs of a state machine given by its first states and its steps. */
module Runs {

  ghost predicate Run<S(!new), K(!new)>(init: S -> bool, next: (S, K, S) -> bool, ss: seq<S>, ks: seq<K>) {
    && |ss| == |ks| + 1
    && init(ss[0])
    && forall n :: 0 <= n < |ks| ==> next(ss[n], ks[n], ss[n + 1])
  }

  /** Some run ends in s. */
  ghost predicate Reachable<S(!new), K(!new)>(init: S -> bool, next: (S, K, S) -> bool, s: S) {
    exists ss: seq<S>, ks: seq<K> :: Run(init, next, ss, ks) && ss[|ks|] == s
  }

  lemma Starts<S(!new), K(!new)>(init: S -> bool, next: (S, K, S) -> bool, s: S)
    requires init(s)
    ensures Reachable(init, next, s)
  {
    assert Run(init, next, [s], []);
  }

  lemma Then<S(!new), K(!new)>(init: S -> bool, next: (S, K, S) -> bool, s: S, k: K, s': S)
    requires Reachable(init, next, s) && next(s, k, s')
    ensures Reachable(init, next, s')
  {
    var ss: seq<S>, ks: seq<K> :| Run(init, next, ss, ks) && ss[|ks|] == s;
    var ss', ks' := ss + [s'], ks + [k];
    forall n | 0 <= n < |ks'| ensures next(ss'[n], ks'[n], ss'[n + 1]) {
      if n < |ks| {
        assert next(ss[n], ks[n], ss[n + 1]);
      }
    }
    assert Run(init, next, ss', ks');
  }
}
