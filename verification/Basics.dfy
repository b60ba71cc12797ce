/** What several components share: optional values, maps that default to zero, and how a remote call can go wrong. */
module Basics {
  datatype Option<+T> = None | Some(value: T)

  /** A call to Redis, Postgres or the RPC node works, fails without effect, or takes effect and still reports an error. */
  datatype Fault = Works | FailsBefore | FailsAfter

  /** Subtraction floored at zero. */
  function Minus(a: nat, b: nat): nat {
    if a < b then 0 else a - b
  }

  function At<K>(m: map<K, nat>, k: K): nat {
    if k in m then m[k] else 0
  }

  /** Some element of a set, the same one each time. */
  ghost function Pick<T(!new)>(s: set<T>): (x: T)
    requires s != {}
    ensures x in s
  {
    var x :| x in s; x
  }

  /** The sum of `m` over a set of keys. */
  ghost function SumOver<K(!new)>(m: map<K, nat>, ks: set<K>): nat {
    if ks == {} then 0 else
      var k := Pick(ks);
      At(m, k) + SumOver(m, ks - {k})
  }

  lemma {:induction false} SumOverBump<K(!new)>(m: map<K, nat>, m': map<K, nat>, ks: set<K>, bumped: K, raise: nat)
    requires forall k | k in ks :: At(m', k) == At(m, k) + if k == bumped then raise else 0
    ensures SumOver(m', ks) == SumOver(m, ks) + if bumped in ks then raise else 0
  {
    if ks != {} {
      SumOverBump(m, m', ks - {Pick(ks)}, bumped, raise);
    }
  }

  lemma {:induction false} SumOverZero<K(!new)>(m: map<K, nat>, ks: set<K>)
    requires forall k | k in ks :: At(m, k) == 0
    ensures SumOver(m, ks) == 0
  {
    if ks != {} {
      SumOverZero(m, ks - {Pick(ks)});
    }
  }

  lemma {:induction false} SumOverSplit<K(!new)>(m: map<K, nat>, ks: set<K>, k: K)
    requires k in ks
    ensures SumOver(m, ks) == At(m, k) + SumOver(m, ks - {k})
    decreases |ks|
  {
    var p := Pick(ks);
    if p != k {
      SumOverSplit(m, ks - {p}, k);
      SumOverSplit(m, ks - {k}, p);
      assert ks - {p} - {k} == ks - {k} - {p};
    }
  }
}
