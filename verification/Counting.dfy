/** Cardinality facts shared by the protocol proofs: how many entries of a map satisfy a
    predicate, and how that number moves when one entry is rewritten. */
module Counting {

  datatype Option<+T> = None | Some(value: T)

  function Bit(b: bool): (n: nat)
    ensures n <= 1
  {
    if b then 1 else 0
  }

  function Selected<K, V>(m: map<K, V>, p: V -> bool): set<K> {
    set k | k in m && p(m[k])
  }

  function Count<K, V>(m: map<K, V>, p: V -> bool): nat {
    |Selected(m, p)|
  }

  lemma SelectedSplit<K, V>(m: map<K, V>, k: K, p: V -> bool)
    requires k in m
    ensures |Selected(m, p)| == |Selected(m, p) - {k}| + Bit(p(m[k]))
  {
    if p(m[k]) { assert k in Selected(m, p); } else { assert Selected(m, p) - {k} == Selected(m, p); }
  }

  lemma CountUpdate<K, V>(m: map<K, V>, k: K, v: V, p: V -> bool)
    requires k in m
    ensures Count(m[k := v], p) == Count(m, p) - Bit(p(m[k])) + Bit(p(v))
  {
    var m' := m[k := v];
    assert forall j :: j != k ==> (j in m' <==> j in m) && (j in m ==> m'[j] == m[j]);
    SelectedSplit(m, k, p);
    SelectedSplit(m', k, p);
    assert Selected(m', p) - {k} == Selected(m, p) - {k};
  }

  lemma SubsetCard<T>(a: set<T>, b: set<T>)
    requires a <= b
    ensures |a| <= |b|
  {
    assert b == a + (b - a);
  }

  lemma CountMono<K, V>(m: map<K, V>, p: V -> bool, q: V -> bool)
    requires forall v :: p(v) ==> q(v)
    ensures Count(m, p) <= Count(m, q)
  {
    SubsetCard(Selected(m, p), Selected(m, q));
  }

  lemma CountTwo<K, V>(m: map<K, V>, k: K, j: K, p: V -> bool)
    requires k in m && j in m && k != j && p(m[k]) && p(m[j])
    ensures Count(m, p) >= 2
  {
    SubsetCard({k, j}, Selected(m, p));
  }

  /** An injective image has the size of its domain. */
  lemma {:induction false} InjectiveImage<S, T>(domain: set<S>, f: S -> T, target: set<T>)
    requires forall x :: x in domain ==> f(x) in target
    requires forall x, y :: x in domain && y in domain && f(x) == f(y) ==> x == y
    ensures |domain| <= |target|
    decreases |domain|
  {
    if domain != {} {
      var x :| x in domain;
      InjectiveImage(domain - {x}, f, target - {f(x)});
    }
  }

  /** The first n numbers. */
  function Below(n: nat): (r: set<nat>)
    ensures |r| == n && forall i: nat :: i in r <==> i < n
  {
    if n == 0 then {} else Below(n - 1) + {n - 1}
  }
}
