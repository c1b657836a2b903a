/** Counting the entries of a map by their value. */
module Counting {

  ghost function Having<K, L>(m: map<K, L>, l: L): set<K> {
    set k | k in m && m[k] == l
  }

  ghost function HavingAny<K, L>(m: map<K, L>, labels: set<L>): set<K> {
    set k | k in m && m[k] in labels
  }

  ghost function Count<K, L>(m: map<K, L>, l: L): nat {
    |Having(m, l)|
  }

  ghost function Pick<L>(labels: set<L>): L
    requires labels != {}
  {
    var l :| l in labels; l
  }

  ghost function SumOver<L>(labels: set<L>, count: map<L, int>): int
    requires forall l :: l in labels ==> l in count
  {
    if labels == {} then 0
    else
      var l := Pick(labels);
      count[l] + SumOver(labels - {l}, count)
  }

  lemma CountAdd<K, L>(m: map<K, L>, k: K, v: L, l: L)
    requires k !in m
    ensures Count(m[k := v], l) == Count(m, l) + if l == v then 1 else 0
  {
    if l == v {
      assert Having(m[k := v], l) == Having(m, l) + {k};
    } else {
      assert Having(m[k := v], l) == Having(m, l);
    }
  }

  lemma CountRemove<K, L>(m: map<K, L>, k: K, l: L)
    requires k in m
    ensures Count(m - {k}, l) == Count(m, l) - if l == m[k] then 1 else 0
  {
    if l == m[k] {
      assert Having(m - {k}, l) == Having(m, l) - {k};
    } else {
      assert Having(m - {k}, l) == Having(m, l);
    }
  }

  /** Counting label by label counts every entry once. */
  lemma {:induction false} SumIsTotal<K, L>(m: map<K, L>, labels: set<L>, count: map<L, int>)
    requires forall l :: l in labels ==> l in count && count[l] == Count(m, l)
    ensures SumOver(labels, count) == |HavingAny(m, labels)|
    decreases |labels|
  {
    if labels == {} {
      assert HavingAny(m, labels) == {};
    } else {
      var l := Pick(labels);
      SumIsTotal(m, labels - {l}, count);
      assert HavingAny(m, labels) == HavingAny(m, labels - {l}) + Having(m, l);
      assert HavingAny(m, labels - {l}) !! Having(m, l);
    }
  }

  lemma HavingAnyIsAll<K, L>(m: map<K, L>, labels: set<L>)
    requires forall k :: k in m ==> m[k] in labels
    ensures |HavingAny(m, labels)| == |m|
  {
    assert HavingAny(m, labels) == m.Keys;
  }
}
