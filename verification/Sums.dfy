/** Sums over tables. A query returns rows in an order SQLite chooses, so
    every total is stated as a sum over a finite map and every loop over an
    arbitrary enumeration of that map's keys. */
module Sums {
  import opened Types

  lemma RemoveSize<K, V>(m: map<K, V>, k: K)
    requires k in m
    ensures |m - {k}| == |m| - 1
  {
    assert (m - {k}).Keys == m.Keys - {k};
  }

  /** `order` lists every element of `s` exactly once. */
  ghost predicate Enumerates<K(!new)>(order: seq<K>, s: set<K>) {
    && (forall k :: k in order <==> k in s)
    && (forall i, j | 0 <= i < j < |order| :: order[i] != order[j])
  }

  lemma EmptyEnumeration<K(!new)>(order: seq<K>, s: set<K>)
    requires Enumerates(order, s)
    ensures order == [] <==> s == {}
  {
    if order != [] {
      assert order[0] in s;
    }
  }

  lemma {:induction false} EnumerationExists<K(!new)>(s: set<K>)
    ensures exists order :: Enumerates(order, s)
    decreases s
  {
    if s == {} {
      assert Enumerates([], s);
    } else {
      var k :| k in s;
      EnumerationExists(s - {k});
      var order :| Enumerates(order, s - {k});
      assert Enumerates(order + [k], s);
    }
  }

  ghost function SumSeq<K>(order: seq<K>, m: map<K, int>): int
    requires forall k | k in order :: k in m
  {
    if order == [] then 0 else m[order[0]] + SumSeq(order[1..], m)
  }

  lemma {:induction false} SumSeqRestrict<K>(order: seq<K>, m: map<K, int>, n: map<K, int>)
    requires forall k | k in order :: k in m && k in n && m[k] == n[k]
    ensures SumSeq(order, m) == SumSeq(order, n)
  {
    if order != [] {
      SumSeqRestrict(order[1..], m, n);
    }
  }

  lemma {:induction false} SumSeqAppend<K>(order: seq<K>, k: K, m: map<K, int>)
    requires forall j | j in order + [k] :: j in m
    ensures forall j | j in order :: j in m
    ensures k in m
    ensures SumSeq(order + [k], m) == SumSeq(order, m) + m[k]
  {
    assert k in order + [k];
    assert forall j | j in order :: j in order + [k];
    if order == [] {
      assert [k][1..] == [];
    } else {
      assert (order + [k])[1..] == order[1..] + [k];
      SumSeqAppend(order[1..], k, m);
    }
  }

  /** Taking one entry out of the middle takes its value out of the sum. */
  lemma {:induction false} SumSeqWithout<K>(order: seq<K>, i: nat, m: map<K, int>)
    requires forall k | k in order :: k in m
    requires i < |order|
    ensures SumSeq(order, m) == m[order[i]] + SumSeq(order[..i] + order[i + 1..], m)
  {
    if i == 0 {
      assert order[..0] + order[1..] == order[1..];
    } else {
      SumSeqWithout(order[1..], i - 1, m);
      var rest := order[..i] + order[i + 1..];
      assert rest[1..] == order[1..][..i - 1] + order[1..][i..];
    }
  }

  lemma EnumeratesWithout<K(!new)>(order: seq<K>, s: set<K>, i: nat)
    requires Enumerates(order, s) && i < |order|
    ensures Enumerates(Without(order, i), s - {order[i]})
  {
    var rest := Without(order, i);
    forall k ensures k in rest <==> k in s - {order[i]} {
      if k in s && k != order[i] {
        var j :| 0 <= j < |order| && order[j] == k;
        assert rest[if j < i then j else j - 1] == k;
      }
    }
  }

  function Without<K>(order: seq<K>, i: nat): seq<K>
    requires i < |order|
  {
    order[..i] + order[i + 1..]
  }

  lemma TakeOut<K(!new)>(order: seq<K>, i: nat, m: map<K, int>)
    requires Enumerates(order, m.Keys) && i < |order|
    ensures order[i] in m
    ensures Enumerates(Without(order, i), (m - {order[i]}).Keys)
    ensures SumSeq(order, m) == m[order[i]] + SumSeq(Without(order, i), m - {order[i]})
  {
    assert order[i] in order;
    var n := m - {order[i]};
    assert n.Keys == m.Keys - {order[i]};
    SumSeqWithout(order, i, m);
    EnumeratesWithout(order, m.Keys, i);
    SumSeqRestrict(Without(order, i), m, n);
  }

  /** Whatever order the rows arrive in, they add up to the same total. */
  lemma {:induction false} OrderDoesNotMatter<K(!new)>(order: seq<K>, other: seq<K>, m: map<K, int>)
    requires Enumerates(order, m.Keys) && Enumerates(other, m.Keys)
    ensures SumSeq(order, m) == SumSeq(other, m)
    decreases |order|
  {
    EmptyEnumeration(order, m.Keys);
    EmptyEnumeration(other, m.Keys);
    if order != [] {
      TakeOut(order, 0, m);
      assert order[0] in other;
      var i :| 0 <= i < |other| && other[i] == order[0];
      TakeOut(other, i, m);
      OrderDoesNotMatter(Without(order, 0), Without(other, i), m - {order[0]});
    }
  }

  ghost function AnyOrder<K(!new)>(s: set<K>): (order: seq<K>)
    ensures Enumerates(order, s)
  {
    EnumerationExists(s);
    var order :| Enumerates(order, s);
    order
  }

  /** The total of a column. */
  ghost function Sum<K(!new)>(m: map<K, int>): int { SumSeq(AnyOrder(m.Keys), m) }

  lemma EnumerationSum<K(!new)>(order: seq<K>, m: map<K, int>)
    requires Enumerates(order, m.Keys)
    ensures SumSeq(order, m) == Sum(m)
  {
    OrderDoesNotMatter(order, AnyOrder(m.Keys), m);
  }

  lemma SumEmpty<K(!new)>(m: map<K, int>)
    requires m == map[]
    ensures Sum(m) == 0
  {
    EnumerationSum([], m);
  }

  lemma SumRemove<K(!new)>(m: map<K, int>, k: K)
    requires k in m
    ensures Sum(m) == m[k] + Sum(m - {k})
  {
    var order := AnyOrder(m.Keys);
    assert k in order;
    var i :| 0 <= i < |order| && order[i] == k;
    TakeOut(order, i, m);
    EnumerationSum(Without(order, i), m - {k});
  }

  /** Writing one row changes a total by exactly what the row changed. */
  lemma SumUpdate<K(!new)>(m: map<K, int>, k: K, v: int)
    ensures Sum(m[k := v]) == Sum(m) + v - (if k in m then m[k] else 0)
  {
    SumRemove(m[k := v], k);
    assert m[k := v] - {k} == m - {k};
    if k in m {
      SumRemove(m, k);
    } else {
      assert m - {k} == m;
    }
  }

  lemma {:induction false} SumNonNegative<K(!new)>(m: map<K, int>)
    requires forall k | k in m :: m[k] >= 0
    ensures Sum(m) >= 0
    ensures forall k | k in m :: m[k] <= Sum(m)
    decreases |m|
  {
    forall k | k in m ensures 0 <= m[k] <= Sum(m) {
      RemoveSize(m, k);
      SumRemove(m, k);
      SumNonNegative(m - {k});
    }
    if m == map[] {
      SumEmpty(m);
    } else {
      var k :| k in m;
    }
  }

  lemma {:induction false} SumOfZeros<K(!new)>(m: map<K, int>)
    requires forall k | k in m :: m[k] == 0
    ensures Sum(m) == 0
    decreases |m|
  {
    if m == map[] {
      SumEmpty(m);
    } else {
      var k :| k in m;
      RemoveSize(m, k);
      SumRemove(m, k);
      SumOfZeros(m - {k});
    }
  }

  /** A total over fewer rows of non-negative values is no larger. */
  lemma {:induction false} SumMonotone<K(!new)>(small: map<K, int>, large: map<K, int>)
    requires forall k | k in small :: k in large && small[k] <= large[k]
    requires forall k | k in large :: large[k] >= 0
    ensures Sum(small) <= Sum(large)
    decreases |small|
  {
    if small == map[] {
      SumEmpty(small);
      SumNonNegative(large);
    } else {
      var k :| k in small;
      RemoveSize(small, k);
      SumRemove(small, k);
      SumRemove(large, k);
      SumMonotone(small - {k}, large - {k});
    }
  }

  /** An injective image has as many elements as its source. */
  lemma {:induction false} InjectiveSize<A(!new), B(!new)>(s: set<A>, t: set<B>, f: A -> B)
    requires forall x | x in s :: f(x) in t
    requires forall x, y | x in s && y in s && f(x) == f(y) :: x == y
    ensures |s| <= |t|
    decreases s
  {
    if s != {} {
      var x :| x in s;
      InjectiveSize(s - {x}, t - {f(x)}, f);
    }
  }

  /** A total over rows split two ways is the sum of the two totals. */
  lemma {:induction false} SumPartition<K(!new)>(all: map<K, int>, part: map<K, int>)
    requires forall k | k in part :: k in all && part[k] == all[k]
    ensures Sum(all) == Sum(part) + Sum(all - part.Keys)
    decreases |part|
  {
    if part == map[] {
      SumEmpty(part);
      assert all - part.Keys == all;
    } else {
      var k :| k in part;
      RemoveSize(part, k);
      SumRemove(all, k);
      SumRemove(part, k);
      SumPartition(all - {k}, part - {k});
      assert (all - {k}) - (part - {k}).Keys == all - part.Keys;
    }
  }

  /** Clamping every part first does not change the clamped whole. */
  lemma {:induction false} ClampingParts<K(!new)>(exact: map<K, int>, clamped: map<K, int>, limit: int)
    requires limit >= 0 && exact.Keys == clamped.Keys
    requires forall k | k in exact :: exact[k] >= 0 && clamped[k] == Min(exact[k], limit)
    ensures Sum(exact) >= 0 && Sum(clamped) >= 0
    ensures Min(Sum(clamped), limit) == Min(Sum(exact), limit)
    decreases |exact|
  {
    SumNonNegative(exact);
    SumNonNegative(clamped);
    if exact == map[] {
      assert clamped == map[];
    } else {
      var k :| k in exact;
      RemoveSize(exact, k);
      SumRemove(exact, k);
      SumRemove(clamped, k);
      ClampingParts(exact - {k}, clamped - {k}, limit);
    }
  }
}
