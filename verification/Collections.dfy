/**
 Small facts about sequences, sums and insertion-ordered dictionaries that the
 other modules share.
 */
module Collections {

  datatype Option<+T> = None | Some(value: T)

  function Min(a: int, b: int): int { if a <= b then a else b }

  function Max(a: int, b: int): int { if a >= b then a else b }

  predicate Distinct<T(==)>(s: seq<T>) {
    forall i, j :: 0 <= i < j < |s| ==> s[i] != s[j]
  }

  /** The elements of `s` that satisfy `keep`, in order. */
  function Filter<T>(s: seq<T>, keep: T -> bool): seq<T> {
    if s == [] then []
    else if keep(s[0]) then [s[0]] + Filter(s[1..], keep)
    else Filter(s[1..], keep)
  }

  lemma {:induction false} FilterMember<T>(s: seq<T>, keep: T -> bool, x: T)
    ensures x in Filter(s, keep) <==> x in s && keep(x)
  {
    if s == [] {
    } else {
      FilterMember(s[1..], keep, x);
      assert x in s <==> x == s[0] || x in s[1..];
    }
  }

  lemma {:induction false} FilterAppend<T>(a: seq<T>, b: seq<T>, keep: T -> bool)
    ensures Filter(a + b, keep) == Filter(a, keep) + Filter(b, keep)
  {
    if a == [] {
      assert a + b == b;
    } else {
      assert (a + b)[1..] == a[1..] + b;
      FilterAppend(a[1..], b, keep);
    }
  }

  /** `r` picks elements of `s`, at increasing positions. */
  ghost predicate Picks<T>(r: seq<T>, s: seq<T>, positions: seq<nat>) {
    && |positions| == |r|
    && (forall i, j :: 0 <= i < j < |positions| ==> positions[i] < positions[j])
    && forall i :: 0 <= i < |r| ==> positions[i] < |s| && r[i] == s[positions[i]]
  }

  /** Positions in a sequence that has got one more element in front. */
  function OneFurther(positions: seq<nat>): (r: seq<nat>)
    ensures |r| == |positions| && forall i :: 0 <= i < |r| ==> r[i] == positions[i] + 1
  {
    seq(|positions|, i requires 0 <= i < |positions| => positions[i] + 1)
  }

  lemma PicksFurther<T>(r: seq<T>, s: seq<T>, positions: seq<nat>)
    requires s != [] && Picks(r, s[1..], positions)
    ensures Picks(r, s, OneFurther(positions))
    ensures Picks([s[0]] + r, s, [0] + OneFurther(positions))
  {
  }

  lemma FurtherMember(positions: seq<nat>, k: nat)
    ensures k + 1 in OneFurther(positions) <==> k in positions
    ensures 0 !in OneFurther(positions)
  {
    if k in positions {
      var i :| 0 <= i < |positions| && positions[i] == k;
      assert OneFurther(positions)[i] == k + 1;
    }
  }

  /** The positions of the elements to keep. */
  function Kept<T>(s: seq<T>, keep: T -> bool): seq<nat> {
    if s == [] then []
    else if keep(s[0]) then [0] + OneFurther(Kept(s[1..], keep))
    else OneFurther(Kept(s[1..], keep))
  }

  lemma {:induction false} KeptMember<T>(s: seq<T>, keep: T -> bool, k: nat)
    requires k < |s|
    ensures k in Kept(s, keep) <==> keep(s[k])
  {
    if k == 0 {
      FurtherMember(Kept(s[1..], keep), 0);
    } else {
      KeptMember(s[1..], keep, k - 1);
      FurtherMember(Kept(s[1..], keep), k - 1);
    }
  }

  /** A filter picks exactly the positions of the elements to keep, in order. */
  lemma {:induction false} FilterPicks<T>(s: seq<T>, keep: T -> bool)
    ensures Picks(Filter(s, keep), s, Kept(s, keep))
    ensures forall k :: 0 <= k < |s| ==> (k in Kept(s, keep) <==> keep(s[k]))
  {
    if s == [] {
    } else {
      FilterPicks(s[1..], keep);
      PicksFurther(Filter(s[1..], keep), s, Kept(s[1..], keep));
      forall k | 0 <= k < |s|
        ensures k in Kept(s, keep) <==> keep(s[k])
      {
        KeptMember(s, keep, k);
      }
    }
  }

  /** A filter keeps distinct elements distinct. */
  lemma {:induction false} FilterDistinct<T>(s: seq<T>, keep: T -> bool)
    requires Distinct(s)
    ensures Distinct(Filter(s, keep))
  {
    if s == [] {
    } else {
      FilterDistinct(s[1..], keep);
      FilterMember(s[1..], keep, s[0]);
    }
  }

  /** Sum of the weights `f` gives to the elements of `s`. */
  function Sum<T>(s: seq<T>, f: T -> nat): nat {
    if s == [] then 0 else f(s[0]) + Sum(s[1..], f)
  }

  lemma {:induction false} SumAppend<T>(a: seq<T>, b: seq<T>, f: T -> nat)
    ensures Sum(a + b, f) == Sum(a, f) + Sum(b, f)
  {
    if a == [] {
      assert a + b == b;
    } else {
      assert (a + b)[1..] == a[1..] + b;
      SumAppend(a[1..], b, f);
    }
  }

  lemma SumOne<T>(x: T, f: T -> nat)
    ensures Sum([x], f) == f(x)
  {
    assert [x][1..] == [];
  }

  lemma {:induction false} SumUpdate<T>(s: seq<T>, i: nat, x: T, f: T -> nat)
    requires i < |s|
    ensures Sum(s[i := x], f) + f(s[i]) == Sum(s, f) + f(x)
    ensures f(s[i]) <= Sum(s, f)
  {
    if i > 0 {
      assert s[i := x][1..] == s[1..][i - 1 := x];
      SumUpdate(s[1..], i - 1, x, f);
    } else {
      assert s[i := x][1..] == s[1..];
    }
  }

  /** One element replaced, others appended: how every pipeline step edits a sequence. */
  lemma SumEdit<T>(s: seq<T>, i: nat, x: T, more: seq<T>, f: T -> nat)
    requires i < |s|
    ensures Sum(s[i := x] + more, f) + f(s[i]) == Sum(s, f) + f(x) + Sum(more, f)
  {
    SumAppend(s[i := x], more, f);
    SumUpdate(s, i, x, f);
  }

  lemma SumSplitLess<T>(s: seq<T>, i: nat, x: T, y: T, f: T -> nat)
    requires i < |s| && f(x) + f(y) < f(s[i])
    ensures Sum(s[i := x] + [y], f) < Sum(s, f)
  {
    SumOne(y, f);
    SumEdit(s, i, x, [y], f);
  }

  lemma {:induction false} SumSame<T>(s: seq<T>, f: T -> nat, g: T -> nat)
    requires forall x :: x in s ==> f(x) == g(x)
    ensures Sum(s, f) == Sum(s, g)
  {
    if s == [] {
    } else {
      assert s[0] in s;
      assert forall x :: x in s[1..] ==> x in s;
      SumSame(s[1..], f, g);
    }
  }

  /** Two sequences with the same weights place by place. */
  lemma {:induction false} SumPlacewise<T>(s: seq<T>, t: seq<T>, f: T -> nat)
    requires |s| == |t| && forall i :: 0 <= i < |s| ==> f(s[i]) == f(t[i])
    ensures Sum(s, f) == Sum(t, f)
  {
    if s == [] {
    } else {
      SumPlacewise(s[1..], t[1..], f);
    }
  }

  lemma SumSnoc<T>(s: seq<T>, x: T, f: T -> nat)
    ensures Sum(s + [x], f) == Sum(s, f) + f(x)
  {
    SumOne(x, f);
    SumAppend(s, [x], f);
  }

  lemma {:induction false} SumZero<T>(s: seq<T>, f: T -> nat)
    requires forall x :: x in s ==> f(x) == 0
    ensures Sum(s, f) == 0
  {
    if s == [] {
    } else {
      assert s[0] in s;
      assert forall x :: x in s[1..] ==> x in s;
      SumZero(s[1..], f);
    }
  }

  lemma {:induction false} SumAdd<T>(s: seq<T>, f: T -> nat, g: T -> nat, h: T -> nat)
    requires forall x :: x in s ==> f(x) == g(x) + h(x)
    ensures Sum(s, f) == Sum(s, g) + Sum(s, h)
  {
    if s == [] {
    } else {
      assert s[0] in s;
      assert forall x :: x in s[1..] ==> x in s;
      SumAdd(s[1..], f, g, h);
    }
  }

  /** Nothing but the entry for `k` differs between two dictionaries. */
  ghost predicate OnlyChanges<V>(k: string, m: map<string, V>, m': map<string, V>) {
    k in m' && m' - {k} == m - {k}
  }

  lemma OnlyChangesIsUpdate<V>(k: string, m: map<string, V>, m': map<string, V>)
    requires OnlyChanges(k, m, m')
    ensures m' == m[k := m'[k]]
  {
    forall x | x != k
      ensures x in m <==> x in m'
      ensures x in m ==> m[x] == m'[x]
    {
      assert x in m <==> x in m - {k};
      assert x in m' <==> x in m' - {k};
      assert x in m ==> (m - {k})[x] == m[x];
    }
  }

  /** A dictionary's values in insertion order. */
  function ValuesOf<V>(order: seq<string>, m: map<string, V>): (r: seq<V>)
    requires forall k :: k in order ==> k in m
    ensures |r| == |order|
    ensures forall i :: 0 <= i < |order| ==> r[i] == m[order[i]]
  {
    seq(|order|, i requires 0 <= i < |order| =>
      assert order[i] in order; m[order[i]])
  }

  lemma ValuesUpdate<V>(order: seq<string>, m: map<string, V>, i: nat, v: V)
    requires Distinct(order) && i < |order|
    requires forall k :: k in order ==> k in m
    ensures ValuesOf(order, m[order[i] := v]) == ValuesOf(order, m)[i := v]
  {
    var m' := m[order[i] := v];
    assert forall j :: 0 <= j < |order| && j != i ==> order[j] != order[i] && m'[order[j]] == m[order[j]];
  }

  /** How one dictionary update changes a sum over its values. */
  lemma SumValuesUpdate<V>(order: seq<string>, m: map<string, V>, k: string, v: V, f: V -> nat)
    requires Distinct(order) && k in order
    requires forall x :: x in order ==> x in m
    ensures Sum(ValuesOf(order, m[k := v]), f) + f(m[k]) == Sum(ValuesOf(order, m), f) + f(v)
  {
    var i :| 0 <= i < |order| && order[i] == k;
    ValuesUpdate(order, m, i, v);
    SumUpdate(ValuesOf(order, m), i, v, f);
  }
}
