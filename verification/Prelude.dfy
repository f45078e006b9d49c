/** Small things every other module uses. */
module Prelude {
  datatype Option<+T> = None | Some(value: T)

  function Lookup<K(==), V>(m: map<K, V>, k: K): Option<V> { if k in m then Some(m[k]) else None }

  function RemoveAt<T>(xs: seq<T>, i: nat): (r: seq<T>)
    requires i < |xs|
    ensures |r| == |xs| - 1
  {
    xs[..i] + xs[i + 1..]
  }

  /** The total weight of the elements of xs. */
  ghost function Sum<T>(xs: seq<T>, f: T -> nat): nat {
    if xs == [] then 0 else f(xs[0]) + Sum(xs[1..], f)
  }

  lemma {:induction false} SumAppend<T>(xs: seq<T>, ys: seq<T>, f: T -> nat)
    ensures Sum(xs + ys, f) == Sum(xs, f) + Sum(ys, f)
  {
    if xs == [] {
      assert xs + ys == ys;
    } else {
      assert (xs + ys)[1..] == xs[1..] + ys;
      SumAppend(xs[1..], ys, f);
    }
  }

  lemma SumOne<T>(x: T, f: T -> nat)
    ensures Sum([x], f) == f(x)
  {
  }

  lemma SumPush<T>(xs: seq<T>, x: T, f: T -> nat)
    ensures Sum(xs + [x], f) == Sum(xs, f) + f(x)
  {
    SumAppend(xs, [x], f);
    SumOne(x, f);
  }

  lemma {:induction false} SumRemove<T>(xs: seq<T>, i: nat, f: T -> nat)
    requires i < |xs|
    ensures Sum(xs, f) == Sum(RemoveAt(xs, i), f) + f(xs[i])
  {
    if i == 0 {
      assert RemoveAt(xs, i) == xs[1..];
    } else {
      SumRemove(xs[1..], i - 1, f);
      assert RemoveAt(xs, i)[1..] == RemoveAt(xs[1..], i - 1);
    }
  }

  lemma SumUpdate<T>(xs: seq<T>, i: nat, x: T, f: T -> nat)
    requires i < |xs|
    ensures Sum(xs[i := x], f) == Sum(RemoveAt(xs, i), f) + f(x)
  {
    SumRemove(xs[i := x], i, f);
    assert RemoveAt(xs[i := x], i) == RemoveAt(xs, i);
  }

  /** A positive total has a witness, and a witness makes the total at least as large. */
  lemma {:induction false} SumWitness<T>(xs: seq<T>, f: T -> nat)
    ensures Sum(xs, f) > 0 <==> exists i :: 0 <= i < |xs| && f(xs[i]) > 0
    ensures forall i :: 0 <= i < |xs| ==> f(xs[i]) <= Sum(xs, f)
  {
    if xs != [] {
      SumWitness(xs[1..], f);
      if Sum(xs[1..], f) > 0 {
        var i :| 0 <= i < |xs[1..]| && f(xs[1..][i]) > 0;
        assert f(xs[i + 1]) > 0;
      }
      forall i | 0 <= i < |xs|
        ensures f(xs[i]) <= Sum(xs, f)
      {
        if i > 0 {
          assert xs[i] == xs[1..][i - 1];
        }
      }
    }
  }

  lemma {:induction false} SumSame<T>(xs: seq<T>, f: T -> nat, g: T -> nat)
    requires forall i :: 0 <= i < |xs| ==> f(xs[i]) == g(xs[i])
    ensures Sum(xs, f) == Sum(xs, g)
  {
    if xs != [] {
      forall i | 0 <= i < |xs[1..]|
        ensures f(xs[1..][i]) == g(xs[1..][i])
      {
        assert xs[1..][i] == xs[i + 1];
      }
      SumSame(xs[1..], f, g);
    }
  }

  lemma SmallerSubset<T>(a: set<T>, b: set<T>)
    requires a <= b && |b| <= |a|
    ensures a == b
  {
    assert |b - a| == |b| - |a|;
    assert b - a == {};
  }

  /** The elements that meet f, in order. */
  function Keep<T>(xs: seq<T>, f: T -> bool): seq<T> {
    if xs == [] then [] else (if f(xs[0]) then [xs[0]] else []) + Keep(xs[1..], f)
  }

  lemma {:induction false} KeepPush<T>(xs: seq<T>, x: T, f: T -> bool)
    ensures Keep(xs + [x], f) == Keep(xs, f) + if f(x) then [x] else []
  {
    if xs == [] {
      assert xs + [x] == [x] && [x][1..] == [];
    } else {
      assert (xs + [x])[1..] == xs[1..] + [x];
      KeepPush(xs[1..], x, f);
    }
  }

  lemma {:induction false} KeepIn<T>(xs: seq<T>, f: T -> bool)
    ensures forall x :: x in Keep(xs, f) <==> x in xs && f(x)
  {
    if xs != [] {
      KeepIn(xs[1..], f);
      assert xs == [xs[0]] + xs[1..];
    }
  }

  lemma {:induction false} KeepTwice<T(!new)>(xs: seq<T>, f: T -> bool, g: T -> bool, h: T -> bool)
    requires forall x :: h(x) <==> f(x) && g(x)
    ensures Keep(Keep(xs, f), g) == Keep(xs, h)
  {
    if xs != [] {
      KeepTwice(xs[1..], f, g, h);
      assert h(xs[0]) <==> f(xs[0]) && g(xs[0]);
      if f(xs[0]) {
        assert ([xs[0]] + Keep(xs[1..], f))[1..] == Keep(xs[1..], f);
      } else {
        assert Keep(xs, f) == Keep(xs[1..], f);
      }
    }
  }
}
