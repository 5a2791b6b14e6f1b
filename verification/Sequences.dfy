/** What several modules need of sequences. */
module Sequences {
  import opened Bytes

  lemma {:induction false} Assoc<T>(a: seq<T>, b: seq<T>, c: seq<T>)
    ensures a + (b + c) == a + b + c
  {
  }

  /** `List.Remove`: the list without the first element equal to `x`. */
  function RemoveFirst<T(==)>(q: seq<T>, x: T): seq<T> {
    if q == [] then [] else if q[0] == x then q[1..] else [q[0]] + RemoveFirst(q[1..], x)
  }

  /** What stands ahead and behind stays, in order. */
  lemma {:induction false} RemoveFirstIs<T>(ahead: seq<T>, x: T, behind: seq<T>)
    requires x !in ahead
    ensures RemoveFirst(ahead + [x] + behind, x) == ahead + behind
  {
    var q := ahead + [x] + behind;
    if ahead == [] {
      assert q[1..] == behind;
    } else {
      RemoveFirstIs(ahead[1..], x, behind);
      assert q[0] == ahead[0] && q[1..] == ahead[1..] + [x] + behind;
      Assoc([ahead[0]], ahead[1..], behind);
    }
  }

  lemma {:induction false} RemoveFirstAbsent<T>(q: seq<T>, x: T)
    requires x !in q
    ensures RemoveFirst(q, x) == q
  {
    if q != [] {
      RemoveFirstAbsent(q[1..], x);
    }
  }

  lemma {:induction false} RemoveFirstMultiset<T>(q: seq<T>, x: T)
    requires x in q
    ensures multiset(RemoveFirst(q, x)) == multiset(q) - multiset{x}
  {
    assert q == [q[0]] + q[1..];
    if q[0] != x {
      RemoveFirstMultiset(q[1..], x);
    }
  }

  /** `List.Find`: the first element that satisfies `p`. */
  function Find<T>(q: seq<T>, p: T -> bool): (r: Option<T>)
    ensures r.Some? ==> exists i :: 0 <= i < |q| && q[i] == r.value && p(q[i]) && forall k :: 0 <= k < i ==> !p(q[k])
    ensures r.None? ==> forall k :: 0 <= k < |q| ==> !p(q[k])
  {
    if q == [] then None
    else if p(q[0]) then Some(q[0])
    else
      var r := Find(q[1..], p);
      assert forall k :: 0 < k < |q| ==> q[k] == q[1..][k - 1];
      assert r.Some? ==> exists i :: 0 <= i < |q| && q[i] == r.value && p(q[i]) && forall k :: 0 <= k < i ==> !p(q[k]) by {
        if r.Some? {
          var i :| 0 <= i < |q| - 1 && q[1..][i] == r.value && p(q[1..][i]) && forall k :: 0 <= k < i ==> !p(q[1..][k]);
          assert q[i + 1] == r.value;
        }
      }
      r
  }

  /** The keys of a list, each as often as it occurs. */
  function Bag<T>(q: seq<T>, key: T -> nat): multiset<nat> {
    if q == [] then multiset{} else multiset{key(q[0])} + Bag(q[1..], key)
  }

  lemma {:induction false} BagSnoc<T>(q: seq<T>, x: T, key: T -> nat)
    ensures Bag(q + [x], key) == Bag(q, key) + multiset{key(x)}
  {
    if q == [] {
      assert q + [x] == [x] && [x][1..] == [];
    } else {
      BagSnoc(q[1..], x, key);
      assert (q + [x])[1..] == q[1..] + [x];
    }
  }

  lemma {:induction false} BagRemoved<T>(q: seq<T>, x: T, key: T -> nat)
    requires x in q
    ensures Bag(RemoveFirst(q, x), key) == Bag(q, key) - multiset{key(x)}
  {
    if q[0] != x {
      BagRemoved(q[1..], x, key);
      var rest := RemoveFirst(q[1..], x);
      assert ([q[0]] + rest)[1..] == rest;
      BagHas(q[1..], x, key);
    }
  }

  lemma {:induction false} BagHas<T>(q: seq<T>, x: T, key: T -> nat)
    requires x in q
    ensures key(x) in Bag(q, key)
  {
    if q[0] != x {
      BagHas(q[1..], x, key);
    }
  }

  lemma {:induction false} BagHolds<T>(q: seq<T>, k: nat, key: T -> nat)
    ensures k in Bag(q, key) <==> exists x :: x in q && key(x) == k
  {
    if q != [] {
      BagHolds(q[1..], k, key);
      if k in Bag(q[1..], key) {
        var x :| x in q[1..] && key(x) == k;
        assert x in q;
      }
      if exists x :: x in q && key(x) == k {
        var x :| x in q && key(x) == k;
        BagHas(q, x, key);
      }
    }
  }

  /** No key occurs twice exactly when no two elements share one. */
  lemma {:induction false} BagApart<T>(q: seq<T>, key: T -> nat)
    ensures (forall k :: Bag(q, key)[k] <= 1) <==> (forall i, j :: 0 <= i < j < |q| ==> key(q[i]) != key(q[j]))
  {
    if q != [] {
      var t := q[1..];
      BagApart(t, key);
      BagHolds(t, key(q[0]), key);
      assert forall i :: 0 < i < |q| ==> q[i] == t[i - 1];
      assert forall i :: 0 <= i < |t| ==> t[i] == q[i + 1];
      if forall i, j :: 0 <= i < j < |q| ==> key(q[i]) != key(q[j]) {
        assert key(q[0]) !in Bag(t, key);
        assert forall k :: Bag(q, key)[k] == (if k == key(q[0]) then 1 else 0) + Bag(t, key)[k];
      }
      if forall k :: Bag(q, key)[k] <= 1 {
        assert forall k :: Bag(t, key)[k] <= Bag(q, key)[k];
        assert Bag(q, key)[key(q[0])] == 1 + Bag(t, key)[key(q[0])];
        assert key(q[0]) !in Bag(t, key);
        forall i, j | 0 <= i < j < |q|
          ensures key(q[i]) != key(q[j])
        {
          assert q[j] == t[j - 1] && q[j] in t;
          if i > 0 {
            assert q[i] == t[i - 1];
          }
        }
      }
    }
  }

  lemma {:induction false} BagCount<T>(q: seq<T>, key: T -> nat)
    ensures |Bag(q, key)| == |q|
  {
    if q != [] {
      BagCount(q[1..], key);
    }
  }
}
