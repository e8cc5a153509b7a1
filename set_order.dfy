/**
 * The iteration order of a `HashSet` of arena tokens is unspecified; the
 * model fixes one order, ascending tokens, wherever the source turns such a
 * set into a sequence.
 */
module SetOrder {
  /** A non-empty set of naturals has a least element. */
  lemma {:induction false} MinExists(s: set<nat>)
    requires s != {}
    ensures exists m :: IsLeast(s, m)
    decreases s
  {
    var x :| x in s;
    var rest := s - {x};
    if rest == {} {
      forall y | y in s
        ensures x <= y
      {
        assert y !in rest;
      }
      assert IsLeast(s, x);
    } else {
      MinExists(rest);
      var m :| IsLeast(rest, m);
      var least := if x < m then x else m;
      forall y | y in s
        ensures least <= y
      {
        if y != x {
          assert y in rest;
        }
      }
      assert IsLeast(s, least);
    }
  }

  /** `m` is in `s` and no element of `s` is smaller. */
  predicate IsLeast(s: set<nat>, m: nat)
  {
    m in s && forall y :: y in s ==> m <= y
  }

  function Min(s: set<nat>): (m: nat)
    requires s != {}
    ensures m in s && forall y :: y in s ==> m <= y
  {
    MinExists(s);
    var m :| IsLeast(s, m);
    m
  }

  predicate StrictlyIncreasing(r: seq<nat>)
  {
    forall i, j :: 0 <= i < j < |r| ==> r[i] < r[j]
  }

  /** The elements of `s`, each once, in ascending order. */
  function Ascending(s: set<nat>): (r: seq<nat>)
    ensures forall x :: x in r <==> x in s
    ensures forall i :: 0 <= i < |r| ==> r[i] in s
    ensures |r| == |s|
    ensures StrictlyIncreasing(r)
    decreases |s|
  {
    if s == {} then []
    else
      var m := Min(s);
      var rest := Ascending(s - {m});
      PrependLeast(s, m, rest);
      [m] + rest
  }

  /** Putting the least element in front of the ascending rest gives the ascending whole. */
  lemma PrependLeast(s: set<nat>, m: nat, rest: seq<nat>)
    requires IsLeast(s, m)
    requires forall x :: x in rest <==> x in s - {m}
    requires |rest| == |s - {m}| && StrictlyIncreasing(rest)
    ensures forall x :: x in [m] + rest <==> x in s
    ensures forall i :: 0 <= i < |[m] + rest| ==> ([m] + rest)[i] in s
    ensures |[m] + rest| == |s|
    ensures StrictlyIncreasing([m] + rest)
  {
    var r := [m] + rest;
    forall i | 0 <= i < |r|
      ensures r[i] in s && (i > 0 ==> r[i] == rest[i - 1])
    {
      if i > 0 {
        assert r[i] == rest[i - 1] && rest[i - 1] in rest;
      }
    }
    forall i, j | 0 <= i < j < |r|
      ensures r[i] < r[j]
    {
      assert rest[j - 1] in rest;
    }
  }

  /**
   * The elements of a set of any other values, each once, in the order a
   * walk over the set yields them; the model fixes no particular order.
   */
  method Enumerate<T(==)>(s: set<T>) returns (r: seq<T>)
    ensures forall x :: x in r <==> x in s
    ensures |r| == |s|
    ensures forall i, j :: 0 <= i < j < |r| ==> r[i] != r[j]
  {
    r := [];
    var todo := s;
    while todo != {}
      invariant todo <= s
      invariant forall x :: x in r <==> x in s && x !in todo
      invariant |r| + |todo| == |s|
      invariant forall i, j :: 0 <= i < j < |r| ==> r[i] != r[j]
      decreases |todo|
    {
      var x :| x in todo;
      r := r + [x];
      todo := todo - {x};
    }
  }
}
