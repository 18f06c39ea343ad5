/** Enumeration of every subset of a list of names. */
module Subsets {
  import opened Lists

  function Pow2(n: nat): nat {
    if n == 0 then 1 else 2 * Pow2(n - 1)
  }

  /**
   * All subsets of the elements of `xs` (the list made from the set at the start
   * of `powerset`): those without the first element, then the same with it added.
   */
  function Powerset(xs: seq<string>): (r: seq<set<string>>)
    ensures |r| == Pow2(|xs|)
    ensures forall t :: t in r <==> t <= Elems(xs)
  {
    if xs == [] then
      assert Elems(xs) == {};
      assert forall t: set<string> :: t <= {} ==> t == {} by {
        forall t: set<string> | t <= {} ensures t == {} {
          assert forall y :: y !in t;
        }
      }
      [{}]
    else
      var rest := Powerset(xs[1..]);
      var added := seq(|rest|, i requires 0 <= i < |rest| => rest[i] + {xs[0]});
      PowersetStep(xs, rest, added);
      rest + added
  }

  /** One recursive step of `Powerset`: adding the head to every subset of the tail completes the list. */
  lemma PowersetStep(xs: seq<string>, rest: seq<set<string>>, added: seq<set<string>>)
    requires xs != []
    requires forall t :: t in rest <==> t <= Elems(xs[1..])
    requires |added| == |rest| && forall i :: 0 <= i < |rest| ==> added[i] == rest[i] + {xs[0]}
    ensures forall t :: t in rest + added <==> t <= Elems(xs)
  {
    var x := xs[0];
    assert Elems(xs) == {x} + Elems(xs[1..]) by {
      assert xs == [x] + xs[1..];
    }
    forall t | t <= Elems(xs)
      ensures t in rest + added
    {
      if x in t {
        var u := t - {x};
        assert u <= Elems(xs[1..]);
        var i :| 0 <= i < |rest| && rest[i] == u;
        assert added[i] == t;
      } else {
        assert t <= Elems(xs[1..]);
      }
    }
    forall t | t in rest + added
      ensures t <= Elems(xs)
    {
      if t !in rest {
        var i :| 0 <= i < |added| && added[i] == t;
        assert rest[i] <= Elems(xs[1..]);
      }
    }
  }

  /** A list without repetitions has a subset list without repetitions. */
  lemma {:induction false} PowersetDistinct(xs: seq<string>)
    requires Distinct(xs)
    ensures Distinct(Powerset(xs))
  {
    if xs != [] {
      var x := xs[0];
      var rest := Powerset(xs[1..]);
      PowersetDistinct(xs[1..]);
      assert x !in Elems(xs[1..]);
      var r := Powerset(xs);
      var n := |rest|;
      assert r == rest + seq(n, i requires 0 <= i < n => rest[i] + {x});
      forall i, j | 0 <= i < j < |r|
        ensures r[i] != r[j]
      {
        if j < n {
          assert r[i] == rest[i] && r[j] == rest[j];
        } else if i < n {
          assert rest[i] in rest;
          assert x !in r[i];
          assert x in r[j];
        } else {
          assert rest[i - n] in rest && rest[j - n] in rest;
          assert x !in rest[i - n] && x !in rest[j - n];
          assert r[i] - {x} == rest[i - n];
          assert r[j] - {x} == rest[j - n];
        }
      }
    }
  }

  /** The list of names with the members of `s` removed (`names - one_gene`), order kept. */
  function Without(xs: seq<string>, s: set<string>): (r: seq<string>)
    ensures Elems(r) == Elems(xs) - s
    ensures Distinct(xs) ==> Distinct(r)
    ensures forall i :: 0 <= i < |r| ==> r[i] in xs
  {
    if xs == [] then []
    else
      var tail := Without(xs[1..], s);
      assert Elems(xs) == {xs[0]} + Elems(xs[1..]) by {
        assert xs == [xs[0]] + xs[1..];
      }
      if xs[0] in s then tail
      else
        assert Distinct(xs) ==> xs[0] !in Elems(tail);
        assert Elems([xs[0]] + tail) == {xs[0]} + Elems(tail);
        [xs[0]] + tail
  }
}
