/** Iteration order of the server's tables. Both tables are keyed by small
    non-negative integers, and JavaScript enumerates such integer-like keys of
    an object in ascending numeric order; `Object.values(games)` and
    `Object.values(clients)` therefore visit entries by ascending key. */
module Ordering {

  predicate Increasing(s: seq<nat>)
  {
    forall i, j :: 0 <= i < j < |s| ==> s[i] < s[j]
  }

  predicate IsLeast(m: nat, s: set<nat>)
  {
    m in s && forall x :: x in s ==> m <= x
  }

  lemma {:induction false} LeastExists(s: set<nat>)
    requires s != {}
    ensures exists m :: IsLeast(m, s)
    decreases s
  {
    var y :| y in s;
    var below := set x | x in s && x < y;
    if below == {} {
      forall x | x in s ensures y <= x {
        assert x !in below;
      }
      assert IsLeast(y, s);
    } else {
      assert y !in below;
      LeastExists(below);
      var m :| IsLeast(m, below);
      forall x | x in s ensures m <= x {
        if x < y { assert x in below; }
      }
      assert IsLeast(m, s);
    }
  }

  /** The smallest element of a non-empty set. */
  function Least(s: set<nat>): (m: nat)
    requires s != {}
    ensures IsLeast(m, s)
  {
    LeastExists(s);
    var m :| IsLeast(m, s);
    m
  }

  /** The elements of `s` in ascending order, each exactly once. */
  function Ascending(s: set<nat>): (r: seq<nat>)
    ensures Increasing(r)
    ensures |r| == |s|
    ensures forall x :: x in r <==> x in s
    decreases s
  {
    if s == {} then []
    else
      var m := Least(s);
      [m] + Ascending(s - {m})
  }
}
