/** The order in which the database returns the rows of an unordered query.
    The source gives its models no ordering, so the model fixes one: ascending
    primary key. A query is modelled as a scan of the keys below a bound on
    the table's keys. */
module Ordering {

  ghost predicate Increasing(s: seq<nat>) {
    forall i, j :: 0 <= i < j < |s| ==> s[i] < s[j]
  }

  lemma {:induction false} GreatestWitness(s: set<nat>) returns (m: nat)
    requires s != {}
    ensures m in s && forall y :: y in s ==> y <= m
    decreases |s|
  {
    var x :| x in s;
    if s == {x} {
      m := x;
    } else {
      var rest := GreatestWitness(s - {x});
      m := if x > rest then x else rest;
      forall y | y in s
        ensures y <= m
      {
        if y != x { assert y in s - {x}; }
      }
    }
  }

  lemma GreatestExists(s: set<nat>)
    requires s != {}
    ensures exists m :: m in s && forall y :: y in s ==> y <= m
  {
    var m := GreatestWitness(s);
  }

  /** The largest key of a non-empty set of keys. */
  function Greatest(s: set<nat>): (m: nat)
    requires s != {}
    ensures m in s && forall y :: y in s ==> y <= m
  {
    GreatestExists(s);
    var m :| m in s && forall y :: y in s ==> y <= m;
    m
  }

  /** A number above every key of the table `m`. */
  function Bound<V>(m: map<nat, V>): (b: nat)
    ensures forall k :: k in m ==> k < b
    ensures b == 0 || b - 1 in m
  {
    if m == map[] then 0 else Greatest(m.Keys) + 1
  }
}
