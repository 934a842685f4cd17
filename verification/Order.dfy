/** Ascending enumeration of identifiers, the iteration order of a BTreeMap or BTreeSet. */
module Order {
  ghost predicate IsLeast(x: nat, s: set<nat>) {
    x in s && forall y :: y in s ==> x <= y
  }

  lemma {:induction false} LeastExists(s: set<nat>)
    requires s != {}
    ensures exists x :: IsLeast(x, s)
  {
    var x :| x in s;
    if s == {x} {
      assert IsLeast(x, s);
    } else {
      LeastExists(s - {x});
      var m :| IsLeast(m, s - {x});
      assert forall y :: y in s ==> y == x || y in s - {x};
      assert IsLeast(if x < m then x else m, s);
    }
  }

  function Least(s: set<nat>): (x: nat)
    requires s != {}
    ensures IsLeast(x, s)
  {
    LeastExists(s);
    var x :| x in s && forall y :: y in s ==> x <= y;
    x
  }

  /** The elements of a set in ascending order. */
  function Ascending(s: set<nat>): seq<nat> {
    if s == {} then []
    else
      var x := Least(s);
      [x] + Ascending(s - {x})
  }

  ghost predicate StrictlyIncreasing(r: seq<nat>) {
    forall i, j :: 0 <= i < j < |r| ==> r[i] < r[j]
  }

  lemma {:induction false} AscendingElements(s: set<nat>)
    ensures forall x :: x in Ascending(s) <==> x in s
    ensures |Ascending(s)| == |s|
  {
    if s != {} {
      AscendingElements(s - {Least(s)});
    }
  }

  /** Enumeration lists every element once, in ascending order. */
  lemma {:induction false} AscendingIsSorted(s: set<nat>)
    ensures StrictlyIncreasing(Ascending(s))
  {
    if s != {} {
      var x := Least(s);
      var rest := Ascending(s - {x});
      AscendingIsSorted(s - {x});
      AscendingElements(s - {x});
      forall i, j | 0 <= i < j < |[x] + rest| ensures ([x] + rest)[i] < ([x] + rest)[j] {
        if i == 0 {
          assert rest[j - 1] in rest;
        }
      }
    }
  }
}
