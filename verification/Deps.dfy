/** The dependency table behind addDep and removeDep: for each object, the set of what keeps it. */
module Deps {

  /** What removeDep tells its caller: the two panics, nothing to do, or run the object's finalClose. */
  datatype DepResult = Unpaired | Remains | RunFinalClose

  function AddDep<X(==), D(==)>(dep: map<X, set<D>>, x: X, d: D): map<X, set<D>> {
    dep[x := (if x in dep then dep[x] else {}) + {d}]
  }

  function RemoveDep<X(==), D(==)>(dep: map<X, set<D>>, x: X, d: D): (r: (map<X, set<D>>, DepResult)) {
    if x !in dep || d !in dep[x] then (dep, Unpaired)
    else if dep[x] == {d} then (dep - {x}, RunFinalClose)
    else (dep[x := dep[x] - {d}], Remains)
  }

  /** addDepLocked on a given table. */
  method AddTo<X(==), D(==)>(dep: map<X, set<D>>, x: X, d: D) returns (dep': map<X, set<D>>)
    ensures dep' == AddDep(dep, x, d)
    ensures forall y, e :: y in dep' && e in dep'[y] <==> (y in dep && e in dep[y]) || (y == x && e == d)
  {
    var xdep := {};
    if x in dep {
      xdep := dep[x];
    }
    dep' := dep[x := xdep + {d}];
  }

  /** removeDepLocked on a given table; whether anything was removed is told by the size. */
  method RemoveFrom<X(==), D(==)>(dep: map<X, set<D>>, x: X, d: D) returns (dep': map<X, set<D>>, r: DepResult)
    ensures (dep', r) == RemoveDep(dep, x, d)
    ensures forall y, e :: y in dep' && e in dep'[y] <==> y in dep && e in dep[y] && !(y == x && e == d)
    ensures r == Unpaired <==> x !in dep || d !in dep[x]
    ensures r == RunFinalClose <==> x in dep && dep[x] == {d}
    ensures x in dep' <==> x in dep && dep[x] != {d}
  {
    if x !in dep {
      return dep, Unpaired;
    }
    var xdep := dep[x];
    var l0 := |xdep|;
    xdep := xdep - {d};
    if |xdep| == l0 {
      return dep, Unpaired;
    } else if |xdep| == 0 {
      return dep - {x}, RunFinalClose;
    } else {
      return dep[x := xdep], Remains;
    }
  }

  /**
   Removing what was just added gives the table back: with finalClose if the entry was made for it,
   and without if something else keeps the object.
   */
  lemma AddThenRemove<X, D>(dep: map<X, set<D>>, x: X, d: D)
    requires x in dep ==> dep[x] != {} && d !in dep[x]
    ensures RemoveDep(AddDep(dep, x, d), x, d) == (dep, if x in dep then Remains else RunFinalClose)
  {
    var before := if x in dep then dep[x] else {};
    assert before + {d} - {d} == before;
    if x in dep {
      assert dep[x := before + {d}][x := before] == dep;
    } else {
      assert dep[x := before + {d}] - {x} == dep;
    }
  }
}
