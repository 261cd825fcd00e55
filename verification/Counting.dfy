/** Cardinalities and sums over finite maps, used wherever the orchestrator counts
    sandboxes, users or slots. */
module Counting {

  lemma SubsetSize<T>(a: set<T>, b: set<T>)
    requires a <= b
    ensures |a| <= |b|
  {
    assert b == a + (b - a);
  }

  /** The sum of a map's values, in no particular order. */
  ghost function Total(m: map<string, int>): int {
    if m == map[] then 0
    else
      var k :| k in m;
      m[k] + Total(m - {k})
  }

  /** Any key may be taken out first. */
  lemma {:induction false} TotalWithout(m: map<string, int>, k: string)
    requires k in m
    ensures Total(m) == m[k] + Total(m - {k})
    decreases |m|
  {
    var j :| j in m && Total(m) == m[j] + Total(m - {j});
    if j != k {
      TotalWithout(m - {j}, k);
      TotalWithout(m - {k}, j);
      assert m - {j} - {k} == m - {k} - {j};
    }
  }

  lemma TotalUpdate(m: map<string, int>, k: string, v: int)
    ensures Total(m[k := v]) == Total(m) - (if k in m then m[k] else 0) + v
  {
    TotalWithout(m[k := v], k);
    if k in m {
      TotalWithout(m, k);
      assert m[k := v] - {k} == m - {k};
    } else {
      assert m[k := v] - {k} == m;
    }
  }

  ghost function Fiber(owner: map<string, string>, v: string): set<string> {
    set id | id in owner && owner[id] == v
  }

  lemma FiberPut(owner: map<string, string>, id: string, v: string, w: string)
    requires id !in owner
    ensures |Fiber(owner[id := v], w)| == |Fiber(owner, w)| + if v == w then 1 else 0
  {
    if v == w {
      assert Fiber(owner[id := v], w) == Fiber(owner, w) + {id};
    } else {
      assert Fiber(owner[id := v], w) == Fiber(owner, w);
    }
  }

  /** If every key's value is the number of things assigned to it and everything is
      assigned to some key, the values add up to the number of things. */
  lemma {:induction false} TotalOfFibers(m: map<string, int>, owner: map<string, string>)
    requires forall v :: v in m ==> m[v] == |Fiber(owner, v)|
    requires forall id :: id in owner ==> owner[id] in m
    ensures Total(m) == |owner|
    decreases |m|
  {
    if m == map[] {
      assert owner == map[];
    } else {
      var v :| v in m;
      var rest := RemoveFiber(owner, v);
      forall w | w in m - {v}
        ensures (m - {v})[w] == |Fiber(rest, w)|
      {
        assert Fiber(rest, w) == Fiber(owner, w);
      }
      TotalOfFibers(m - {v}, rest);
      TotalWithout(m, v);
    }
  }

  ghost function RemoveFiber(owner: map<string, string>, v: string): (rest: map<string, string>)
    ensures |rest| == |owner| - |Fiber(owner, v)|
  {
    var rest := map id | id in owner && owner[id] != v :: owner[id];
    assert rest.Keys == owner.Keys - Fiber(owner, v);
    assert Fiber(owner, v) <= owner.Keys;
    rest
  }
}
