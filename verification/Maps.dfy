/** `utils.MergeMaps`. */
module Maps {

  /** `i` is the last map holding `k`. */
  ghost predicate Decides<K, V>(ms: seq<map<K, V>>, k: K, i: int) {
    0 <= i < |ms| && k in ms[i] && forall j :: i < j < |ms| ==> k !in ms[j]
  }

  function Merged<K, V>(ms: seq<map<K, V>>): map<K, V> {
    if |ms| == 0 then map[] else Merged(ms[..|ms| - 1]) + ms[|ms| - 1]
  }

  /** The last map that holds a key gives its value. */
  lemma {:induction false} LastWins<K, V>(ms: seq<map<K, V>>, k: K, i: nat)
    requires Decides(ms, k, i)
    ensures k in Merged(ms) && Merged(ms)[k] == ms[i][k]
  {
    if i == |ms| - 1 {
    } else {
      LastWins(ms[..|ms| - 1], k, i);
    }
  }

  /** No key comes from nowhere. */
  lemma {:induction false} SomeMapHolds<K, V>(ms: seq<map<K, V>>, k: K)
    requires k in Merged(ms)
    ensures exists i :: Decides(ms, k, i)
  {
    if k in ms[|ms| - 1] {
      assert Decides(ms, k, |ms| - 1);
    } else {
      SomeMapHolds(ms[..|ms| - 1], k);
      var i :| Decides(ms[..|ms| - 1], k, i);
      assert Decides(ms, k, i);
    }
  }

  method MergeMaps<K(==,!new), V>(ms: seq<map<K, V>>) returns (res: map<K, V>)
    ensures res == Merged(ms)
    ensures forall k :: k in res <==> exists i :: Decides(ms, k, i)
    ensures forall k, i :: Decides(ms, k, i) ==> res[k] == ms[i][k]
  {
    res := map[];
    for i := 0 to |ms|
      invariant res == Merged(ms[..i])
    {
      var start := res;
      var todo := ms[i].Keys;
      while todo != {}
        invariant todo <= ms[i].Keys
        invariant res.Keys == start.Keys + (ms[i].Keys - todo)
        invariant forall k | k in res :: res[k] == if k in ms[i] && k !in todo then ms[i][k] else start[k]
        decreases todo
      {
        var k :| k in todo;
        res := res[k := ms[i][k]];
        todo := todo - {k};
      }
      assert res == start + ms[i];
      assert ms[..i + 1][..i] == ms[..i];
    }
    assert ms[..|ms|] == ms;
    forall k | k in res {
      SomeMapHolds(ms, k);
    }
    forall k, i | Decides(ms, k, i) {
      LastWins(ms, k, i);
    }
  }
}
