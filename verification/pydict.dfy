/** A Python `dict` with string keys, as the insertion-ordered list of its entries: assigning
    to a key that is already there replaces its value in place, a new key goes to the end. */
module PyDict {
  import opened Wrappers

  type Dict<V> = seq<(string, V)>

  function Keys<V>(d: Dict<V>): seq<string> {
    seq(|d|, i requires 0 <= i < |d| => d[i].0)
  }

  /** No key occurs twice: every dict built by `Put` from `[]` is like that. */
  predicate UniqueKeys<V>(d: Dict<V>) {
    forall i, j :: 0 <= i < j < |d| ==> d[i].0 != d[j].0
  }

  /** `d.get(k)` */
  function Get<V>(d: Dict<V>, k: string): (r: Option<V>)
    ensures r.None? <==> k !in Keys(d)
  {
    if d == [] then None
    else if d[0].0 == k then
      assert Keys(d)[0] == k;
      Some(d[0].1)
    else
      assert Keys(d) == [d[0].0] + Keys(d[1..]);
      Get(d[1..], k)
  }

  /** `d[k] = v` */
  function Put<V>(d: Dict<V>, k: string, v: V): (r: Dict<V>)
    ensures Get(r, k) == Some(v)
    ensures forall k' :: k' != k ==> Get(r, k') == Get(d, k')
    ensures k in Keys(d) ==> Keys(r) == Keys(d)
    ensures k !in Keys(d) ==> Keys(r) == Keys(d) + [k]
    ensures UniqueKeys(d) ==> UniqueKeys(r)
  {
    if d == [] then [(k, v)]
    else if d[0].0 == k then
      var r := [(k, v)] + d[1..];
      assert Keys(r) == Keys(d);
      r
    else
      var rest := Put(d[1..], k, v);
      ConsLookup(d, k, rest);
      ConsKeys(d, k, rest);
      ConsUnique(d, k, rest);
      [d[0]] + rest
  }

  /** Putting behind a different first entry: lookups go through to the rest. */
  lemma ConsLookup<V>(d: Dict<V>, k: string, rest: Dict<V>)
    requires d != [] && d[0].0 != k
    ensures Get([d[0]] + rest, k) == Get(rest, k)
    ensures forall k' :: k' != d[0].0 ==> Get([d[0]] + rest, k') == Get(rest, k')
    ensures forall k' :: k' != d[0].0 ==> Get(d, k') == Get(d[1..], k')
    ensures Get([d[0]] + rest, d[0].0) == Get(d, d[0].0)
  {
    var r := [d[0]] + rest;
    assert r[0] == d[0] && r[1..] == rest;
  }

  lemma ConsKeys<V>(d: Dict<V>, k: string, rest: Dict<V>)
    requires d != []
    ensures Keys(d) == [d[0].0] + Keys(d[1..])
    ensures Keys([d[0]] + rest) == [d[0].0] + Keys(rest)
  {
    var r := [d[0]] + rest;
    assert r[0] == d[0] && r[1..] == rest;
  }

  lemma ConsUnique<V>(d: Dict<V>, k: string, rest: Dict<V>)
    requires d != [] && d[0].0 != k
    requires Keys(rest) == Keys(d[1..]) || Keys(rest) == Keys(d[1..]) + [k]
    requires UniqueKeys(d[1..]) ==> UniqueKeys(rest)
    ensures UniqueKeys(d) ==> UniqueKeys([d[0]] + rest)
  {
    var r := [d[0]] + rest;
    if UniqueKeys(d) {
      ConsKeys(d, k, rest);
      assert UniqueKeys(d[1..]) by {
        forall i, j | 0 <= i < j < |d| - 1 ensures d[1..][i].0 != d[1..][j].0 {
          assert d[1..][i] == d[i + 1] && d[1..][j] == d[j + 1];
        }
      }
      assert d[0].0 !in Keys(d[1..]) by {
        forall i | 0 <= i < |d| - 1 ensures Keys(d[1..])[i] != d[0].0 {
          assert Keys(d[1..])[i] == d[i + 1].0;
        }
      }
      assert d[0].0 !in Keys(rest);
      forall i, j | 0 <= i < j < |r| ensures r[i].0 != r[j].0 {
        assert r[j].0 == Keys(rest)[j - 1];
        if i > 0 {
          assert r[i].0 == rest[i - 1].0;
        }
      }
    }
  }

  /** `dict` filled from pairs in order, as a loop of `d[k] = v` does. */
  function FromPairs<V>(pairs: seq<(string, V)>): Dict<V> {
    if pairs == [] then []
    else Put(FromPairs(pairs[..|pairs| - 1]), pairs[|pairs| - 1].0, pairs[|pairs| - 1].1)
  }

  /** No pair has key `k`. */
  predicate NoPairWith<V>(pairs: seq<(string, V)>, k: string) {
    forall i :: 0 <= i < |pairs| ==> pairs[i].0 != k
  }

  /** A dict filled from pairs has exactly the keys of the pairs. */
  lemma FromPairsKeys<V>(pairs: seq<(string, V)>, k: string)
    ensures Get(FromPairs(pairs), k).None? <==> NoPairWith(pairs, k)
  {
    if NoPairWith(pairs, k) {
      FromPairsMissing(pairs, k);
    } else {
      var i :| 0 <= i < |pairs| && pairs[i].0 == k;
      FromPairsPresent(pairs, i);
    }
  }

  lemma {:induction false} FromPairsMissing<V>(pairs: seq<(string, V)>, k: string)
    requires NoPairWith(pairs, k)
    ensures Get(FromPairs(pairs), k).None?
  {
    if pairs != [] {
      var init := pairs[..|pairs| - 1];
      assert NoPairWith(init, k) by {
        forall i | 0 <= i < |init| ensures init[i].0 != k {
          assert init[i] == pairs[i];
        }
      }
      FromPairsMissing(init, k);
      assert pairs[|pairs| - 1].0 != k;
    }
  }

  lemma {:induction false} FromPairsPresent<V>(pairs: seq<(string, V)>, i: nat)
    requires i < |pairs|
    ensures Get(FromPairs(pairs), pairs[i].0).Some?
  {
    var init := pairs[..|pairs| - 1];
    if i < |pairs| - 1 {
      assert init[i] == pairs[i];
      FromPairsPresent(init, i);
    }
  }

  /** Each key is mapped to the value of its last pair. */
  lemma {:induction false} FromPairsLast<V>(pairs: seq<(string, V)>, i: nat)
    requires i < |pairs|
    requires forall j :: i < j < |pairs| ==> pairs[j].0 != pairs[i].0
    ensures Get(FromPairs(pairs), pairs[i].0) == Some(pairs[i].1)
  {
    var init := pairs[..|pairs| - 1];
    if i < |pairs| - 1 {
      FromPairsLast(init, i);
    }
  }

  lemma {:induction false} FromPairsUnique<V>(pairs: seq<(string, V)>)
    ensures UniqueKeys(FromPairs(pairs))
  {
    if pairs != [] {
      FromPairsUnique(pairs[..|pairs| - 1]);
    }
  }
}
