/** Python's `dict[str, V]`: a finite map that also remembers the order in
    which its keys were first inserted, the order `values()` and iteration
    follow. */
module Dicts {
  import opened Wrappers
  import opened Strings

  /** The keys in insertion order and the value of each key. */
  datatype Dict<V> = Dict(keys: seq<string>, items: map<string, V>)

  /** Every key is listed once, and the listed keys are exactly the mapped ones. */
  predicate Consistent<V>(d: Dict<V>)
  {
    Distinct(d.keys)
    && (forall k :: k in d.items ==> k in d.keys)
    && (forall k :: k in d.keys ==> k in d.items)
  }

  /** `{}`. */
  function Empty<V>(): (d: Dict<V>)
    ensures Consistent(d) && d.items == map[] && d.keys == []
  {
    Dict([], map[])
  }

  /** `d[k] = v`: `k` now maps to `v`; a new key goes last and a key already
      present keeps its place. */
  function Put<V>(d: Dict<V>, k: string, v: V): (r: Dict<V>)
    requires Consistent(d)
    ensures Consistent(r)
    ensures r.items == d.items[k := v]
    ensures k in d.items ==> r.keys == d.keys
    ensures k !in d.items ==> r.keys == d.keys + [k]
  {
    Dict(if k in d.items then d.keys else d.keys + [k], d.items[k := v])
  }

  /** `d.get(k)`: the value of `k`, or `None` when `k` is not a key. */
  function Get<V>(d: Dict<V>, k: string): (r: Option<V>)
    ensures r.Some? <==> k in d.items
    ensures r.Some? ==> r.value == d.items[k]
  {
    if k in d.items then Some(d.items[k]) else None
  }

  /** `list(d.values())`: one value per key, in key order. */
  function Values<V>(d: Dict<V>): (r: seq<V>)
    requires Consistent(d)
    ensures |r| == |d.keys|
    ensures forall i :: 0 <= i < |r| ==> r[i] == d.items[d.keys[i]]
  {
    seq(|d.keys|, i requires 0 <= i < |d.keys| && d.keys[i] in d.items => d.items[d.keys[i]])
  }

  /** A later assignment replaces the value of its key and leaves every other key's value alone. */
  lemma GetPut<V>(d: Dict<V>, k: string, v: V, k': string)
    requires Consistent(d)
    ensures Get(Put(d, k, v), k') == if k' == k then Some(v) else Get(d, k')
  {
  }

  /** Assigning a new key appends its value; assigning an existing key
      replaces its value in place, so the order of `values()` is kept. */
  lemma PutValues<V>(d: Dict<V>, k: string, v: V)
    requires Consistent(d)
    ensures k !in d.items ==> Values(Put(d, k, v)) == Values(d) + [v]
    ensures k in d.items ==>
              |Values(Put(d, k, v))| == |Values(d)|
              && forall i :: 0 <= i < |Values(d)| ==>
                   Values(Put(d, k, v))[i] == if d.keys[i] == k then v else Values(d)[i]
  {
    if k !in d.items {
      var r := Put(d, k, v);
      assert r.keys == d.keys + [k];
      forall i | 0 <= i < |d.keys| ensures Values(r)[i] == Values(d)[i] {
        assert d.keys[i] != k;
      }
    }
  }

  /** Every value is stored under the key `key` gives it (a record under its own id). */
  predicate KeyedBy<V>(d: Dict<V>, key: V -> string)
  {
    forall k :: k in d.items ==> key(d.items[k]) == k
  }

  /** In a dictionary keyed by its values, different keys hold different values. */
  lemma KeyedValuesDistinct<V>(d: Dict<V>, key: V -> string)
    requires Consistent(d) && KeyedBy(d, key)
    ensures Distinct(Values(d))
  {
    var vs := Values(d);
    forall i, j | 0 <= i < j < |vs| ensures vs[i] != vs[j] {
      assert key(vs[i]) == d.keys[i] && key(vs[j]) == d.keys[j];
    }
  }

  /** The state of a dictionary filled from a list of records, and whether
      every record was converted. */
  datatype Loaded<V> = Loaded(dict: Dict<V>, ok: bool)

  /** Converting records left to right and storing each under its key, until
      the first record that cannot be converted; the entries stored before it
      stay. */
  function PutAll<R, V>(d: Dict<V>, rs: seq<R>, parse: R -> Option<V>, key: V -> string): (r: Loaded<V>)
    requires Consistent(d)
    ensures Consistent(r.dict)
    ensures r.ok <==> forall i :: 0 <= i < |rs| ==> parse(rs[i]).Some?
    ensures KeyedBy(d, key) ==> KeyedBy(r.dict, key)
    ensures forall k :: k in d.items ==> k in r.dict.items
    decreases |rs|
  {
    if rs == [] then Loaded(d, true)
    else match parse(rs[0])
      case None => Loaded(d, false)
      case Some(v) =>
        var r := PutAll(Put(d, key(v), v), rs[1..], parse, key);
        assert forall i :: 1 <= i < |rs| ==> rs[i] == rs[1..][i - 1];
        r
  }

  /** A record that cannot be converted ends the loading: the records after
      it are never looked at, and the dictionary keeps what the records
      before it stored. */
  lemma {:induction false} PutAllStops<R, V>(d: Dict<V>, good: seq<R>, bad: R, rest: seq<R>,
                                             parse: R -> Option<V>, key: V -> string)
    requires Consistent(d)
    requires forall i :: 0 <= i < |good| ==> parse(good[i]).Some?
    requires parse(bad).None?
    ensures PutAll(d, good + [bad] + rest, parse, key) == Loaded(PutAll(d, good, parse, key).dict, false)
    decreases |good|
  {
    var rs := good + [bad] + rest;
    if good == [] {
      assert rs[0] == bad;
    } else {
      var v := parse(good[0]).value;
      assert rs[0] == good[0];
      assert rs[1..] == good[1..] + [bad] + rest;
      PutAllStops(Put(d, key(v), v), good[1..], bad, rest, parse, key);
    }
  }

  /** Converting one more record stores it last, replacing any earlier
      record with the same key. */
  lemma {:induction false} PutAllSnoc<R, V>(d: Dict<V>, rs: seq<R>, x: R, parse: R -> Option<V>, key: V -> string)
    requires Consistent(d)
    requires PutAll(d, rs, parse, key).ok && parse(x).Some?
    ensures PutAll(d, rs + [x], parse, key)
            == Loaded(Put(PutAll(d, rs, parse, key).dict, key(parse(x).value), parse(x).value), true)
    decreases |rs|
  {
    var rx := rs + [x];
    if rs == [] {
      assert rx[0] == x && rx[1..] == [];
      PutAllUnfold(d, rx, parse, key);
    } else {
      assert parse(rs[0]).Some?;
      var w := parse(rs[0]).value;
      var d' := Put(d, key(w), w);
      assert PutAll(d, rx, parse, key) == PutAll(d', rs[1..] + [x], parse, key) by {
        assert rx[0] == rs[0] && rx[1..] == rs[1..] + [x];
        PutAllUnfold(d, rx, parse, key);
      }
      assert PutAll(d, rs, parse, key) == PutAll(d', rs[1..], parse, key) by {
        PutAllUnfold(d, rs, parse, key);
      }
      PutAllSnoc(d', rs[1..], x, parse, key);
    }
  }


  /** One step of the loading: the first record either stops it or is stored. */
  lemma PutAllUnfold<R, V>(d: Dict<V>, rs: seq<R>, parse: R -> Option<V>, key: V -> string)
    requires Consistent(d) && rs != []
    ensures parse(rs[0]).None? ==> PutAll(d, rs, parse, key) == Loaded(d, false)
    ensures parse(rs[0]).Some? ==>
              PutAll(d, rs, parse, key) == PutAll(Put(d, key(parse(rs[0]).value), parse(rs[0]).value), rs[1..], parse, key)
  {
  }

  /** Storing a value under its own key keeps the dictionary keyed. */
  lemma PutKeyed<V>(d: Dict<V>, v: V, key: V -> string)
    requires Consistent(d) && KeyedBy(d, key)
    ensures KeyedBy(Put(d, key(v), v), key)
  {
  }

  /** When every record converts, each one's key is a key afterwards. */
  lemma {:induction false} PutAllStored<R, V>(d: Dict<V>, rs: seq<R>, i: int, parse: R -> Option<V>, key: V -> string)
    requires Consistent(d) && 0 <= i < |rs| && forall j :: 0 <= j < |rs| ==> parse(rs[j]).Some?
    ensures key(parse(rs[i]).value) in PutAll(d, rs, parse, key).dict.items
    decreases |rs|
  {
    PutAllUnfold(d, rs, parse, key);
    var v := parse(rs[0]).value;
    if i > 0 {
      assert rs[1..][i - 1] == rs[i];
      PutAllStored(Put(d, key(v), v), rs[1..], i - 1, parse, key);
    }
  }

  /** Three different keys stored into an empty dictionary keep their order. */
  lemma PutThreeFresh<V>(a: string, b: string, c: string, x: V, y: V, z: V)
    requires a != b && a != c && b != c
    ensures Put(Put(Put(Empty(), a, x), b, y), c, z).keys == [a, b, c]
    ensures Values(Put(Put(Put(Empty(), a, x), b, y), c, z)) == [x, y, z]
  {
    var d3 := Put(Put(Put(Empty(), a, x), b, y), c, z);
    assert d3.keys == [a, b, c];
    ValuesThree(d3, a, b, c, x, y, z);
  }

  /** The values of a dictionary with three keys, in key order. */
  lemma ValuesThree<V>(d: Dict<V>, a: string, b: string, c: string, x: V, y: V, z: V)
    requires Consistent(d) && d.keys == [a, b, c]
    requires a in d.items && d.items[a] == x && b in d.items && d.items[b] == y && c in d.items && d.items[c] == z
    ensures Values(d) == [x, y, z]
  {
    assert Values(d)[0] == x && Values(d)[1] == y && Values(d)[2] == z;
  }

  /** One key stored into an empty dictionary. */
  lemma PutOneFresh<V>(a: string, x: V)
    ensures Values(Put(Empty(), a, x)) == [x]
  {
    assert Put(Empty(), a, x).keys == [a];
  }
}
