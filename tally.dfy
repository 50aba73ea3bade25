/** The accumulators the payout code keeps in a JavaScript `Map<string, number>`:
    entries in insertion order, `m.set(k, (m.get(k) ?? 0) + v)` to add,
    `m.set(k, v)` to overwrite, `m.get(k) ?? 0` to read, and
    `new Set([...a.keys(), ...b.keys()])` for the recipients of two maps. */
module Tally {
  import opened Folds

  type Tally<K> = seq<(K, real)>

  predicate Has<K(==)>(t: Tally<K>, k: K) {
    |t| > 0 && (t[0].0 == k || Has(t[1..], k))
  }

  /** No key occurs twice, as in any `Map`. */
  predicate Valid<K(==)>(t: Tally<K>) {
    |t| == 0 || (!Has(t[1..], t[0].0) && Valid(t[1..]))
  }

  /** `m.get(k) ?? 0`. */
  function Get0<K(==)>(t: Tally<K>, k: K): real {
    if |t| == 0 then 0.0 else if t[0].0 == k then t[0].1 else Get0(t[1..], k)
  }

  /** `m.set(k, (m.get(k) ?? 0) + v)`: an existing entry keeps its place, a new
      key goes to the end. */
  function Add<K(==)>(t: Tally<K>, k: K, v: real): Tally<K> {
    if |t| == 0 then [(k, v)]
    else if t[0].0 == k then [(k, t[0].1 + v)] + t[1..]
    else [t[0]] + Add(t[1..], k, v)
  }

  /** `m.set(k, v)`: overwrite. */
  function Put<K(==)>(t: Tally<K>, k: K, v: real): Tally<K> {
    if |t| == 0 then [(k, v)]
    else if t[0].0 == k then [(k, v)] + t[1..]
    else [t[0]] + Put(t[1..], k, v)
  }

  /** Sum of the values. */
  function Total<K(==)>(t: Tally<K>): real {
    if |t| == 0 then 0.0 else t[0].1 + Total(t[1..])
  }

  /** `m.keys()`, in insertion order. */
  function Keys<K(==)>(t: Tally<K>): (ks: seq<K>)
    ensures |ks| == |t|
    ensures forall i :: 0 <= i < |t| ==> ks[i] == t[i].0
  {
    if |t| == 0 then [] else [t[0].0] + Keys(t[1..])
  }

  predicate Distinct<K(==)>(s: seq<K>) {
    forall i, j :: 0 <= i < j < |s| ==> s[i] != s[j]
  }

  /** Adds the elements of `xs` not yet in `acc`, in order: spreading into a `Set`. */
  function Extend<K(==)>(acc: seq<K>, xs: seq<K>): seq<K>
    decreases |xs|
  {
    if |xs| == 0 then acc
    else Extend(if xs[0] in acc then acc else acc + [xs[0]], xs[1..])
  }

  /** `new Set([...a.keys(), ...b.keys()])`, as a sequence. */
  function UnionKeys<K(==)>(a: Tally<K>, b: Tally<K>): seq<K> {
    Extend([], Keys(a) + Keys(b))
  }

  /** Dropping the first entry of key `k`. */
  function Remove<K(==)>(t: Tally<K>, k: K): Tally<K> {
    if |t| == 0 then []
    else if t[0].0 == k then t[1..]
    else [t[0]] + Remove(t[1..], k)
  }

  lemma {:induction false} GetAbsent<K>(t: Tally<K>, k: K)
    requires !Has(t, k)
    ensures Get0(t, k) == 0.0
  {
    if |t| > 0 {
      GetAbsent(t[1..], k);
    }
  }

  lemma {:induction false} HasKeys<K>(t: Tally<K>, k: K)
    ensures Has(t, k) <==> k in Keys(t)
  {
    if |t| > 0 {
      HasKeys(t[1..], k);
      assert Keys(t) == [t[0].0] + Keys(t[1..]);
    }
  }

  lemma {:induction false} ValidDistinct<K>(t: Tally<K>)
    requires Valid(t)
    ensures Distinct(Keys(t))
  {
    if |t| > 0 {
      ValidDistinct(t[1..]);
      HasKeys(t[1..], t[0].0);
      assert Keys(t) == [t[0].0] + Keys(t[1..]);
    }
  }

  /** Adding changes the sum at `k` only, and by exactly `v`. */
  lemma {:induction false} AddGet<K>(t: Tally<K>, k: K, v: real, j: K)
    ensures Get0(Add(t, k, v), j) == Get0(t, j) + (if j == k then v else 0.0)
  {
    if |t| > 0 && t[0].0 != k {
      AddGet(t[1..], k, v, j);
    }
  }

  lemma {:induction false} AddHas<K>(t: Tally<K>, k: K, v: real, j: K)
    ensures Has(Add(t, k, v), j) <==> Has(t, j) || j == k
  {
    if |t| > 0 && t[0].0 != k {
      AddHas(t[1..], k, v, j);
    }
  }

  lemma {:induction false} AddValid<K>(t: Tally<K>, k: K, v: real)
    requires Valid(t)
    ensures Valid(Add(t, k, v))
  {
    if |t| > 0 && t[0].0 != k {
      AddValid(t[1..], k, v);
      AddHas(t[1..], k, v, t[0].0);
    }
  }

  /** Adding `v` under any key adds `v` to the sum of the values. */
  lemma {:induction false} AddTotal<K>(t: Tally<K>, k: K, v: real)
    ensures Total(Add(t, k, v)) == Total(t) + v
  {
    if |t| > 0 && t[0].0 != k {
      AddTotal(t[1..], k, v);
    }
  }

  /** Everything `Add` promises, in one call. */
  lemma AddFacts<K>(t: Tally<K>, k: K, v: real)
    requires Valid(t)
    ensures Valid(Add(t, k, v))
    ensures Total(Add(t, k, v)) == Total(t) + v
    ensures forall j :: Get0(Add(t, k, v), j) == Get0(t, j) + (if j == k then v else 0.0)
    ensures forall j :: Has(Add(t, k, v), j) <==> Has(t, j) || j == k
  {
    AddValid(t, k, v);
    AddTotal(t, k, v);
    forall j ensures Get0(Add(t, k, v), j) == Get0(t, j) + (if j == k then v else 0.0) {
      AddGet(t, k, v, j);
    }
    forall j ensures Has(Add(t, k, v), j) <==> Has(t, j) || j == k {
      AddHas(t, k, v, j);
    }
  }

  /** Overwriting makes `k` read `v` and leaves every other key alone. */
  lemma {:induction false} PutGet<K>(t: Tally<K>, k: K, v: real, j: K)
    ensures Get0(Put(t, k, v), j) == if j == k then v else Get0(t, j)
  {
    if |t| > 0 && t[0].0 != k {
      PutGet(t[1..], k, v, j);
    }
  }

  lemma {:induction false} PutHas<K>(t: Tally<K>, k: K, v: real, j: K)
    ensures Has(Put(t, k, v), j) <==> Has(t, j) || j == k
  {
    if |t| > 0 && t[0].0 != k {
      PutHas(t[1..], k, v, j);
    }
  }

  lemma {:induction false} PutValid<K>(t: Tally<K>, k: K, v: real)
    requires Valid(t)
    ensures Valid(Put(t, k, v))
  {
    if |t| > 0 && t[0].0 != k {
      PutValid(t[1..], k, v);
      PutHas(t[1..], k, v, t[0].0);
    }
  }

  lemma {:induction false} ExtendFacts<K>(acc: seq<K>, xs: seq<K>)
    requires Distinct(acc)
    ensures Distinct(Extend(acc, xs))
    ensures forall x :: x in Extend(acc, xs) <==> x in acc || x in xs
    ensures |Extend(acc, xs)| >= |acc| && Extend(acc, xs)[..|acc|] == acc
    decreases |xs|
  {
    if |xs| > 0 {
      var acc' := if xs[0] in acc then acc else acc + [xs[0]];
      ExtendFacts(acc', xs[1..]);
      assert xs == [xs[0]] + xs[1..];
      assert Extend(acc, xs)[..|acc'|] == acc';
      assert acc'[..|acc|] == acc;
    }
  }

  /** The recipients of two maps: each key of either exactly once. */
  lemma UnionKeysFacts<K>(a: Tally<K>, b: Tally<K>)
    ensures Distinct(UnionKeys(a, b))
    ensures forall k :: k in UnionKeys(a, b) <==> Has(a, k) || Has(b, k)
  {
    ExtendFacts([], Keys(a) + Keys(b));
    forall k ensures Has(a, k) <==> k in Keys(a) { HasKeys(a, k); }
    forall k ensures Has(b, k) <==> k in Keys(b) { HasKeys(b, k); }
  }

  lemma {:induction false} RemoveGet<K>(t: Tally<K>, k: K, j: K)
    requires j != k
    ensures Get0(Remove(t, k), j) == Get0(t, j)
  {
    if |t| > 0 && t[0].0 != k {
      RemoveGet(t[1..], k, j);
    }
  }

  lemma {:induction false} RemoveTotal<K>(t: Tally<K>, k: K)
    ensures Total(t) == Get0(t, k) + Total(Remove(t, k))
  {
    if |t| > 0 && t[0].0 != k {
      RemoveTotal(t[1..], k);
    }
  }

  lemma {:induction false} RemoveHas<K>(t: Tally<K>, k: K, j: K)
    requires Valid(t)
    ensures Has(Remove(t, k), j) <==> Has(t, j) && j != k
  {
    if |t| > 0 {
      if t[0].0 == k {
        assert Remove(t, k) == t[1..];
      } else {
        RemoveHas(t[1..], k, j);
      }
    }
  }

  lemma {:induction false} RemoveValid<K>(t: Tally<K>, k: K)
    requires Valid(t)
    ensures Valid(Remove(t, k))
  {
    if |t| > 0 && t[0].0 != k {
      RemoveValid(t[1..], k);
      RemoveHas(t[1..], k, t[0].0);
    }
  }

  /** Summing `m.get(k) ?? 0` over a list of distinct keys that covers every key
      of the map gives the sum of the map's values: no entry is lost or counted
      twice when the map is turned into one row per key. */
  lemma {:induction false} SumOverKeys<K>(keys: seq<K>, t: Tally<K>)
    requires Distinct(keys) && Valid(t)
    requires forall k :: Has(t, k) ==> k in keys
    ensures Sum(keys, k => Get0(t, k)) == Total(t)
    decreases |keys|
  {
    if |keys| == 0 {
      if |t| > 0 {
        assert Has(t, t[0].0);
      }
    } else {
      var ks, k := keys[..|keys| - 1], keys[|keys| - 1];
      var t' := Remove(t, k);
      RemoveValid(t, k);
      assert keys == ks + [k];
      forall j | Has(t', j) ensures j in ks {
        RemoveHas(t, k, j);
      }
      SumOverKeys(ks, t');
      forall i | 0 <= i < |ks| ensures Get0(t, ks[i]) == Get0(t', ks[i]) {
        assert ks[i] == keys[i];
        RemoveGet(t, k, ks[i]);
      }
      SumPointwise(ks, j => Get0(t, j), j => Get0(t', j));
      RemoveTotal(t, k);
    }
  }

  /** The amount a row adds to key `k`: its value when it has that key, else
      nothing. */
  function Where<T, K(==)>(key: T -> K, val: T -> real, k: K): T -> real {
    r => if key(r) == k then val(r) else 0.0
  }

  /** The map `for (const r of rows) m.set(key(r), (m.get(key(r)) ?? 0) + val(r))`
      builds. */
  function Collect<T, K(==)>(rows: seq<T>, key: T -> K, val: T -> real): Tally<K> {
    if |rows| == 0 then []
    else Add(Collect(rows[..|rows| - 1], key, val), key(rows[|rows| - 1]), val(rows[|rows| - 1]))
  }

  lemma CollectSnoc<T, K>(rows: seq<T>, x: T, key: T -> K, val: T -> real)
    ensures Collect(rows + [x], key, val) == Add(Collect(rows, key, val), key(x), val(x))
  {
    assert (rows + [x])[..|rows|] == rows;
  }

  lemma CollectStep<T, K>(rows: seq<T>, i: nat, key: T -> K, val: T -> real)
    requires i < |rows|
    ensures Collect(rows[..i + 1], key, val) == Add(Collect(rows[..i], key, val), key(rows[i]), val(rows[i]))
  {
    assert rows[..i + 1][..i] == rows[..i];
  }

  /** Every row lands on its key: the map has one entry per distinct key, that
      entry is the sum of the values of the rows with that key, and nothing is
      lost or added overall. */
  lemma {:induction false} CollectFacts<T, K>(rows: seq<T>, key: T -> K, val: T -> real)
    ensures Valid(Collect(rows, key, val))
    ensures Total(Collect(rows, key, val)) == Sum(rows, val)
    ensures forall k :: Get0(Collect(rows, key, val), k) == Sum(rows, Where(key, val, k))
    ensures forall k :: Has(Collect(rows, key, val), k) <==> exists i :: 0 <= i < |rows| && key(rows[i]) == k
  {
    if |rows| > 0 {
      var init, last := rows[..|rows| - 1], rows[|rows| - 1];
      var t := Collect(init, key, val);
      CollectFacts(init, key, val);
      AddFacts(t, key(last), val(last));
      forall k ensures Has(Collect(rows, key, val), k) <==> exists i :: 0 <= i < |rows| && key(rows[i]) == k {
        if Has(t, k) {
          var i :| 0 <= i < |init| && key(init[i]) == k;
          assert rows[i] == init[i];
        }
        if exists i :: 0 <= i < |rows| && key(rows[i]) == k {
          var i :| 0 <= i < |rows| && key(rows[i]) == k;
          if i < |init| {
            assert init[i] == rows[i];
          }
        }
      }
    }
  }

  /** The map `for (const r of rows) m.set(key(r), val(r))` builds: the last
      row of each key wins. */
  function Latest<T, K(==)>(rows: seq<T>, key: T -> K, val: T -> real): Tally<K> {
    if |rows| == 0 then []
    else Put(Latest(rows[..|rows| - 1], key, val), key(rows[|rows| - 1]), val(rows[|rows| - 1]))
  }

  lemma LatestStep<T, K>(rows: seq<T>, i: nat, key: T -> K, val: T -> real)
    requires i < |rows|
    ensures Latest(rows[..i + 1], key, val) == Put(Latest(rows[..i], key, val), key(rows[i]), val(rows[i]))
  {
    assert rows[..i + 1][..i] == rows[..i];
  }

  /** Row `i` is the last row with key `k`. */
  predicate LastWithKey<T, K(==)>(rows: seq<T>, key: T -> K, k: K, i: int) {
    0 <= i < |rows| && key(rows[i]) == k && forall j :: i < j < |rows| ==> key(rows[j]) != k
  }

  /** A key's entry holds the value of the last row with that key; a key no row
      has is absent. */
  lemma LatestFacts<T, K>(rows: seq<T>, key: T -> K, val: T -> real, k: K)
    ensures Valid(Latest(rows, key, val))
    ensures Has(Latest(rows, key, val), k) <==> exists i :: 0 <= i < |rows| && key(rows[i]) == k
    ensures forall i :: LastWithKey(rows, key, k, i) ==> Get0(Latest(rows, key, val), k) == val(rows[i])
  {
    LatestKeys(rows, key, val, k);
    LatestValues(rows, key, val, k);
  }

  /** The keys of the map are the keys of the rows. */
  lemma {:induction false} LatestKeys<T, K>(rows: seq<T>, key: T -> K, val: T -> real, k: K)
    ensures Valid(Latest(rows, key, val))
    ensures Has(Latest(rows, key, val), k) <==> exists i :: 0 <= i < |rows| && key(rows[i]) == k
  {
    if |rows| > 0 {
      var init, last := rows[..|rows| - 1], rows[|rows| - 1];
      var t := Latest(init, key, val);
      LatestKeys(init, key, val, k);
      PutValid(t, key(last), val(last));
      PutHas(t, key(last), val(last), k);
      if Has(t, k) {
        var i :| 0 <= i < |init| && key(init[i]) == k;
        assert rows[i] == init[i];
      }
      if exists i :: 0 <= i < |rows| && key(rows[i]) == k {
        var i :| 0 <= i < |rows| && key(rows[i]) == k;
        if i < |init| {
          assert init[i] == rows[i];
        }
      }
    }
  }

  /** A key's entry is the value of its last row. */
  lemma {:induction false} LatestValues<T, K>(rows: seq<T>, key: T -> K, val: T -> real, k: K)
    ensures forall i :: LastWithKey(rows, key, k, i) ==> Get0(Latest(rows, key, val), k) == val(rows[i])
  {
    if |rows| > 0 {
      var init, last := rows[..|rows| - 1], rows[|rows| - 1];
      var t := Latest(init, key, val);
      LatestValues(init, key, val, k);
      PutGet(t, key(last), val(last), k);
      forall i | LastWithKey(rows, key, k, i)
        ensures Get0(Latest(rows, key, val), k) == val(rows[i])
      {
        if i < |init| {
          assert key(rows[|rows| - 1]) != k;
          assert init[i] == rows[i];
          assert forall j :: i < j < |init| ==> init[j] == rows[j];
          assert LastWithKey(init, key, k, i);
        }
      }
    }
  }

  /** Adding a batch of rows to an existing map, in order. */
  function AddAll<T, K(==)>(t: Tally<K>, rows: seq<T>, key: T -> K, val: T -> real): Tally<K> {
    if |rows| == 0 then t
    else Add(AddAll(t, rows[..|rows| - 1], key, val), key(rows[|rows| - 1]), val(rows[|rows| - 1]))
  }

  /** Collecting two batches is collecting the first and adding the second. */
  lemma {:induction false} CollectAppend<T, K>(xs: seq<T>, ys: seq<T>, key: T -> K, val: T -> real)
    ensures Collect(xs + ys, key, val) == AddAll(Collect(xs, key, val), ys, key, val)
  {
    if |ys| == 0 {
      assert xs + ys == xs;
    } else {
      assert (xs + ys)[..|xs + ys| - 1] == xs + ys[..|ys| - 1];
      CollectAppend(xs, ys[..|ys| - 1], key, val);
    }
  }
}
