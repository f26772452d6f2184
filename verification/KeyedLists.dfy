/** Lists whose elements have keys: collecting one without duplicates, and updating one in place. */
module KeyedLists {
  import opened Prelude

  function Keys<T, K>(list: seq<T>, key: T -> K): (ks: seq<K>)
    ensures |ks| == |list| && forall i :: 0 <= i < |list| ==> ks[i] == key(list[i])
  {
    seq(|list|, i requires 0 <= i < |list| => key(list[i]))
  }

  ghost predicate UniqueKeys<T, K>(list: seq<T>, key: T -> K) {
    forall i, j :: 0 <= i < j < |list| ==> key(list[i]) != key(list[j])
  }

  // ---- collecting ----

  /** Parses every value; the first one that does not parse or repeats a key decides the error. */
  function CollectUnique<V, T>(values: seq<V>, parse: V -> Result<T>, key: T -> string): Result<seq<T>> {
    if values == [] then Ok([])
    else
      var before := CollectUnique(values[..|values| - 1], parse, key);
      if before.Err? then before
      else
        var last := parse(values[|values| - 1]);
        if last.Err? then Err(last.error)
        else if key(last.value) in Keys(before.value, key) then Err(AlreadyExists)
        else Ok(before.value + [last.value])
  }

  ghost predicate AllParse<V, T>(values: seq<V>, parse: V -> Result<T>) {
    forall i :: 0 <= i < |values| ==> parse(values[i]).Ok?
  }

  /** A collection is accepted exactly when every value parses and no two have the same key; the
      list then holds the parsed values in order. */
  lemma {:induction false} AcceptedIffUnique<V, T>(values: seq<V>, parse: V -> Result<T>, key: T -> string)
    ensures CollectUnique(values, parse, key).Ok? <==>
              AllParse(values, parse) &&
              forall i, j :: 0 <= i < j < |values| ==> key(parse(values[i]).value) != key(parse(values[j]).value)
    ensures CollectUnique(values, parse, key).Ok? ==>
              var list := CollectUnique(values, parse, key).value;
              |list| == |values| && UniqueKeys(list, key) &&
              forall i :: 0 <= i < |list| ==> list[i] == parse(values[i]).value
  {
    if values != [] {
      var n := |values| - 1;
      var init := values[..n];
      AcceptedIffUnique(init, parse, key);
      var before := CollectUnique(init, parse, key);
      assert forall i :: 0 <= i < n ==> init[i] == values[i];
      if before.Ok? && parse(values[n]).Ok? {
        var ks := Keys(before.value, key);
        assert forall i :: 0 <= i < n ==> ks[i] == key(parse(values[i]).value);
        if key(parse(values[n]).value) in ks {
          var i :| 0 <= i < n && ks[i] == key(parse(values[n]).value);
          assert key(parse(values[i]).value) == key(parse(values[n]).value);
        }
      } else if before.Err? && AllParse(values, parse) {
        assert AllParse(init, parse);
        var i, j :| 0 <= i < j < |init| && key(parse(init[i]).value) == key(parse(init[j]).value);
        assert key(parse(values[i]).value) == key(parse(values[j]).value);
      }
    }
  }

  // ---- updating ----

  /** The index of the first element with this key, or the length. */
  function Find<T, K(==)>(list: seq<T>, key: T -> K, k: K): (i: nat)
    ensures i <= |list| && (i < |list| ==> key(list[i]) == k)
    ensures forall j :: 0 <= j < i ==> key(list[j]) != k
  {
    if list == [] then 0 else if key(list[0]) == k then 0 else 1 + Find(list[1..], key, k)
  }

  function Upsert<T, K(==)>(list: seq<T>, key: T -> K, item: T): seq<T> {
    var i := Find(list, key, key(item));
    if i < |list| then list[i := item] else list + [item]
  }

  /** What the list says about each key: its first element with that key. */
  function AsMap<T, K(==)>(list: seq<T>, key: T -> K): map<K, T> {
    if list == [] then map[] else AsMap(list[1..], key)[key(list[0]) := list[0]]
  }

  lemma {:induction false} AsMapContents<T, K>(list: seq<T>, key: T -> K)
    requires UniqueKeys(list, key)
    ensures forall i :: 0 <= i < |list| ==> key(list[i]) in AsMap(list, key) && AsMap(list, key)[key(list[i])] == list[i]
    ensures forall k :: k in AsMap(list, key) ==> exists i :: 0 <= i < |list| && key(list[i]) == k
  {
    if list != [] {
      AsMapContents(list[1..], key);
      var m := AsMap(list, key);
      forall i | 0 <= i < |list| ensures key(list[i]) in m && m[key(list[i])] == list[i] {
        if i > 0 { assert list[1..][i - 1] == list[i] && key(list[0]) != key(list[i]); }
      }
      forall k | k in m ensures exists i :: 0 <= i < |list| && key(list[i]) == k {
        if k == key(list[0]) {
          assert key(list[0]) == k;
        } else {
          var i :| 0 <= i < |list[1..]| && key(list[1..][i]) == k;
          assert key(list[i + 1]) == k;
        }
      }
    }
  }

  /** An upsert is a map update that keeps the keys distinct and in their old order. */
  lemma UpsertRefinesMapUpdate<T, K>(list: seq<T>, key: T -> K, item: T)
    requires UniqueKeys(list, key)
    ensures UniqueKeys(Upsert(list, key, item), key)
    ensures AsMap(Upsert(list, key, item), key) == AsMap(list, key)[key(item) := item]
    ensures Keys(Upsert(list, key, item), key)
         == if key(item) in Keys(list, key) then Keys(list, key) else Keys(list, key) + [key(item)]
  {
    var i := Find(list, key, key(item));
    var list' := Upsert(list, key, item);
    var ks := Keys(list, key);
    assert forall j :: 0 <= j < |list| ==> ks[j] == key(list[j]);
    if i < |list| {
      assert ks[i] == key(item);
      assert Keys(list', key) == ks;
      assert forall j :: 0 <= j < |list'| ==> key(list'[j]) == Keys(list', key)[j];
    } else {
      assert key(item) !in ks;
      assert Keys(list', key) == ks + [key(item)];
    }
    assert UniqueKeys(list', key);
    AsMapContents(list, key);
    AsMapContents(list', key);
    SameContents(list, list', key, item, i);
  }

  lemma SameContents<T, K>(list: seq<T>, list': seq<T>, key: T -> K, item: T, i: nat)
    requires UniqueKeys(list, key) && UniqueKeys(list', key) && i <= |list|
    requires list' == if i < |list| then list[i := item] else list + [item]
    requires forall j :: 0 <= j < |list| ==> (key(list[j]) == key(item) <==> j == i)
    ensures AsMap(list', key) == AsMap(list, key)[key(item) := item]
  {
    AsMapContents(list, key);
    AsMapContents(list', key);
    var m, m' := AsMap(list, key)[key(item) := item], AsMap(list', key);
    forall k | k in m' ensures k in m && m[k] == m'[k] {
      var j :| 0 <= j < |list'| && key(list'[j]) == k;
      if j != i { assert list[j] == list'[j]; }
    }
    forall k | k in m ensures k in m' {
      if k == key(item) {
        assert list'[i] == item;
      } else {
        var j :| 0 <= j < |list| && key(list[j]) == k;
        assert list'[j] == list[j];
      }
    }
  }

  /** The three update loops of the driver, which differ in the element type and the key only. */
  method UpsertInPlace<T, K(==)>(list: seq<T>, key: T -> K, item: T) returns (updated: seq<T>)
    ensures updated == Upsert(list, key, item)
  {
    var index := 0;
    while index < |list|
      invariant 0 <= index <= |list|
      invariant forall j :: 0 <= j < index ==> key(list[j]) != key(item)
    {
      if key(list[index]) == key(item) {
        assert Find(list, key, key(item)) == index;
        return list[index := item];
      }
      index := index + 1;
    }
    return list + [item];
  }

  /** The collecting loop with its set of seen keys; `output` counts only on success. */
  method ParseUniqueArray<V, T>(values: seq<V>, parse: V -> Result<T>, key: T -> string)
    returns (status: Status, output: seq<T>)
    ensures CollectUnique(values, parse, key) == if status.Success? then Ok(output) else Err(status.error)
  {
    var seenKeys: set<string> := {};
    output := [];
    var index := 0;
    while index < |values|
      invariant 0 <= index <= |values|
      invariant CollectUnique(values[..index], parse, key) == Ok(output)
      invariant forall k :: k in seenKeys <==> k in Keys(output, key)
    {
      assert values[..index + 1][..index] == values[..index];
      var parsed := parse(values[index]);
      if parsed.Err? {
        ErrorPersists(values, parse, key, index + 1);
        return Failure(parsed.error), output;
      }
      if key(parsed.value) in seenKeys {
        ErrorPersists(values, parse, key, index + 1);
        return Failure(AlreadyExists), output;
      }
      assert Keys(output + [parsed.value], key) == Keys(output, key) + [key(parsed.value)];
      seenKeys := seenKeys + {key(parsed.value)};
      output := output + [parsed.value];
      index := index + 1;
    }
    assert values[..index] == values;
    status := Success;
  }

  lemma {:induction false} ErrorPersists<V, T>(values: seq<V>, parse: V -> Result<T>, key: T -> string, n: nat)
    requires n <= |values| && CollectUnique(values[..n], parse, key).Err?
    ensures CollectUnique(values, parse, key) == CollectUnique(values[..n], parse, key)
    decreases |values| - n
  {
    if n == |values| {
      assert values[..n] == values;
    } else {
      assert values[..n + 1][..n] == values[..n];
      ErrorPersists(values, parse, key, n + 1);
    }
  }
}
