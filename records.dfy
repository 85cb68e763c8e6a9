/**
 * String-keyed records that remember insertion order: a JavaScript `Map`
 * filled with `set`, or a plain object filled with `obj[key] = value`.
 * Writing an existing key keeps its position; a new key goes last.
 */
module Records {
  import opened Wrappers

  /** The position of the first occurrence of `key`, or `|keys|` when there is none. */
  function KeyIndex(keys: seq<string>, key: string): (k: nat)
    ensures k <= |keys|
    ensures k < |keys| ==> keys[k] == key
    ensures forall j :: 0 <= j < k ==> keys[j] != key
  {
    if keys == [] then 0
    else if keys[0] == key then 0
    else 1 + KeyIndex(keys[1..], key)
  }

  lemma KeyIndexAppend(keys: seq<string>, x: string, key: string)
    ensures KeyIndex(keys + [x], key) ==
              (if key in keys then KeyIndex(keys, key) else if x == key then |keys| else |keys| + 1)
  {
    var b := KeyIndex(keys, key);
    if key in keys {
      var j :| 0 <= j < |keys| && keys[j] == key;
      assert b <= j;
      assert (keys + [x])[b] == key;
    } else {
      assert b == |keys|;
      if x == key {
        assert (keys + [x])[|keys|] == key;
      }
    }
  }

  function KeysOf<V>(m: seq<(string, V)>): (r: seq<string>)
    ensures |r| == |m| && forall i :: 0 <= i < |m| ==> r[i] == m[i].0
  {
    seq(|m|, i requires 0 <= i < |m| => m[i].0)
  }

  predicate UniqueKeys<V>(m: seq<(string, V)>) {
    forall i, j :: 0 <= i < j < |m| ==> m[i].0 != m[j].0
  }

  /** `map.get(key)` / `obj[key]`: the value stored under `key`, if any. */
  function Get<V>(m: seq<(string, V)>, key: string): (r: Option<V>)
    ensures r.Some? <==> key in KeysOf(m)
  {
    var k := KeyIndex(KeysOf(m), key);
    if k < |m| then Some(m[k].1) else None
  }

  /** `map.set(key, v)` / `obj[key] = v`. */
  function Put<V>(m: seq<(string, V)>, key: string, v: V): (r: seq<(string, V)>)
    ensures KeysOf(r) == if key in KeysOf(m) then KeysOf(m) else KeysOf(m) + [key]
  {
    var k := KeyIndex(KeysOf(m), key);
    if k < |m| then m[k := (key, v)] else m + [(key, v)]
  }

  /** With unique keys an entry is what `Get` finds under its key. */
  lemma GetEntry<V>(m: seq<(string, V)>, i: nat)
    requires UniqueKeys(m) && i < |m|
    ensures Get(m, m[i].0) == Some(m[i].1)
  {
    var k := KeyIndex(KeysOf(m), m[i].0);
    assert k <= i;
  }

  /**
   * After a write the key holds the new value, every other key reads as
   * before, and the keys stay unique.
   */
  lemma PutSpec<V>(m: seq<(string, V)>, key: string, v: V)
    requires UniqueKeys(m)
    ensures UniqueKeys(Put(m, key, v))
    ensures Get(Put(m, key, v), key) == Some(v)
    ensures forall other :: other != key ==> Get(Put(m, key, v), other) == Get(m, other)
  {
    var r := Put(m, key, v);
    var k := KeyIndex(KeysOf(m), key);
    if k < |m| {
      assert KeysOf(r) == KeysOf(m);
      forall other | other != key ensures Get(r, other) == Get(m, other) {
        var j := KeyIndex(KeysOf(m), other);
        if j < |m| {
          assert j != k;
        }
      }
    } else {
      forall other ensures Get(r, other) == if other == key then Some(v) else Get(m, other) {
        KeyIndexAppend(KeysOf(m), key, other);
        if other !in KeysOf(m) {
          assert KeyIndex(KeysOf(m), other) == |m|;
        }
      }
    }
  }
}
