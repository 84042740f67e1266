/**
 * The key-value store the server persists its records in (`kv.get`,
 * `kv.set`, `kv.getByPrefix`). One prefix (`user:`, `item:`,
 * `transaction:`) is one table: the sequence of its records in the order a
 * prefix scan enumerates them, each stored under the key its `key` function
 * gives (the record's own `id`).
 */
module KeyValue {
  import opened Wrappers
  import opened Seqs

  /** No two records of the table are stored under the same key. */
  ghost predicate UniqueKeys<T>(s: seq<T>, key: T -> string)
  {
    forall i, j :: 0 <= i < j < |s| ==> key(s[i]) != key(s[j])
  }

  /** The position of the record stored under `k`, or `|s|` when there is none. */
  function IndexOfKey<T>(s: seq<T>, key: T -> string, k: string): (i: nat)
    ensures i <= |s|
    ensures i < |s| ==> key(s[i]) == k
    ensures forall j :: 0 <= j < i ==> key(s[j]) != k
  {
    IndexWhere(s, (x: T) => key(x) == k)
  }

  /** `kv.get(k)`: the record stored under `k`, if any. */
  function Get<T>(s: seq<T>, key: T -> string, k: string): (r: Option<T>)
    ensures r.Some? ==> r.value in s && key(r.value) == k
    ensures r.None? <==> forall j :: 0 <= j < |s| ==> key(s[j]) != k
  {
    var i := IndexOfKey(s, key, k);
    if i < |s| then Some(s[i]) else None
  }

  /** In a table with unique keys, the record at position `i` is the one `Get` finds under its key. */
  lemma GetAt<T>(s: seq<T>, key: T -> string, i: nat)
    requires UniqueKeys(s, key) && i < |s|
    ensures IndexOfKey(s, key, key(s[i])) == i
    ensures Get(s, key, key(s[i])) == Some(s[i])
  {
  }

  /**
   * `kv.set(key(x), x)`: overwrites the record stored under `x`'s key in
   * place, or appends `x` when the key is new.
   */
  function Put<T>(s: seq<T>, key: T -> string, x: T): (r: seq<T>)
    ensures x in r
    ensures |s| <= |r| <= |s| + 1
  {
    var i := IndexOfKey(s, key, key(x));
    if i < |s| then
      assert s[i := x][i] == x;
      s[i := x]
    else
      assert (s + [x])[|s|] == x;
      s + [x]
  }

  /** After a write, its key reads back the written record and every other key reads as before. */
  lemma PutGet<T>(s: seq<T>, key: T -> string, x: T)
    ensures Get(Put(s, key, x), key, key(x)) == Some(x)
    ensures forall k :: k != key(x) ==> Get(Put(s, key, x), key, k) == Get(s, key, k)
  {
    var i := IndexOfKey(s, key, key(x));
    var r := Put(s, key, x);
    assert key(r[i]) == key(x);
    assert forall j :: 0 <= j < |s| && j != i ==> r[j] == s[j];
    assert IndexOfKey(r, key, key(x)) == i;
    forall k | k != key(x) ensures Get(r, key, k) == Get(s, key, k) {
      assert forall j :: 0 <= j < |r| ==> (key(r[j]) == k <==> j < |s| && key(s[j]) == k);
      var a := IndexOfKey(s, key, k);
      assert a < |s| ==> IndexOfKey(r, key, k) == a;
    }
  }

  /** Writing under a key the table does not hold appends the record. */
  lemma PutNew<T>(s: seq<T>, key: T -> string, x: T)
    requires Get(s, key, key(x)).None?
    ensures Put(s, key, x) == s + [x]
  {
  }

  /** A write keeps the keys of the table unique. */
  lemma PutKeepsUnique<T>(s: seq<T>, key: T -> string, x: T)
    requires UniqueKeys(s, key)
    ensures UniqueKeys(Put(s, key, x), key)
  {
    var i := IndexOfKey(s, key, key(x));
    var r := Put(s, key, x);
    if i < |s| {
      assert forall j :: 0 <= j < |s| ==> key(r[j]) == key(s[j]);
    } else {
      assert forall j :: 0 <= j < |s| ==> key(s[j]) != key(x);
    }
  }

  /** With unique keys, overwriting the record at position `i` changes that position only. */
  lemma PutAt<T>(s: seq<T>, key: T -> string, i: nat, x: T)
    requires UniqueKeys(s, key) && i < |s| && key(x) == key(s[i])
    ensures Put(s, key, x) == s[i := x]
  {
    GetAt(s, key, i);
  }
}
