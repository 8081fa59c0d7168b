/**
  PHP's ordered array, the container behind every collection the worksheet
  helper keeps: the column map, the data rows, the per-column formats and the
  per-column types. A PHP array is an ordered list of entries whose keys are
  distinct; writing a key that is present replaces its value in place, writing
  a new key appends it at the end.
 */
module PhpArray {

  /** A PHP array key after PHP's own key normalisation: an integer, or a
      string that is not the canonical decimal spelling of an integer. */
  datatype Key = IntKey(i: int) | StrKey(s: string)

  datatype Entry<V> = Entry(key: Key, value: V)

  type PArray<V> = seq<Entry<V>>

  datatype Option<T> = None | Some(value: T)

  /** Every PHP array has distinct keys. */
  predicate WellFormed<V>(a: PArray<V>)
  {
    forall i, j :: 0 <= i < j < |a| ==> a[i].key != a[j].key
  }

  /** The value stored under `k`, if any. */
  function Find<V>(a: PArray<V>, k: Key): Option<V>
    decreases |a|
  {
    if |a| == 0 then None
    else if a[0].key == k then Some(a[0].value)
    else Find(a[1..], k)
  }

  /** A key is found exactly when some entry holds it. */
  lemma {:induction false} FindNone<V>(a: PArray<V>, k: Key)
    ensures Find(a, k).None? <==> forall i :: 0 <= i < |a| ==> a[i].key != k
    decreases |a|
  {
    if |a| > 0 && a[0].key != k {
      FindNone(a[1..], k);
      assert forall i :: 0 < i < |a| ==> a[i] == a[1..][i - 1];
    }
  }

  /** In a well-formed array the entry at position `i` is the one found under its key. */
  lemma {:induction false} FindAt<V>(a: PArray<V>, i: nat)
    requires WellFormed(a)
    requires i < |a|
    ensures Find(a, a[i].key) == Some(a[i].value)
    decreases i
  {
    if i > 0 {
      assert a[0].key != a[i].key;
      assert a[1..][i - 1] == a[i];
      FindAt(a[1..], i - 1);
    }
  }

  /** `$a[$k] = $v`: replace the value of an existing key in place, or append a new entry. */
  function Put<V>(a: PArray<V>, k: Key, v: V): (r: PArray<V>)
    ensures Find(r, k) == Some(v)
    ensures forall k' :: k' != k ==> Find(r, k') == Find(a, k')
    decreases |a|
  {
    if |a| == 0 then [Entry(k, v)]
    else if a[0].key == k then [Entry(k, v)] + a[1..]
    else [a[0]] + Put(a[1..], k, v)
  }

  /** Writing a key keeps the existing keys in their positions; a new key goes last. */
  lemma {:induction false} PutKeys<V>(a: PArray<V>, k: Key, v: V)
    ensures |Put(a, k, v)| == if Find(a, k).Some? then |a| else |a| + 1
    ensures forall i :: 0 <= i < |a| ==> Put(a, k, v)[i].key == a[i].key
    ensures Find(a, k).None? ==> Put(a, k, v)[|a|] == Entry(k, v)
    decreases |a|
  {
    if |a| > 0 && a[0].key != k {
      PutKeys(a[1..], k, v);
      var r := Put(a, k, v);
      assert r == [a[0]] + Put(a[1..], k, v);
      forall i | 0 < i < |a|
        ensures r[i].key == a[i].key
      {
        assert r[i] == Put(a[1..], k, v)[i - 1];
        assert a[i] == a[1..][i - 1];
      }
    }
  }

  /** Writing one key keeps the keys of a PHP array distinct. */
  lemma PutWellFormed<V>(a: PArray<V>, k: Key, v: V)
    ensures WellFormed(a) ==> WellFormed(Put(a, k, v))
  {
    var r := Put(a, k, v);
    PutKeys(a, k, v);
    forall i, j | 0 <= i < j < |r| && WellFormed(a)
      ensures r[i].key != r[j].key
    {
      if j < |a| {
        assert r[i].key == a[i].key && r[j].key == a[j].key;
      } else {
        FindNone(a, k);
        assert Find(a, k).None? && r[j] == Entry(k, v);
        assert r[i].key == a[i].key;
      }
    }
  }

  /** A PHP list `array(v0, v1, ...)`: the keys are 0, 1, 2, ... in order. */
  function FromList<V>(s: seq<V>): PArray<V>
  {
    seq(|s|, i requires 0 <= i < |s| => Entry(IntKey(i), s[i]))
  }

  /** Looking up a list by key `n` finds the `n`-th element, and a string key finds nothing. */
  lemma FromListFind<V>(s: seq<V>, k: Key)
    ensures WellFormed(FromList(s))
    ensures Find(FromList(s), k) == if k.IntKey? && 0 <= k.i < |s| then Some(s[k.i]) else None
  {
    var a := FromList(s);
    if k.IntKey? && 0 <= k.i < |s| {
      FindAt(a, k.i);
    } else {
      FindNone(a, k);
    }
  }
}
