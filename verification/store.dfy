/** The sequence operations the in-memory services are built from:
    `Array.prototype.find`/`findIndex` on a numeric key, `filter`, and
    `splice(index, 1)`. */
module Store {
  import opened Wrappers

  /** The first position whose key is `id`, as `findIndex` reports it. */
  function FirstIndex<T>(s: seq<T>, key: T -> int, id: int): (r: Option<nat>)
    ensures r.None? <==> forall i :: 0 <= i < |s| ==> key(s[i]) != id
    ensures r.Some? ==> r.value < |s| && key(s[r.value]) == id
    ensures r.Some? ==> forall j :: 0 <= j < r.value ==> key(s[j]) != id
    decreases |s|
  {
    if |s| == 0 then None
    else if key(s[0]) == id then Some(0)
    else match FirstIndex(s[1..], key, id)
      case None => None
      case Some(k) => Some(k + 1)
  }

  /** Any position holding the key bounds the first one from above. */
  lemma FirstIndexIsFirst<T>(s: seq<T>, key: T -> int, id: int, i: nat)
    requires i < |s| && key(s[i]) == id
    ensures FirstIndex(s, key, id).Some? && FirstIndex(s, key, id).value <= i
  {
  }

  /** `s.splice(i, 1)`: the element at `i` goes, the rest keep their order. */
  function RemoveAt<T>(s: seq<T>, i: nat): (r: seq<T>)
    requires i < |s|
    ensures |r| == |s| - 1
    ensures forall k :: 0 <= k < i ==> r[k] == s[k]
    ensures forall k :: i <= k < |r| ==> r[k] == s[k + 1]
  {
    s[..i] + s[i + 1..]
  }

  /** Removing the last element undoes an append. */
  lemma RemoveAtUndoesAppend<T>(s: seq<T>, x: T)
    ensures RemoveAt(s + [x], |s|) == s
  {
  }

  /** The elements whose key is `id`, in stored order. */
  function Filter<T>(s: seq<T>, key: T -> int, id: int): (r: seq<T>)
    ensures |r| <= |s|
    ensures forall k :: 0 <= k < |r| ==> key(r[k]) == id
    ensures forall k :: 0 <= k < |r| ==> r[k] in s
    ensures forall i :: 0 <= i < |s| && key(s[i]) == id ==> s[i] in r
    ensures multiset(r) <= multiset(s)
    decreases |s|
  {
    if |s| == 0 then []
    else
      assert s == [s[0]] + s[1..];
      if key(s[0]) == id then [s[0]] + Filter(s[1..], key, id)
      else Filter(s[1..], key, id)
  }

  /** Filtering a concatenation filters each part, so the order of the source
      is kept. */
  lemma {:induction false} FilterAppend<T>(a: seq<T>, b: seq<T>, key: T -> int, id: int)
    ensures Filter(a + b, key, id) == Filter(a, key, id) + Filter(b, key, id)
    decreases |a|
  {
    if |a| > 0 {
      assert (a + b)[1..] == a[1..] + b;
      FilterAppend(a[1..], b, key, id);
    } else {
      assert a + b == b;
    }
  }

  /** Every element with the key is kept. */
  lemma {:induction false} FilterKeeps<T>(s: seq<T>, key: T -> int, id: int, i: nat)
    requires i < |s| && key(s[i]) == id
    ensures exists k :: 0 <= k < |Filter(s, key, id)| && Filter(s, key, id)[k] == s[i]
    decreases |s|
  {
    if i == 0 {
      assert Filter(s, key, id)[0] == s[0];
    } else {
      FilterKeeps(s[1..], key, id, i - 1);
      var k :| 0 <= k < |Filter(s[1..], key, id)| && Filter(s[1..], key, id)[k] == s[1..][i - 1];
      if key(s[0]) == id {
        assert Filter(s, key, id)[k + 1] == s[i];
      } else {
        assert Filter(s, key, id)[k] == s[i];
      }
    }
  }
}
