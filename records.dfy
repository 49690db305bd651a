/** Operations shared by the three stores of the application. Every store keeps
    a JavaScript array of records and replaces it, on each change, with a
    filtered or mapped copy; the functions below are those copies, generic in
    the record type `T` and in the field `key` that an operation compares. */
module Records {

  datatype Option<+T> = None | Some(value: T) {
    /** The value, or `default` when absent (JavaScript's `x ?? default`). */
    function GetOr(default: T): T {
      if Some? then value else default
    }
  }

  /** Record identifiers (UUID strings in the application). */
  type Id = string

  /** `s.filter(x => key(x) !== k)`: the records whose key differs from `k`;
      when no record has key `k` the list comes back unchanged. */
  function RemoveWhere<T, K(==)>(s: seq<T>, key: T -> K, k: K): (r: seq<T>)
    ensures |r| <= |s|
    ensures (forall i :: 0 <= i < |s| ==> key(s[i]) != k) ==> r == s
  {
    if s == [] then []
    else
      var last := s[|s| - 1];
      RemoveWhere(s[..|s| - 1], key, k) + (if key(last) != k then [last] else [])
  }

  /** `s.filter(x => key(x) === k)`: the records whose key is `k`. */
  function KeepWhere<T, K(==)>(s: seq<T>, key: T -> K, k: K): (r: seq<T>)
    ensures |r| <= |s|
  {
    if s == [] then []
    else
      var last := s[|s| - 1];
      KeepWhere(s[..|s| - 1], key, k) + (if key(last) == k then [last] else [])
  }

  lemma RemoveWhereSnoc<T, K>(s: seq<T>, x: T, key: T -> K, k: K)
    ensures RemoveWhere(s + [x], key, k) == RemoveWhere(s, key, k) + (if key(x) != k then [x] else [])
  {
    assert (s + [x])[..|s|] == s;
  }

  lemma KeepWhereSnoc<T, K>(s: seq<T>, x: T, key: T -> K, k: K)
    ensures KeepWhere(s + [x], key, k) == KeepWhere(s, key, k) + (if key(x) == k then [x] else [])
  {
    assert (s + [x])[..|s|] == s;
  }

  /** The filter keeps exactly the records whose key differs from `k`. */
  lemma {:induction false} RemoveWhereMembers<T(!new), K>(s: seq<T>, key: T -> K, k: K)
    ensures forall x :: x in RemoveWhere(s, key, k) <==> x in s && key(x) != k
  {
    if s != [] {
      var init := s[..|s| - 1];
      assert s == init + [s[|s| - 1]];
      RemoveWhereMembers(init, key, k);
    }
  }

  /** The filter keeps exactly the records whose key is `k`. */
  lemma {:induction false} KeepWhereMembers<T(!new), K>(s: seq<T>, key: T -> K, k: K)
    ensures forall x :: x in KeepWhere(s, key, k) <==> x in s && key(x) == k
  {
    if s != [] {
      var init := s[..|s| - 1];
      assert s == init + [s[|s| - 1]];
      KeepWhereMembers(init, key, k);
    }
  }

  /** No record has key `k`: the filter on `k` is empty. */
  lemma {:induction false} KeepWhereNone<T, K>(s: seq<T>, key: T -> K, k: K)
    requires forall i :: 0 <= i < |s| ==> key(s[i]) != k
    ensures KeepWhere(s, key, k) == []
  {
    if s != [] {
      KeepWhereNone(s[..|s| - 1], key, k);
    }
  }

  /** Filtering keeps the relative order of the records: it distributes over
      concatenation. */
  lemma {:induction false} RemoveWhereAppend<T, K>(a: seq<T>, b: seq<T>, key: T -> K, k: K)
    ensures RemoveWhere(a + b, key, k) == RemoveWhere(a, key, k) + RemoveWhere(b, key, k)
    decreases |b|
  {
    if b == [] {
      assert a + b == a;
    } else {
      var init := b[..|b| - 1];
      var last := b[|b| - 1];
      var tail := if key(last) != k then [last] else [];
      assert (a + b)[..|a + b| - 1] == a + init;
      assert (a + b)[|a + b| - 1] == last;
      assert RemoveWhere(a + b, key, k) == RemoveWhere(a + init, key, k) + tail;
      assert RemoveWhere(b, key, k) == RemoveWhere(init, key, k) + tail;
      RemoveWhereAppend(a, init, key, k);
    }
  }

  /** Every record goes to exactly one side of the split by key. */
  lemma {:induction false} PartitionLength<T, K>(s: seq<T>, key: T -> K, k: K)
    ensures |KeepWhere(s, key, k)| + |RemoveWhere(s, key, k)| == |s|
  {
    if s != [] {
      PartitionLength(s[..|s| - 1], key, k);
    }
  }

  /** `s.map(x => key(x) === k ? f(x) : x)`: only the records whose key is `k`
      change, each into `f` of itself; order and length are kept. */
  function UpdateWhere<T, K(==)>(s: seq<T>, key: T -> K, k: K, f: T -> T): (r: seq<T>)
    ensures |r| == |s|
    ensures forall i :: 0 <= i < |s| ==> r[i] == if key(s[i]) == k then f(s[i]) else s[i]
    ensures (forall i :: 0 <= i < |s| ==> key(s[i]) != k) ==> r == s
  {
    if s == [] then []
    else
      var last := s[|s| - 1];
      UpdateWhere(s[..|s| - 1], key, k, f) + [if key(last) == k then f(last) else last]
  }

  /** `s.find(x => key(x) === k)`: the first record whose key is `k`, if any. */
  function FindWhere<T(==), K(==)>(s: seq<T>, key: T -> K, k: K): (r: Option<T>)
    ensures r.None? <==> forall x :: x in s ==> key(x) != k
    ensures r.Some? ==> exists i :: 0 <= i < |s| && s[i] == r.value && key(s[i]) == k
                                    && forall j :: 0 <= j < i ==> key(s[j]) != k
  {
    if s == [] then None
    else if key(s[0]) == k then
      Some(s[0])
    else
      var r := FindWhere(s[1..], key, k);
      assert s == [s[0]] + s[1..];
      if r.Some? then
        var i :| 0 <= i < |s[1..]| && s[1..][i] == r.value && key(s[1..][i]) == k
                 && forall j :: 0 <= j < i ==> key(s[1..][j]) != k;
        assert s[i + 1] == r.value && forall j :: 0 <= j < i + 1 ==> key(s[j]) != k;
        r
      else r
  }

  /** The keys of the records of `s`. */
  function Keys<T(==), K>(s: seq<T>, key: T -> K): set<K> {
    set x | x in s :: key(x)
  }

  /** No value occurs twice in `s`. */
  predicate Distinct<K(==)>(s: seq<K>) {
    forall i, j :: 0 <= i < j < |s| ==> s[i] != s[j]
  }
}
