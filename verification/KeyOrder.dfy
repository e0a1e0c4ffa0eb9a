/** Keys are byte strings under the lexicographic order; ranges are half open. */
module KeyOrder {
  import opened RaftTypes
  import opened ByteCodec

  type Key = Bytes

  predicate Less(a: Key, b: Key) {
    b != [] && (a == [] || a[0] < b[0] || (a[0] == b[0] && Less(a[1..], b[1..])))
  }

  predicate AtMost(a: Key, b: Key) {
    a == b || Less(a, b)
  }

  lemma {:induction false} LessIrreflexive(a: Key)
    ensures !Less(a, a)
  {
    if a != [] { LessIrreflexive(a[1..]); }
  }

  lemma {:induction false} LessTransitive(a: Key, b: Key, c: Key)
    requires Less(a, b) && Less(b, c)
    ensures Less(a, c)
  {
    if a != [] && a[0] == b[0] && b[0] == c[0] {
      LessTransitive(a[1..], b[1..], c[1..]);
    }
  }

  lemma {:induction false} LessTotal(a: Key, b: Key)
    ensures Less(a, b) || a == b || Less(b, a)
  {
    if a != [] && b != [] && a[0] == b[0] {
      LessTotal(a[1..], b[1..]);
      assert a == [a[0]] + a[1..] && b == [b[0]] + b[1..];
    }
  }

  lemma AtMostTransitive(a: Key, b: Key, c: Key)
    requires AtMost(a, b) && AtMost(b, c)
    ensures AtMost(a, c)
  {
    if a != b && b != c { LessTransitive(a, b, c); }
  }

  // ---- Listing a set in order ----------------------------------------------

  predicate IsLeast(s: set<Key>, k: Key) {
    k in s && forall j :: j in s ==> AtMost(k, j)
  }

  lemma {:induction false} LeastExists(s: set<Key>)
    requires s != {}
    ensures exists k :: k in s && IsLeast(s, k)
    decreases |s|
  {
    var k :| k in s;
    var rest := s - {k};
    if rest == {} {
      assert s == {k};
      assert IsLeast(s, k);
    } else {
      LeastExists(rest);
      var m :| m in rest && IsLeast(rest, m);
      LessTotal(k, m);
      if Less(m, k) {
        assert IsLeast(s, m) by {
          assert forall j :: j in s ==> j == k || j in rest;
        }
      } else {
        forall j | j in rest ensures AtMost(k, j) {
          AtMostTransitive(k, m, j);
        }
        assert IsLeast(s, k);
      }
    }
  }

  lemma LeastIsUnique(s: set<Key>)
    ensures forall a, b :: IsLeast(s, a) && IsLeast(s, b) ==> a == b
  {
    forall a, b | IsLeast(s, a) && IsLeast(s, b) ensures a == b {
      if Less(a, b) && Less(b, a) {
        LessTransitive(a, b, a);
        LessIrreflexive(a);
      }
    }
  }

  predicate Ascending(keys: seq<Key>) {
    forall i, j :: 0 <= i < j < |keys| ==> Less(keys[i], keys[j])
  }

  /** `keys` lists `s` in ascending order, as a walk over an ordered map does. */
  ghost predicate Lists(keys: seq<Key>, s: set<Key>) {
    Ascending(keys) && forall k :: k in keys <==> k in s
  }

  lemma ConsLists(k: Key, rest: seq<Key>, s: set<Key>)
    requires IsLeast(s, k) && Lists(rest, s - {k})
    ensures Lists([k] + rest, s)
  {
    forall i | 0 <= i < |rest| ensures Less(k, rest[i]) {
      assert rest[i] in rest;
    }
  }

  function Sorted(s: set<Key>): (keys: seq<Key>)
    ensures Lists(keys, s)
    decreases |s|
  {
    if s == {} then []
    else
      LeastExists(s);
      LeastIsUnique(s);
      var k :| k in s && IsLeast(s, k);
      var rest := Sorted(s - {k});
      ConsLists(k, rest, s);
      [k] + rest
  }

  // ---- Ranges --------------------------------------------------------------

  datatype KeyRange = KeyRange(start: Key, end: Key)

  predicate InRange(r: KeyRange, k: Key) {
    AtMost(r.start, k) && Less(k, r.end)
  }

  predicate Overlap(a: KeyRange, b: KeyRange) {
    Less(a.start, b.end) && Less(b.start, a.end)
  }

  /** Two proper ranges overlap exactly when some key is in both. */
  lemma OverlapIff(a: KeyRange, b: KeyRange)
    requires Less(a.start, a.end) && Less(b.start, b.end)
    ensures Overlap(a, b) <==> exists k :: InRange(a, k) && InRange(b, k)
  {
    if Overlap(a, b) {
      LessTotal(a.start, b.start);
      if Less(a.start, b.start) {
        assert InRange(a, b.start) && InRange(b, b.start);
      } else {
        assert InRange(a, a.start) && InRange(b, a.start);
      }
    }
    if k :| InRange(a, k) && InRange(b, k) {
      if a.start != k { LessTransitive(a.start, k, b.end); }
      if b.start != k { LessTransitive(b.start, k, a.end); }
    }
  }

  // ---- Prefixes ------------------------------------------------------------

  predicate HasPrefix(k: Key, prefix: Key) {
    prefix <= k
  }

  /** The least key above every key with the prefix; None if there is no such key. */
  function PrefixEnd(prefix: Key): (end: Option<Key>) {
    if prefix == [] then None
    else if prefix[|prefix| - 1] != 255 then Some(prefix[..|prefix| - 1] + [prefix[|prefix| - 1] + 1])
    else PrefixEnd(prefix[..|prefix| - 1])
  }

  /** The range from a prefix to its end holds exactly the keys with the prefix. */
  lemma {:induction false} PrefixRangeExact(prefix: Key, k: Key)
    ensures var end := PrefixEnd(prefix);
      HasPrefix(k, prefix) <==> AtMost(prefix, k) && (end.Some? ==> Less(k, end.value))
    decreases |prefix|
  {
    if prefix == [] {
    } else if k == [] {
    } else {
      PrefixEndCons(prefix);
      PrefixRangeExact(prefix[1..], k[1..]);
      assert prefix == [prefix[0]] + prefix[1..] && k == [k[0]] + k[1..];
      assert prefix <= k <==> prefix[0] == k[0] && prefix[1..] <= k[1..];
    }
  }

  /** The end of a prefix, read from its first byte. */
  lemma {:induction false} PrefixEndCons(prefix: Key)
    requires prefix != []
    ensures var rest := PrefixEnd(prefix[1..]);
      PrefixEnd(prefix) ==
        if rest.Some? then Some([prefix[0]] + rest.value)
        else if prefix[0] != 255 then Some([prefix[0] + 1])
        else None
    decreases |prefix|
  {
    var n := |prefix|;
    if n == 1 {
      assert prefix[1..] == [] && prefix[..0] == [];
      assert prefix[0] != 255 ==> [] + [prefix[0] + 1] == [prefix[0] + 1];
    } else if prefix[n - 1] == 255 {
      var front := prefix[..n - 1];
      PrefixEndCons(front);
      assert prefix[1..][..n - 2] == front[1..];
    } else {
      assert prefix[1..][..n - 2] == prefix[1..n - 1];
      assert prefix[1..][n - 2] == prefix[n - 1];
      var last := [prefix[n - 1] + 1];
      assert prefix[..n - 1] + last == [prefix[0]] + (prefix[1..n - 1] + last);
    }
  }

  /** `prefix_range_end`: walks back over the bytes, raises the first that can be raised and
      cuts the rest off. */
  method PrefixRangeEnd(prefix: Key) returns (end: Option<Key>)
    ensures end == PrefixEnd(prefix)
  {
    var size := |prefix|;
    assert prefix[..size] == prefix;
    while size > 0
      invariant 0 <= size <= |prefix|
      invariant PrefixEnd(prefix) == PrefixEnd(prefix[..size])
    {
      ghost var front := prefix[..size];
      assert front[..size - 1] == prefix[..size - 1];
      if prefix[size - 1] != 255 {
        return Some(prefix[..size - 1] + [prefix[size - 1] + 1]);
      }
      size := size - 1;
    }
    return None;
  }
}
