/** Python's `sorted`: a stable sort by a string key, compared the way Python
    compares strings (lexicographically by code point). */
module Sorting {

  /** Python's `a <= b` on strings. */
  predicate LexLe(a: string, b: string)
  {
    a == [] || (b != [] && (a[0] < b[0] || (a[0] == b[0] && LexLe(a[1..], b[1..]))))
  }

  lemma {:induction false} LexLeReflexive(a: string)
    ensures LexLe(a, a)
  {
    if a != [] {
      LexLeReflexive(a[1..]);
    }
  }

  lemma {:induction false} LexLeTotal(a: string, b: string)
    ensures LexLe(a, b) || LexLe(b, a)
  {
    if a != [] && b != [] && a[0] == b[0] {
      LexLeTotal(a[1..], b[1..]);
    }
  }

  lemma {:induction false} LexLeTransitive(a: string, b: string, c: string)
    requires LexLe(a, b) && LexLe(b, c)
    ensures LexLe(a, c)
  {
    if a != [] && b != [] && c != [] && a[0] == b[0] == c[0] {
      LexLeTransitive(a[1..], b[1..], c[1..]);
    }
  }

  lemma {:induction false} LexLeAntisymmetric(a: string, b: string)
    requires LexLe(a, b) && LexLe(b, a)
    ensures a == b
  {
    if a != [] && b != [] {
      LexLeAntisymmetric(a[1..], b[1..]);
      assert a == [a[0]] + a[1..];
      assert b == [b[0]] + b[1..];
    }
  }

  /** The keys of `s` are in ascending order. */
  ghost predicate SortedBy<T>(s: seq<T>, key: T -> string)
  {
    forall i, j :: 0 <= i < j < |s| ==> LexLe(key(s[i]), key(s[j]))
  }

  /** Puts `x` in front of the first element whose key is not smaller. */
  function Insert<T>(x: T, s: seq<T>, key: T -> string): seq<T>
  {
    if s == [] then [x]
    else if LexLe(key(x), key(s[0])) then [x] + s
    else [s[0]] + Insert(x, s[1..], key)
  }

  lemma {:induction false} InsertMultiset<T>(x: T, s: seq<T>, key: T -> string)
    ensures multiset(Insert(x, s, key)) == multiset(s) + multiset{x}
  {
    if s != [] && !LexLe(key(x), key(s[0])) {
      InsertMultiset(x, s[1..], key);
      assert s == [s[0]] + s[1..];
    }
  }

  lemma {:induction false} InsertSorted<T>(x: T, s: seq<T>, key: T -> string)
    requires SortedBy(s, key)
    ensures SortedBy(Insert(x, s, key), key)
  {
    if s == [] {
    } else if LexLe(key(x), key(s[0])) {
      forall j | 0 < j < |s| ensures LexLe(key(x), key(s[j])) {
        LexLeTransitive(key(x), key(s[0]), key(s[j]));
      }
    } else {
      var tail := Insert(x, s[1..], key);
      InsertSorted(x, s[1..], key);
      InsertMultiset(x, s[1..], key);
      LexLeTotal(key(x), key(s[0]));
      forall j | 0 <= j < |tail| ensures LexLe(key(s[0]), key(tail[j])) {
        assert tail[j] in multiset(tail);
        if tail[j] != x {
          assert tail[j] in multiset(s[1..]);
          var m :| 0 <= m < |s[1..]| && s[1..][m] == tail[j];
          assert s[m + 1] == tail[j];
        }
      }
    }
  }

  /** `sorted(s, key=key)`: an insertion sort, which keeps equal keys in their
      original order like Python's sort. */
  function SortBy<T>(s: seq<T>, key: T -> string): seq<T>
  {
    if s == [] then [] else Insert(s[0], SortBy(s[1..], key), key)
  }

  /** The sort rearranges its input into ascending order of keys. */
  lemma {:induction false} SortBySpec<T>(s: seq<T>, key: T -> string)
    ensures multiset(SortBy(s, key)) == multiset(s)
    ensures SortedBy(SortBy(s, key), key)
  {
    if s != [] {
      var tail := SortBy(s[1..], key);
      SortBySpec(s[1..], key);
      InsertSorted(s[0], tail, key);
      InsertMultiset(s[0], tail, key);
      assert s == [s[0]] + s[1..];
    }
  }

  /** The elements of `s` whose key is `k`, in order. */
  function Filter<T>(s: seq<T>, key: T -> string, k: string): seq<T>
  {
    if s == [] then []
    else (if key(s[0]) == k then [s[0]] else []) + Filter(s[1..], key, k)
  }

  lemma {:induction false} InsertFilter<T>(x: T, s: seq<T>, key: T -> string, k: string)
    ensures Filter(Insert(x, s, key), key, k) == Filter([x] + s, key, k)
  {
    if s != [] && !LexLe(key(x), key(s[0])) {
      InsertFilter(x, s[1..], key, k);
      LexLeReflexive(key(x));
      assert ([s[0]] + Insert(x, s[1..], key))[1..] == Insert(x, s[1..], key);
      assert ([x] + s[1..])[1..] == s[1..];
      assert ([x] + s)[1..] == s;
      assert s[1..] == s[1..];
    }
  }

  /** The sort is stable: elements with equal keys keep their relative order. */
  lemma {:induction false} SortByStable<T>(s: seq<T>, key: T -> string, k: string)
    ensures Filter(SortBy(s, key), key, k) == Filter(s, key, k)
  {
    if s != [] {
      SortByStable(s[1..], key, k);
      var tail := SortBy(s[1..], key);
      InsertFilter(s[0], tail, key, k);
      assert ([s[0]] + tail)[1..] == tail;
    }
  }

  /** A string is its own sort key. */
  function Identity(s: string): string
  {
    s
  }

  /** `sorted(rows)` for a list of strings. */
  function SortStrings(rows: seq<string>): seq<string>
  {
    SortBy(rows, Identity)
  }

  /** `sorted(rows)` is a rearrangement of `rows` in ascending order. */
  lemma SortStringsSpec(rows: seq<string>)
    ensures multiset(SortStrings(rows)) == multiset(rows)
    ensures SortedBy(SortStrings(rows), Identity)
  {
    SortBySpec(rows, Identity);
  }

  lemma SortedTail<T>(s: seq<T>, key: T -> string)
    requires s != [] && SortedBy(s, key)
    ensures SortedBy(s[1..], key)
  {
    forall i, j | 0 <= i < j < |s[1..]| ensures LexLe(key(s[1..][i]), key(s[1..][j])) {
      assert s[1..][i] == s[i + 1] && s[1..][j] == s[j + 1];
    }
  }

  lemma SortedHeadsEqual(a: seq<string>, b: seq<string>)
    requires a != [] && b != []
    requires multiset(a) == multiset(b)
    requires SortedBy(a, Identity) && SortedBy(b, Identity)
    ensures a[0] == b[0]
  {
    assert a[0] in multiset(b) && b[0] in multiset(a);
    var i :| 0 <= i < |b| && b[i] == a[0];
    var j :| 0 <= j < |a| && a[j] == b[0];
    LexLeReflexive(a[0]);
    LexLeReflexive(b[0]);
    assert LexLe(Identity(b[0]), Identity(b[i]));
    assert LexLe(Identity(a[0]), Identity(a[j]));
    LexLeAntisymmetric(a[0], b[0]);
  }

  /** Ascending order and the multiset of elements fix a list of strings, so
      any correct sort of `rows` produces `SortStrings(rows)`. */
  lemma {:induction false} SortedStringsUnique(a: seq<string>, b: seq<string>)
    requires multiset(a) == multiset(b)
    requires SortedBy(a, Identity) && SortedBy(b, Identity)
    ensures a == b
  {
    assert |a| == |multiset(a)| == |multiset(b)| == |b|;
    if a != [] {
      SortedHeadsEqual(a, b);
      assert a == [a[0]] + a[1..] && b == [b[0]] + b[1..];
      assert multiset(a[1..]) == multiset(a) - multiset{a[0]};
      assert multiset(b[1..]) == multiset(b) - multiset{b[0]};
      SortedTail(a, Identity);
      SortedTail(b, Identity);
      SortedStringsUnique(a[1..], b[1..]);
    }
  }

  /** Distinct keys within a sequence. */
  ghost predicate DistinctKeys<T>(s: seq<T>, key: T -> string)
  {
    forall i, j :: 0 <= i < j < |s| ==> key(s[i]) != key(s[j])
  }

  lemma SortedDistinctHeads<T>(a: seq<T>, b: seq<T>, key: T -> string)
    requires a != [] && b != [] && DistinctKeys(a, key)
    requires multiset(a) == multiset(b)
    requires SortedBy(a, key) && SortedBy(b, key)
    ensures a[0] == b[0]
  {
    assert a[0] in multiset(b) && b[0] in multiset(a);
    var i :| 0 <= i < |b| && b[i] == a[0];
    var j :| 0 <= j < |a| && a[j] == b[0];
    LexLeReflexive(key(a[0]));
    LexLeReflexive(key(b[0]));
    assert LexLe(key(b[0]), key(b[i]));
    assert LexLe(key(a[0]), key(a[j]));
    LexLeAntisymmetric(key(a[0]), key(b[0]));
  }

  lemma DistinctTail<T>(a: seq<T>, key: T -> string)
    requires a != [] && DistinctKeys(a, key)
    ensures DistinctKeys(a[1..], key)
  {
    forall i, j | 0 <= i < j < |a[1..]| ensures key(a[1..][i]) != key(a[1..][j]) {
      assert a[1..][i] == a[i + 1] && a[1..][j] == a[j + 1];
    }
  }

  /** Ascending order and the multiset of elements fix a sequence whose keys
      are distinct. */
  lemma {:induction false} SortedDistinctUnique<T>(a: seq<T>, b: seq<T>, key: T -> string)
    requires DistinctKeys(a, key)
    requires multiset(a) == multiset(b)
    requires SortedBy(a, key) && SortedBy(b, key)
    ensures a == b
  {
    assert |a| == |multiset(a)| == |multiset(b)| == |b|;
    if a != [] {
      SortedDistinctHeads(a, b, key);
      assert a == [a[0]] + a[1..] && b == [b[0]] + b[1..];
      assert multiset(a[1..]) == multiset(a) - multiset{a[0]};
      assert multiset(b[1..]) == multiset(b) - multiset{b[0]};
      SortedTail(a, key);
      SortedTail(b, key);
      DistinctTail(a, key);
      SortedDistinctUnique(a[1..], b[1..], key);
    }
  }
}
