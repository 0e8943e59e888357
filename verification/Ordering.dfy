/** Byte-string order and sorting by a strict order. */
module Ordering {
  import opened Prelude

  /** bytes.Compare(a, b) < 0. */
  predicate BytesLess(a: Blob, b: Blob) {
    if b == [] then false
    else if a == [] then true
    else a[0] < b[0] || (a[0] == b[0] && BytesLess(a[1..], b[1..]))
  }

  lemma {:induction false} BytesLessAsymmetric(a: Blob, b: Blob)
    ensures !(BytesLess(a, b) && BytesLess(b, a))
    decreases |a|
  {
    if a != [] && b != [] { BytesLessAsymmetric(a[1..], b[1..]); }
  }

  lemma {:induction false} BytesLessTransitive(a: Blob, b: Blob, c: Blob)
    requires BytesLess(a, b) && BytesLess(b, c)
    ensures BytesLess(a, c)
    decreases |a|
  {
    if a != [] && a[0] == b[0] && b[0] == c[0] { BytesLessTransitive(a[1..], b[1..], c[1..]); }
  }

  lemma {:induction false} BytesLessTotal(a: Blob, b: Blob)
    requires a != b
    ensures BytesLess(a, b) || BytesLess(b, a)
    decreases |a|
  {
    if a != [] && b != [] && a[0] == b[0] {
      assert a == [a[0]] + a[1..] && b == [b[0]] + b[1..];
      BytesLessTotal(a[1..], b[1..]);
    }
  }

  /** Byte by byte: a is a proper prefix of b, or smaller at the first byte in which they differ. */
  ghost predicate ComesFirst(a: Blob, b: Blob) {
    exists k: nat :: k <= |a| && k < |b| && a[..k] == b[..k] && (k == |a| || a[k] < b[k])
  }

  lemma {:induction false} BytesLessIff(a: Blob, b: Blob)
    ensures BytesLess(a, b) <==> ComesFirst(a, b)
    decreases |a|
  {
    if b == [] {
    } else if a == [] || a[0] < b[0] {
      assert a[..0] == b[..0];
    } else {
      BytesLessIff(a[1..], b[1..]);
      FirstAfterHead(a, b);
    }
  }

  lemma FirstAfterHead(a: Blob, b: Blob)
    requires a != [] && b != [] && a[0] >= b[0]
    ensures ComesFirst(a, b) <==> a[0] == b[0] && ComesFirst(a[1..], b[1..])
  {
    var x, y := a[1..], b[1..];
    if a[0] == b[0] && ComesFirst(x, y) {
      var k: nat :| k <= |x| && k < |y| && x[..k] == y[..k] && (k == |x| || x[k] < y[k]);
      assert a[..k + 1] == [a[0]] + x[..k] && b[..k + 1] == [b[0]] + y[..k];
      assert k + 1 == |a| || a[k + 1] < b[k + 1];
    } else if ComesFirst(a, b) {
      var k: nat :| k <= |a| && k < |b| && a[..k] == b[..k] && (k == |a| || a[k] < b[k]);
      HeadsAgree(a, b, k);
      assert false;
    }
  }

  lemma HeadsAgree(a: Blob, b: Blob, k: nat)
    requires a != [] && b != [] && a[0] >= b[0]
    requires k <= |a| && k < |b| && a[..k] == b[..k] && (k == |a| || a[k] < b[k])
    ensures a[0] == b[0] && ComesFirst(a[1..], b[1..])
  {
    assert k > 0 && a[..k][0] == b[..k][0];
    assert a[1..][..k - 1] == a[..k][1..] && b[1..][..k - 1] == b[..k][1..];
    assert k - 1 == |a[1..]| || a[1..][k - 1] < b[1..][k - 1];
  }

  // ---------- sorting ----------

  predicate Sorted<T>(less: (T, T) -> bool, s: seq<T>) {
    forall i, j :: 0 <= i < j < |s| ==> less(s[i], s[j])
  }

  function Insert<T>(less: (T, T) -> bool, x: T, s: seq<T>): seq<T> {
    if s == [] || less(x, s[0]) then [x] + s else [s[0]] + Insert(less, x, s[1..])
  }

  function Sort<T>(less: (T, T) -> bool, s: seq<T>): seq<T> {
    if s == [] then [] else Insert(less, s[0], Sort(less, s[1..]))
  }

  lemma {:induction false} InsertPermutes<T>(less: (T, T) -> bool, x: T, s: seq<T>)
    ensures multiset(Insert(less, x, s)) == multiset{x} + multiset(s)
  {
    if s != [] {
      assert s == [s[0]] + s[1..];
      InsertPermutes(less, x, s[1..]);
    }
  }

  lemma {:induction false} SortPermutes<T>(less: (T, T) -> bool, s: seq<T>)
    ensures multiset(Sort(less, s)) == multiset(s)
  {
    if s != [] {
      assert s == [s[0]] + s[1..];
      SortPermutes(less, s[1..]);
      InsertPermutes(less, s[0], Sort(less, s[1..]));
    }
  }

  /** Any two different elements of the collection are ordered, and the order is transitive on it. */
  ghost predicate OrderOn<T>(less: (T, T) -> bool, m: multiset<T>) {
    && (forall x, y :: x in m && y in m && x != y ==> less(x, y) || less(y, x))
    && (forall x, y, z :: x in m && y in m && z in m && less(x, y) && less(y, z) ==> less(x, z))
    && (forall x, y :: x in m && y in m ==> !(less(x, y) && less(y, x)))
  }

  ghost predicate Distinct<T>(m: multiset<T>) { forall x :: x in m ==> m[x] == 1 }

  lemma HeadBelow<T>(less: (T, T) -> bool, h: T, x: T, s: seq<T>)
    requires less(h, x) && (forall k :: 0 <= k < |s| ==> less(h, s[k])) && Sorted(less, Insert(less, x, s))
    ensures Sorted(less, [h] + Insert(less, x, s))
  {
    InsertPermutes(less, x, s);
    var t := Insert(less, x, s);
    forall j | 0 <= j < |t| ensures less(h, t[j]) {
      assert t[j] in multiset(t);
      if t[j] != x { assert t[j] in multiset(s); var k :| 0 <= k < |s| && s[k] == t[j]; }
    }
  }

  lemma {:induction false} InsertSorted<T>(less: (T, T) -> bool, x: T, s: seq<T>, m: multiset<T>)
    requires Sorted(less, s) && OrderOn(less, m) && multiset{x} + multiset(s) <= m && Distinct(m)
    ensures Sorted(less, Insert(less, x, s))
  {
    if s != [] {
      assert s == [s[0]] + s[1..];
      assert s[0] in multiset(s);
      if less(x, s[0]) {
        forall j | 0 <= j < |s| ensures less(x, s[j]) { assert s[j] in multiset(s); }
      } else {
        InsertSorted(less, x, s[1..], m);
        assert x != s[0] by { assert (multiset{x} + multiset(s))[x] <= m[x]; }
        HeadBelow(less, s[0], x, s[1..]);
      }
    }
  }

  lemma {:induction false} SortSorts<T>(less: (T, T) -> bool, s: seq<T>, m: multiset<T>)
    requires OrderOn(less, m) && multiset(s) <= m && Distinct(m)
    ensures Sorted(less, Sort(less, s))
  {
    if s != [] {
      assert s == [s[0]] + s[1..];
      SortSorts(less, s[1..], m);
      SortPermutes(less, s[1..]);
      InsertSorted(less, s[0], Sort(less, s[1..]), m);
    }
  }

  ghost predicate AsymmetricOn<T>(less: (T, T) -> bool, m: multiset<T>) {
    forall x, y :: x in m && y in m ==> !(less(x, y) && less(y, x))
  }

  lemma SameHead<T>(less: (T, T) -> bool, s: seq<T>, t: seq<T>, m: multiset<T>)
    requires Sorted(less, s) && Sorted(less, t) && multiset(s) == multiset(t) && s != []
    requires AsymmetricOn(less, m) && multiset(s) <= m
    ensures t != [] && s[0] == t[0]
  {
    assert s[0] in multiset(s) && s[0] in m;
    assert s[0] in multiset(t);
    assert t[0] in multiset(s);
    var k :| 0 <= k < |t| && t[k] == s[0];
    var n :| 0 <= n < |s| && s[n] == t[0];
  }

  lemma Tail<T>(less: (T, T) -> bool, s: seq<T>)
    requires s != [] && Sorted(less, s)
    ensures multiset(s[1..]) == multiset(s) - multiset{s[0]} && Sorted(less, s[1..])
  {
    assert s == [s[0]] + s[1..];
    var t := s[1..];
    forall i, j | 0 <= i < j < |t| ensures less(t[i], t[j]) { assert t[i] == s[i + 1] && t[j] == s[j + 1]; }
  }

  /** Two sorted arrangements of one collection start alike and go on as arrangements of the rest. */
  lemma SameTails<T>(less: (T, T) -> bool, s: seq<T>, t: seq<T>, m: multiset<T>)
    requires Sorted(less, s) && Sorted(less, t) && multiset(s) == multiset(t) && s != []
    requires AsymmetricOn(less, m) && multiset(s) <= m
    ensures t != [] && s[0] == t[0] && Sorted(less, s[1..]) && Sorted(less, t[1..])
    ensures multiset(s[1..]) == multiset(t[1..]) <= m
  {
    SameHead(less, s, t, m);
    Tail(less, s);
    Tail(less, t);
  }

  lemma HeadAndTail<T>(s: seq<T>, t: seq<T>)
    requires s != [] && t != [] && s[0] == t[0] && s[1..] == t[1..]
    ensures s == t
  {
    assert s == [s[0]] + s[1..] && t == [t[0]] + t[1..];
  }

  /** A collection has only one sorted arrangement. */
  lemma {:induction false} SortedUnique<T>(less: (T, T) -> bool, s: seq<T>, t: seq<T>, m: multiset<T>)
    requires Sorted(less, s) && Sorted(less, t) && multiset(s) == multiset(t)
    requires AsymmetricOn(less, m) && multiset(s) <= m
    ensures s == t
    decreases |s|
  {
    if s == [] {
      assert |multiset(t)| == |t|;
    } else {
      SameTails(less, s, t, m);
      SortedUnique(less, s[1..], t[1..], m);
      HeadAndTail(s, t);
    }
  }

  /** Sorting forgets the order the elements came in. */
  lemma SortForgetsOrder<T>(less: (T, T) -> bool, s: seq<T>, t: seq<T>)
    requires multiset(s) == multiset(t) && OrderOn(less, multiset(s)) && Distinct(multiset(s))
    ensures Sort(less, s) == Sort(less, t)
  {
    SortSorts(less, s, multiset(s));
    SortSorts(less, t, multiset(s));
    SortPermutes(less, s);
    SortPermutes(less, t);
    SortedUnique(less, Sort(less, s), Sort(less, t), multiset(s));
  }

  // ---------- distinct keys ----------

  predicate KeysDistinct<T, K(==)>(key: T -> K, s: seq<T>) {
    forall i, j :: 0 <= i < j < |s| ==> key(s[i]) != key(s[j])
  }

  ghost predicate KeyedOn<T, K>(key: T -> K, m: multiset<T>) {
    Distinct(m) && forall x, y :: x in m && y in m && x != y ==> key(x) != key(y)
  }

  ghost predicate Fresh<T, K>(key: T -> K, c: T, m: multiset<T>) { forall x :: x in m ==> key(x) != key(c) }

  lemma KeyedAdd<T, K>(key: T -> K, c: T, m: multiset<T>)
    ensures KeyedOn(key, multiset{c} + m) <==> KeyedOn(key, m) && Fresh(key, c, m)
  {
    var n := multiset{c} + m;
    if KeyedOn(key, n) {
      forall x | x in m ensures m[x] == 1 && x in n && key(x) != key(c) {
        assert x in n && n[x] == m[x] + (if x == c then 1 else 0);
      }
    }
    if KeyedOn(key, m) && Fresh(key, c, m) {
      forall x | x in n ensures n[x] == 1 { assert n[x] == m[x] + (if x == c then 1 else 0); }
      forall x, y | x in n && y in n && x != y ensures key(x) != key(y) {
        assert x == c || x in m;
        assert y == c || y in m;
      }
    }
  }

  lemma KeysDistinctHead<T, K>(key: T -> K, s: seq<T>)
    requires s != []
    ensures KeysDistinct(key, s) <==> KeysDistinct(key, s[1..]) && Fresh(key, s[0], multiset(s[1..]))
  {
    var r := s[1..];
    forall j | 0 <= j < |r| ensures r[j] == s[j + 1] && r[j] in multiset(r) { }
    if KeysDistinct(key, s) {
      forall x | x in multiset(r) ensures key(x) != key(s[0]) {
        var j :| 0 <= j < |r| && r[j] == x;
        assert s[j + 1] == x;
      }
    }
    if KeysDistinct(key, r) && Fresh(key, s[0], multiset(r)) {
      forall i, j | 0 <= i < j < |s| ensures key(s[i]) != key(s[j]) {
        assert s[j] == r[j - 1];
        if i > 0 { assert s[i] == r[i - 1]; }
      }
    }
  }

  /** Whether keys repeat does not depend on the arrangement. */
  lemma {:induction false} KeysDistinctIff<T, K>(key: T -> K, s: seq<T>)
    ensures KeysDistinct(key, s) <==> KeyedOn(key, multiset(s))
  {
    if s != [] {
      assert s == [s[0]] + s[1..];
      KeysDistinctIff(key, s[1..]);
      KeyedAdd(key, s[0], multiset(s[1..]));
      KeysDistinctHead(key, s);
    }
  }

  /** A strictly sorted sequence is determined by its elements. */
  lemma SortedByElements<T>(less: (T, T) -> bool, s: seq<T>, t: seq<T>)
    requires Sorted(less, s) && Sorted(less, t) && (forall x :: x in s <==> x in t)
    requires forall x, y :: x in s && y in s ==> !(less(x, y) && less(y, x))
    ensures s == t
  {
    SortedDistinct(less, s);
    SortedDistinct(less, t);
    SameCounts(s, t);
    SortedUnique(less, s, t, multiset(s));
  }

  lemma SortedDistinct<T>(less: (T, T) -> bool, s: seq<T>)
    requires Sorted(less, s) && forall x, y :: x in s && y in s ==> !(less(x, y) && less(y, x))
    ensures Distinct(multiset(s))
  {
    assert KeysDistinct(x => x, s);
    KeysDistinctIff(x => x, s);
  }

  lemma SameCounts<T>(s: seq<T>, t: seq<T>)
    requires Distinct(multiset(s)) && Distinct(multiset(t)) && (forall x :: x in s <==> x in t)
    ensures multiset(s) == multiset(t)
  {
    forall x ensures multiset(s)[x] == multiset(t)[x] {
      assert x in multiset(s) <==> x in s;
      assert x in multiset(t) <==> x in t;
    }
  }
}
