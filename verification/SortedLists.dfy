/**
 Strictly sorted lists: the canonical form in which endpoints and egress marks are persisted.
 */
module SortedLists {
  ghost predicate StrictOrder<T(!new)>(less: (T, T) -> bool) {
    && (forall x :: !less(x, x))
    && (forall x, y :: less(x, y) || x == y || less(y, x))
    && (forall x, y, z :: less(x, y) && less(y, z) ==> less(x, z))
  }

  predicate StrictlySorted<T>(less: (T, T) -> bool, s: seq<T>) {
    forall i, j :: 0 <= i < j < |s| ==> less(s[i], s[j])
  }

  function Elements<T>(s: seq<T>): set<T> {
    set x | x in s
  }

  /** A strictly sorted list is determined by its elements. */
  lemma {:induction false} SortedUnique<T(!new)>(less: (T, T) -> bool, s: seq<T>, t: seq<T>)
    requires StrictOrder(less) && StrictlySorted(less, s) && StrictlySorted(less, t) && Elements(s) == Elements(t)
    ensures s == t
  {
    if s == [] {
      EmptyElements(t);
    } else {
      HeadAgrees(less, s, t);
      TailElements(less, s);
      TailElements(less, t);
      SortedUnique(less, s[1..], t[1..]);
      assert s == [s[0]] + s[1..] && t == [t[0]] + t[1..];
    }
  }

  lemma EmptyElements<T>(s: seq<T>)
    ensures Elements(s) == {} ==> s == []
  {
    if s != [] { assert s[0] in Elements(s); }
  }

  lemma HeadAgrees<T(!new)>(less: (T, T) -> bool, s: seq<T>, t: seq<T>)
    requires StrictOrder(less) && StrictlySorted(less, s) && StrictlySorted(less, t) && Elements(s) == Elements(t)
    requires s != []
    ensures t != [] && s[0] == t[0]
  {
    assert s[0] in Elements(t);
    var i :| 0 <= i < |t| && t[i] == s[0];
    assert t[0] in Elements(s);
    var j :| 0 <= j < |s| && s[j] == t[0];
  }

  lemma TailElements<T(!new)>(less: (T, T) -> bool, s: seq<T>)
    requires StrictOrder(less) && StrictlySorted(less, s) && s != []
    ensures Elements(s[1..]) == Elements(s) - {s[0]}
  {
    forall x ensures x in Elements(s[1..]) <==> x in Elements(s) - {s[0]} {
      assert s == [s[0]] + s[1..];
      if x in s[1..] {
        var i :| 0 <= i < |s[1..]| && s[1..][i] == x;
        assert less(s[0], s[i + 1]);
      }
    }
  }

  function Insert<T(==)>(less: (T, T) -> bool, s: seq<T>, x: T): seq<T> {
    if s == [] || less(x, s[0]) then [x] + s
    else if x == s[0] then s
    else [s[0]] + Insert(less, s[1..], x)
  }

  lemma {:induction false} InsertSorted<T(!new)>(less: (T, T) -> bool, s: seq<T>, x: T)
    requires StrictOrder(less) && StrictlySorted(less, s)
    ensures StrictlySorted(less, Insert(less, s, x))
    ensures Elements(Insert(less, s, x)) == Elements(s) + {x}
  {
    if s == [] || less(x, s[0]) {
      forall y | y in Elements(s) ensures less(x, y) {
        var j :| 0 <= j < |s| && s[j] == y;
        assert j > 0 ==> less(s[0], s[j]);
      }
      Prepend(less, x, s);
    } else if x == s[0] {
      assert x in Elements(s);
    } else {
      InsertSorted(less, s[1..], x);
      TailElements(less, s);
      var rest := Insert(less, s[1..], x);
      forall y | y in Elements(rest) ensures less(s[0], y) {
        if y != x {
          var i :| 0 <= i < |s[1..]| && s[1..][i] == y;
          assert less(s[0], s[i + 1]);
        }
      }
      Prepend(less, s[0], rest);
    }
  }

  lemma Prepend<T(!new)>(less: (T, T) -> bool, x: T, s: seq<T>)
    requires StrictlySorted(less, s) && forall y :: y in Elements(s) ==> less(x, y)
    ensures StrictlySorted(less, [x] + s) && Elements([x] + s) == {x} + Elements(s)
  {
    forall i, j | 0 <= i < j < |[x] + s| ensures less(([x] + s)[i], ([x] + s)[j]) {
      assert s[j - 1] in Elements(s);
      if i > 0 { assert less(s[i - 1], s[j - 1]); }
    }
  }

  /** The two passes of the normalizers: keep first occurrences, then sort. */
  method SortDistinct<T(!new, ==)>(less: (T, T) -> bool, raw: seq<T>) returns (r: seq<T>)
    requires StrictOrder(less)
    ensures StrictlySorted(less, r) && Elements(r) == Elements(raw)
  {
    var seen: set<T>, kept: seq<T> := {}, [];
    for i := 0 to |raw|
      invariant seen == Elements(kept) == Elements(raw[..i])
    {
      assert Elements(raw[..i + 1]) == Elements(raw[..i]) + {raw[i]};
      if raw[i] !in seen {
        assert Elements(kept + [raw[i]]) == Elements(kept) + {raw[i]};
        seen, kept := seen + {raw[i]}, kept + [raw[i]];
      }
    }
    assert raw[..|raw|] == raw;
    r := [];
    for i := 0 to |kept|
      invariant StrictlySorted(less, r) && Elements(r) == Elements(kept[..i])
    {
      InsertSorted(less, r, kept[i]);
      assert Elements(kept[..i + 1]) == Elements(kept[..i]) + {kept[i]};
      r := Insert(less, r, kept[i]);
    }
    assert kept[..|kept|] == kept;
  }

  /** Byte-wise order on strings. */
  predicate TextLess(a: string, b: string) {
    if b == [] then false
    else if a == [] then true
    else a[0] < b[0] || (a[0] == b[0] && TextLess(a[1..], b[1..]))
  }

  /** Up to `k` the texts agree, and there the first one ends or has the smaller character. */
  predicate LessAt(a: string, b: string, k: nat) {
    k <= |a| && k < |b| && a[..k] == b[..k] && (k == |a| || a[k] < b[k])
  }

  lemma {:induction false} TextLessIff(a: string, b: string)
    ensures TextLess(a, b) <==> exists k: nat :: LessAt(a, b, k)
  {
    if a == [] && b != [] { assert LessAt(a, b, 0); }
    if a != [] && b != [] {
      TextLessIff(a[1..], b[1..]);
      if a[0] < b[0] { assert LessAt(a, b, 0); }
      if a[0] == b[0] {
        if k: nat :| LessAt(a[1..], b[1..], k) {
          assert a[..k + 1] == [a[0]] + a[1..][..k] && b[..k + 1] == [b[0]] + b[1..][..k];
          assert LessAt(a, b, k + 1);
        }
      }
      if k: nat :| LessAt(a, b, k) {
        if k > 0 {
          assert a[0] == a[..k][0] && b[0] == b[..k][0];
          assert a[1..][..k - 1] == a[..k][1..] && b[1..][..k - 1] == b[..k][1..];
          assert LessAt(a[1..], b[1..], k - 1);
        }
      }
    }
  }

  lemma {:induction false} TextIrreflexive(a: string)
    ensures !TextLess(a, a)
  {
    if a != [] { TextIrreflexive(a[1..]); }
  }

  lemma {:induction false} TextTotal(a: string, b: string)
    ensures TextLess(a, b) || a == b || TextLess(b, a)
  {
    if a != [] && b != [] && a[0] == b[0] {
      TextTotal(a[1..], b[1..]);
      assert a == [a[0]] + a[1..] && b == [b[0]] + b[1..];
    }
  }

  lemma {:induction false} TextTransitive(a: string, b: string, c: string)
    requires TextLess(a, b) && TextLess(b, c)
    ensures TextLess(a, c)
  {
    if a != [] && a[0] == b[0] && b[0] == c[0] {
      TextTransitive(a[1..], b[1..], c[1..]);
    }
  }

  lemma TextOrder()
    ensures StrictOrder(TextLess)
  {
    forall a ensures !TextLess(a, a) { TextIrreflexive(a); }
    forall a, b ensures TextLess(a, b) || a == b || TextLess(b, a) { TextTotal(a, b); }
    forall a, b, c | TextLess(a, b) && TextLess(b, c) ensures TextLess(a, c) { TextTransitive(a, b, c); }
  }
}
