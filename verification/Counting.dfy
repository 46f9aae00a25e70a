/**
 Selecting from lists and counting what was selected.
 */
module Counting {
  function Filter<T>(s: seq<T>, p: T -> bool): seq<T> {
    if s == [] then [] else Filter(s[..|s| - 1], p) + (if p(s[|s| - 1]) then [s[|s| - 1]] else [])
  }

  function Mapped<T, E>(s: seq<T>, f: T -> E): seq<E> {
    seq(|s|, i requires 0 <= i < |s| => f(s[i]))
  }

  function Count<T>(s: seq<T>, p: T -> bool): nat {
    |Filter(s, p)|
  }

  function Both<T>(p: T -> bool, q: T -> bool): T -> bool {
    x => p(x) && q(x)
  }

  function Via<T, E>(f: T -> E, q: E -> bool): T -> bool {
    x => q(f(x))
  }

  function On<T>(target: T -> string, t: string): T -> bool {
    x => target(x) == t
  }

  function Within<T>(target: T -> string, ts: seq<string>): T -> bool {
    x => target(x) in ts
  }

  predicate NoDuplicates<T(==)>(s: seq<T>) {
    forall i, j :: 0 <= i < j < |s| ==> s[i] != s[j]
  }

  lemma {:induction false} FilterAppend<T>(a: seq<T>, b: seq<T>, p: T -> bool)
    ensures Filter(a + b, p) == Filter(a, p) + Filter(b, p)
  {
    if b == [] {
      assert a + b == a;
    } else {
      var n := |b| - 1;
      assert (a + b)[..|a| + n] == a + b[..n] && (a + b)[|a| + n] == b[n];
      FilterAppend(a, b[..n], p);
    }
  }

  lemma MappedAt<T, E>(s: seq<T>, f: T -> E)
    ensures |Mapped(s, f)| == |s| && forall i :: 0 <= i < |s| ==> Mapped(s, f)[i] == f(s[i])
  {
  }

  lemma FilterOne<T>(x: T, p: T -> bool)
    ensures Filter([x], p) == if p(x) then [x] else []
  {
    assert [x][..0] == [];
  }

  lemma MappedAppend<T, E>(a: seq<T>, b: seq<T>, f: T -> E)
    ensures Mapped(a + b, f) == Mapped(a, f) + Mapped(b, f)
  {
  }

  lemma {:induction false} FilterMember<T>(s: seq<T>, p: T -> bool, x: T)
    ensures x in Filter(s, p) <==> x in s && p(x)
  {
    if s != [] {
      var n := |s| - 1;
      assert s == s[..n] + [s[n]];
      FilterMember(s[..n], p, x);
    }
  }

  /** Something is counted exactly when something qualifies. */
  lemma CountSome<T>(s: seq<T>, p: T -> bool)
    ensures Count(s, p) > 0 <==> exists x :: x in s && p(x)
  {
    if Count(s, p) > 0 {
      FilterMember(s, p, Filter(s, p)[0]);
    }
    if x :| x in s && p(x) {
      FilterMember(s, p, x);
    }
  }

  lemma CountAppend<T>(a: seq<T>, b: seq<T>, p: T -> bool)
    ensures Count(a + b, p) == Count(a, p) + Count(b, p)
  {
    FilterAppend(a, b, p);
  }

  lemma {:induction false} CountMore<T>(s: seq<T>, p: T -> bool, q: T -> bool)
    requires forall x :: x in s && p(x) ==> q(x)
    ensures Count(s, p) <= Count(s, q)
  {
    if s != [] { CountMore(s[..|s| - 1], p, q); }
  }

  /** What either of two exclusive tests selects is selected by one of them. */
  lemma {:induction false} CountEither<T>(s: seq<T>, p: T -> bool, q: T -> bool, r: T -> bool)
    requires forall x :: x in s ==> (r(x) <==> p(x) || q(x)) && !(p(x) && q(x))
    ensures Count(s, r) == Count(s, p) + Count(s, q)
  {
    if s != [] { CountEither(s[..|s| - 1], p, q, r); }
  }

  lemma {:induction false} CountFiltered<T>(s: seq<T>, p: T -> bool, q: T -> bool)
    ensures Count(Filter(s, p), q) == Count(s, Both(p, q))
  {
    if s != [] {
      var n := |s| - 1;
      CountFiltered(s[..n], p, q);
      var last := if p(s[n]) then [s[n]] else [];
      CountAppend(Filter(s[..n], p), last, q);
      assert Count(last, q) == if p(s[n]) && q(s[n]) then 1 else 0;
    }
  }

  lemma {:induction false} CountMapped<T, E>(s: seq<T>, f: T -> E, q: E -> bool)
    ensures Count(Mapped(s, f), q) == Count(s, Via(f, q))
  {
    if s != [] {
      var n := |s| - 1;
      assert Mapped(s, f)[..n] == Mapped(s[..n], f);
      CountMapped(s[..n], f, q);
    }
  }

  /** The one element that qualifies is counted once. */
  lemma {:induction false} CountOnce<T>(s: seq<T>, p: T -> bool, i: nat)
    requires i < |s| && p(s[i]) && forall j :: 0 <= j < |s| && j != i ==> !p(s[j])
    ensures Count(s, p) == 1
  {
    var n := |s| - 1;
    if i < n {
      CountOnce(s[..n], p, i);
    } else {
      CountSome(s[..n], p);
    }
  }

  // ---------------------------------------------------------------- gathering by target

  /** For one target after another, everything with that target. */
  function Gathered<T>(items: seq<T>, target: T -> string, ts: seq<string>): seq<T> {
    if ts == [] then []
    else Gathered(items, target, ts[..|ts| - 1]) + Filter(items, On(target, ts[|ts| - 1]))
  }

  lemma GatheredMore<T>(items: seq<T>, target: T -> string, ts: seq<string>, t: string)
    ensures Gathered(items, target, ts + [t]) == Gathered(items, target, ts) + Filter(items, On(target, t))
  {
    assert (ts + [t])[..|ts|] == ts;
  }

  /** With distinct targets nothing is gathered twice and nothing with a target is missed. */
  lemma {:induction false} GatheredCount<T>(items: seq<T>, target: T -> string, ts: seq<string>, p: T -> bool)
    requires NoDuplicates(ts)
    ensures Count(Gathered(items, target, ts), p) == Count(items, Both(p, Within(target, ts)))
  {
    if ts == [] {
      CountSome(items, Both(p, Within(target, ts)));
    } else {
      var n := |ts| - 1;
      var init, t := ts[..n], ts[n];
      assert ts == init + [t];
      GatheredCount(items, target, init, p);
      CountAppend(Gathered(items, target, init), Filter(items, On(target, t)), p);
      CountFiltered(items, On(target, t), p);
      CountEither(items, Both(p, Within(target, init)), Both(On(target, t), p), Both(p, Within(target, ts)));
    }
  }

  /** The entries made of what was gathered and counts. */
  function Entries<T, E>(items: seq<T>, target: T -> string, ts: seq<string>, added: T -> bool, entry: T -> E): seq<E> {
    Mapped(Filter(Gathered(items, target, ts), added), entry)
  }

  lemma EntriesCount<T, E>(
      items: seq<T>, target: T -> string, ts: seq<string>, added: T -> bool, entry: T -> E, q: E -> bool)
    requires NoDuplicates(ts)
    ensures Count(Entries(items, target, ts, added, entry), q)
      == Count(items, Both(Both(added, Via(entry, q)), Within(target, ts)))
  {
    var gathered := Gathered(items, target, ts);
    CountMapped(Filter(gathered, added), entry, q);
    CountFiltered(gathered, added, Via(entry, q));
    GatheredCount(items, target, ts, Both(added, Via(entry, q)));
  }

  /** An entry is there exactly because of an added item with one of the targets. */
  lemma EntriesMember<T, E>(items: seq<T>, target: T -> string, ts: seq<string>, added: T -> bool, entry: T -> E, e: E)
    requires NoDuplicates(ts)
    ensures e in Entries(items, target, ts, added, entry)
      <==> exists x :: x in items && added(x) && target(x) in ts && entry(x) == e
  {
    var q := (f: E) => f == e;
    var all := Entries(items, target, ts, added, entry);
    EntriesCount(items, target, ts, added, entry, q);
    CountSome(all, q);
    var wanted := Both(Both(added, Via(entry, q)), Within(target, ts));
    CountSome(items, wanted);
    assert forall x :: wanted(x) <==> added(x) && target(x) in ts && entry(x) == e;
  }
}
