/** Sorted finalizer sets: what sets.String does for addFinalizer and removeFinalizer. */
module Finalizers {
  import opened Types

  /** Go's string order. */
  predicate Less(a: string, b: string) {
    b != [] && (a == [] || a[0] < b[0] || (a[0] == b[0] && Less(a[1..], b[1..])))
  }

  ghost predicate StrictlySorted(xs: seq<string>) {
    forall i, j :: 0 <= i < j < |xs| ==> Less(xs[i], xs[j])
  }

  /** xs is the strictly sorted list of the set s. */
  ghost predicate ListOf(xs: seq<string>, s: set<string>) {
    StrictlySorted(xs) && forall x :: x in xs <==> x in s
  }

  /** Go's string order, spelled out: a proper prefix, or a smaller character where the strings first differ. */
  ghost predicate Precedes(a: string, b: string) {
    (a <= b && a != b) || exists i :: SmallerAt(a, b, i)
  }

  predicate SmallerAt(a: string, b: string, i: nat) {
    i < |a| && i < |b| && a[..i] == b[..i] && a[i] < b[i]
  }

  lemma {:induction false} LessIsPrecedes(a: string, b: string)
    ensures Less(a, b) <==> Precedes(a, b)
  {
    if a == [] || b == [] {
    } else if a[0] != b[0] {
      assert a[0] < b[0] ==> SmallerAt(a, b, 0);
      assert forall i | i > 0 && i < |a| && i < |b| :: a[..i][0] == a[0] && b[..i][0] == b[0];
    } else {
      LessIsPrecedes(a[1..], b[1..]);
      PrecedesTail(a, b);
    }
  }

  lemma PrecedesTail(a: string, b: string)
    requires a != [] && b != [] && a[0] == b[0]
    ensures Precedes(a, b) <==> Precedes(a[1..], b[1..])
  {
    var s, t := a[1..], b[1..];
    assert a == [a[0]] + s && b == [b[0]] + t;
    if i: nat :| SmallerAt(a, b, i) {
      assert s[..i - 1] == a[..i][1..] && t[..i - 1] == b[..i][1..];
      assert SmallerAt(s, t, i - 1);
    }
    if i: nat :| SmallerAt(s, t, i) {
      assert a[..i + 1] == [a[0]] + s[..i] && b[..i + 1] == [b[0]] + t[..i];
      assert SmallerAt(a, b, i + 1);
    }
  }

  /** The list ascends in Go's string order. */
  ghost predicate Ascending(xs: seq<string>) {
    forall i, j :: 0 <= i < j < |xs| ==> Precedes(xs[i], xs[j])
  }

  lemma SortedIsAscending(xs: seq<string>)
    ensures StrictlySorted(xs) <==> Ascending(xs)
  {
    forall i, j | 0 <= i < j < |xs| ensures Less(xs[i], xs[j]) <==> Precedes(xs[i], xs[j]) {
      LessIsPrecedes(xs[i], xs[j]);
    }
  }

  lemma {:induction false} LessTransitive(a: string, b: string, c: string)
    requires Less(a, b) && Less(b, c)
    ensures Less(a, c)
  {
    if a != [] && a[0] == b[0] && b[0] == c[0] {
      LessTransitive(a[1..], b[1..], c[1..]);
    }
  }

  lemma {:induction false} LessIrreflexive(a: string)
    ensures !Less(a, a)
  {
    if a != [] {
      LessIrreflexive(a[1..]);
    }
  }

  lemma {:induction false} LessTotal(a: string, b: string)
    ensures Less(a, b) || a == b || Less(b, a)
  {
    if a != [] && b != [] && a[0] == b[0] {
      LessTotal(a[1..], b[1..]);
      assert a == [a[0]] + a[1..] && b == [b[0]] + b[1..];
    }
  }

  function Insert(x: string, xs: seq<string>): (r: seq<string>) {
    if xs == [] then [x]
    else if x == xs[0] then xs
    else if Less(x, xs[0]) then [x] + xs
    else [xs[0]] + Insert(x, xs[1..])
  }

  lemma {:induction false} InsertCorrect(x: string, xs: seq<string>, s: set<string>)
    requires ListOf(xs, s)
    ensures ListOf(Insert(x, xs), s + {x})
  {
    if xs == [] || x == xs[0] {
    } else if Less(x, xs[0]) {
      forall j | 0 <= j < |xs| ensures Less(x, xs[j]) {
        if j > 0 { LessTransitive(x, xs[0], xs[j]); }
      }
    } else {
      LessTotal(x, xs[0]);
      LessIrreflexive(xs[0]);
      var rest := xs[1..];
      assert xs == [xs[0]] + rest;
      assert forall j :: 0 <= j < |rest| ==> Less(xs[0], rest[j]);
      InsertCorrect(x, rest, s - {xs[0]});
      var r := Insert(x, rest);
      forall j | 0 <= j < |r| ensures Less(xs[0], r[j]) {
        assert r[j] in s - {xs[0]} + {x};
        if r[j] != x {
          assert r[j] in rest;
        }
      }
      forall y ensures y in [xs[0]] + r <==> y in s + {x} {
        assert y in r <==> y in s - {xs[0]} + {x};
      }
    }
  }

  /** The sorted list of the distinct elements of xs. */
  function Canon(xs: seq<string>): seq<string> {
    if xs == [] then [] else Insert(xs[0], Canon(xs[1..]))
  }

  ghost function SetOf(xs: seq<string>): set<string> {
    set x | x in xs
  }

  lemma {:induction false} CanonCorrect(xs: seq<string>)
    ensures ListOf(Canon(xs), SetOf(xs))
  {
    if xs != [] {
      CanonCorrect(xs[1..]);
      InsertCorrect(xs[0], Canon(xs[1..]), SetOf(xs[1..]));
      assert xs == [xs[0]] + xs[1..];
      assert SetOf(xs) == SetOf(xs[1..]) + {xs[0]};
    }
  }

  /** A set has exactly one strictly sorted list. */
  lemma {:induction false} ListUnique(xs: seq<string>, ys: seq<string>, s: set<string>)
    requires ListOf(xs, s) && ListOf(ys, s)
    ensures xs == ys
  {
    assert xs != [] ==> xs[0] in s;
    assert ys != [] ==> ys[0] in s;
    if xs != [] && ys != [] {
      Least(xs, ys[0]);
      Least(ys, xs[0]);
      if xs[0] != ys[0] {
        LessTransitive(xs[0], ys[0], xs[0]);
      }
      LessIrreflexive(xs[0]);
      Tail(xs, s);
      Tail(ys, s);
      ListUnique(xs[1..], ys[1..], s - {xs[0]});
      assert xs == [xs[0]] + xs[1..] && ys == [ys[0]] + ys[1..];
    }
  }

  lemma Least(xs: seq<string>, y: string)
    requires StrictlySorted(xs) && y in xs
    ensures xs[0] == y || Less(xs[0], y)
  {
    var j :| 0 <= j < |xs| && xs[j] == y;
    if j > 0 { assert Less(xs[0], xs[j]); }
  }

  lemma Tail(xs: seq<string>, s: set<string>)
    requires ListOf(xs, s) && xs != []
    ensures ListOf(xs[1..], s - {xs[0]})
  {
    LessIrreflexive(xs[0]);
    assert xs == [xs[0]] + xs[1..];
    assert forall j :: 0 <= j < |xs[1..]| ==> Less(xs[0], xs[1..][j]);
  }

  /** xs without the name x. */
  function Without(xs: seq<string>, x: string): seq<string> {
    if xs == [] then []
    else if xs[0] == x then Without(xs[1..], x)
    else [xs[0]] + Without(xs[1..], x)
  }

  lemma {:induction false} WithoutSet(xs: seq<string>, x: string)
    ensures SetOf(Without(xs, x)) == SetOf(xs) - {x}
  {
    if xs != [] {
      WithoutSet(xs[1..], x);
      assert xs == [xs[0]] + xs[1..];
      assert SetOf(xs) == {xs[0]} + SetOf(xs[1..]);
      if xs[0] != x {
        assert SetOf(Without(xs, x)) == {xs[0]} + SetOf(Without(xs[1..], x));
      }
    }
  }

  /** addFinalizer. */
  function Add(f: Strings): Strings {
    Slice(Insert(FINALIZER_NAME, Canon(Items(f))))
  }

  /** removeFinalizer. */
  function Remove(f: Strings): Strings {
    Slice(Canon(Without(Items(f), FINALIZER_NAME)))
  }

  ghost function Names(f: Strings): set<string> {
    SetOf(Items(f))
  }

  /** The finalizers that belong to other parties. */
  ghost function Foreign(f: Strings): set<string> {
    Names(f) - {FINALIZER_NAME}
  }

  lemma AddCorrect(f: Strings)
    ensures ListOf(Items(Add(f)), Names(f) + {FINALIZER_NAME}) && Ascending(Items(Add(f)))
    ensures FINALIZER_NAME in Items(Add(f))
    ensures Foreign(Add(f)) == Foreign(f)
  {
    CanonCorrect(Items(f));
    InsertCorrect(FINALIZER_NAME, Canon(Items(f)), Names(f));
    SortedIsAscending(Items(Add(f)));
  }

  lemma RemoveCorrect(f: Strings)
    ensures ListOf(Items(Remove(f)), Foreign(f)) && Ascending(Items(Remove(f)))
    ensures FINALIZER_NAME !in Items(Remove(f))
    ensures Foreign(Remove(f)) == Foreign(f)
  {
    CanonCorrect(Without(Items(f), FINALIZER_NAME));
    WithoutSet(Items(f), FINALIZER_NAME);
    SortedIsAscending(Items(Remove(f)));
  }

  lemma Membership(f: Strings)
    ensures FINALIZER_NAME in Items(Add(f)) && FINALIZER_NAME !in Items(Remove(f))
    ensures Items(Stored(Items(f))) == Items(f)
  {
    AddCorrect(f);
    RemoveCorrect(f);
  }

  /** A list is untouched by addFinalizer exactly when it is sorted, duplicate-free and holds the name. */
  lemma AddFixed(f: Strings)
    ensures Items(Add(f)) == Items(f) <==> StrictlySorted(Items(f)) && FINALIZER_NAME in Items(f)
  {
    AddCorrect(f);
    if StrictlySorted(Items(f)) && FINALIZER_NAME in Items(f) {
      assert Names(f) + {FINALIZER_NAME} == Names(f);
      ListUnique(Items(Add(f)), Items(f), Names(f));
    }
  }

  /** A list is untouched by removeFinalizer exactly when it is sorted, duplicate-free and lacks the name. */
  lemma RemoveFixed(f: Strings)
    ensures Items(Remove(f)) == Items(f) <==> StrictlySorted(Items(f)) && FINALIZER_NAME !in Items(f)
  {
    RemoveCorrect(f);
    if StrictlySorted(Items(f)) && FINALIZER_NAME !in Items(f) {
      assert Foreign(f) == Names(f);
      ListUnique(Items(Remove(f)), Items(f), Names(f));
    }
  }

  /** Both operations are idempotent, and removing undoes adding up to order and duplicates. */
  lemma FinalizerAlgebra(f: Strings)
    ensures Add(Add(f)) == Add(f)
    ensures Remove(Remove(f)) == Remove(f)
    ensures Remove(Add(f)) == Remove(f)
    ensures Add(Remove(f)) == Add(f)
  {
    AddCorrect(f);
    RemoveCorrect(f);
    AddFixed(Add(f));
    RemoveFixed(Remove(f));
    RemoveCorrect(Add(f));
    ListUnique(Items(Remove(Add(f))), Items(Remove(f)), Foreign(f));
    AddCorrect(Remove(f));
    assert Names(Remove(f)) + {FINALIZER_NAME} == Names(f) + {FINALIZER_NAME};
    ListUnique(Items(Add(Remove(f))), Items(Add(f)), Names(f) + {FINALIZER_NAME});
  }

  /** The lists depend on the set of names alone, not on its order or repetitions. */
  lemma SameSetSameLists(f: Strings, g: Strings)
    requires Names(f) == Names(g)
    ensures Add(f) == Add(g) && Remove(f) == Remove(g)
  {
    AddCorrect(f);
    AddCorrect(g);
    RemoveCorrect(f);
    RemoveCorrect(g);
    ListUnique(Items(Add(f)), Items(Add(g)), Names(f) + {FINALIZER_NAME});
    ListUnique(Items(Remove(f)), Items(Remove(g)), Foreign(f));
  }
}
