/** The abstract module list: what linking and unlinking an entry does to a sequence. */
module Lists {
  import opened Wrappers

  ghost predicate NoDup<T>(s: seq<T>) {
    forall i, j :: 0 <= i < j < |s| ==> s[i] != s[j]
  }

  function IndexOf<T(==)>(s: seq<T>, x: T): (i: nat)
    ensures i <= |s|
    ensures i < |s| ==> s[i] == x
    ensures i < |s| <==> x in s
    ensures forall k :: 0 <= k < i ==> s[k] != x
  {
    if s == [] || s[0] == x then 0 else 1 + IndexOf(s[1..], x)
  }

  /** x placed right behind `after`, or in front of everything when there is none. */
  function InsertAfter<T(==)>(s: seq<T>, x: T, after: Option<T>): (r: seq<T>)
    requires after.Some? ==> after.value in s
    ensures |r| == |s| + 1
  {
    if after.None? then [x] + s
    else
      var i := IndexOf(s, after.value) + 1;
      s[..i] + [x] + s[i..]
  }

  /** The predecessor of x, if x is in s and not its head. */
  function Before<T(==)>(s: seq<T>, x: T): (r: Option<T>)
    ensures r.Some? ==> r.value in s
  {
    var i := IndexOf(s, x);
    if 0 < i < |s| then Some(s[i - 1]) else None
  }

  function Without<T(==)>(s: seq<T>, x: T): seq<T> {
    var i := IndexOf(s, x);
    if i < |s| then s[..i] + s[i + 1..] else s
  }

  /** The elements of s that are in `live`, in order. */
  function Keep<T(==, !new)>(s: seq<T>, live: set<T>): (r: seq<T>)
    ensures forall x :: x in r <==> x in s && x in live
  {
    if s == [] then []
    else if s[0] in live then [s[0]] + Keep(s[1..], live)
    else Keep(s[1..], live)
  }

  lemma IndexAt<T>(s: seq<T>, i: nat)
    requires NoDup(s) && i < |s|
    ensures IndexOf(s, s[i]) == i
  {
    var k := IndexOf(s, s[i]);
    assert k <= i;
  }

  lemma {:induction false} KeepApp<T(!new)>(a: seq<T>, b: seq<T>, live: set<T>)
    ensures Keep(a + b, live) == Keep(a, live) + Keep(b, live)
  {
    if a == [] {
      assert a + b == b;
    } else {
      assert (a + b)[1..] == a[1..] + b;
      KeepApp(a[1..], b, live);
    }
  }

  lemma {:induction false} KeepAll<T(!new)>(s: seq<T>, live: set<T>)
    requires forall x :: x in s ==> x in live
    ensures Keep(s, live) == s
  {
    if s != [] { KeepAll(s[1..], live); }
  }

  lemma {:induction false} KeepKeep<T(!new)>(s: seq<T>, big: set<T>, small: set<T>)
    requires small <= big
    ensures Keep(Keep(s, big), small) == Keep(s, small)
  {
    if s != [] { KeepKeep(s[1..], big, small); }
  }

  /** Keeping depends only on which elements of s are kept. */
  lemma {:induction false} KeepSame<T(!new)>(s: seq<T>, a: set<T>, b: set<T>)
    requires forall x :: x in s ==> (x in a <==> x in b)
    ensures Keep(s, a) == Keep(s, b)
  {
    if s != [] { KeepSame(s[1..], a, b); }
  }

  lemma NoDupApp<T>(a: seq<T>, b: seq<T>)
    requires NoDup(a + b)
    ensures NoDup(a) && NoDup(b) && forall x :: x in a ==> x !in b
  {
    assert forall i :: 0 <= i < |a| ==> a[i] == (a + b)[i];
    assert forall i :: 0 <= i < |b| ==> b[i] == (a + b)[|a| + i];
  }

  lemma AppNoDup<T>(a: seq<T>, b: seq<T>)
    requires NoDup(a) && NoDup(b) && forall x :: x in a ==> x !in b
    ensures NoDup(a + b)
  {
    var r := a + b;
    forall i, j | 0 <= i < j < |r| ensures r[i] != r[j] {
      if i < |a| <= j { assert r[i] in a && r[j] == b[j - |a|]; }
    }
  }

  /** In a list without repetitions, unlinking x is keeping everything else. */
  lemma {:induction false} WithoutIsKeep<T(!new)>(s: seq<T>, x: T, live: set<T>)
    requires NoDup(s)
    requires forall y :: y in s ==> (y in live <==> y != x)
    ensures Without(s, x) == Keep(s, live)
  {
    hide Without;
    if s == [] {
      NothingWithout(x);
    } else if s[0] == x {
      assert x !in s[1..];
      KeepAll(s[1..], live);
      WithoutHead(s, x);
    } else {
      WithoutIsKeep(s[1..], x, live);
      WithoutTail(s, x);
    }
  }

  lemma NothingWithout<T>(x: T)
    ensures Without([], x) == []
  {}

  lemma WithoutHead<T>(s: seq<T>, x: T)
    requires s != [] && s[0] == x
    ensures Without(s, x) == s[1..]
  {
    assert s[..0] + s[1..] == s[1..];
  }

  lemma WithoutTail<T>(s: seq<T>, x: T)
    requires s != [] && s[0] != x
    ensures Without(s, x) == [s[0]] + Without(s[1..], x)
  {
    var i := IndexOf(s[1..], x);
    assert IndexOf(s, x) == i + 1;
    if i < |s[1..]| {
      assert s[..i + 1] == [s[0]] + s[1..][..i];
      assert s[i + 2..] == s[1..][i + 1..];
    }
  }

  lemma WithoutFacts<T>(s: seq<T>, x: T)
    requires NoDup(s)
    ensures NoDup(Without(s, x))
    ensures forall y :: y in Without(s, x) <==> y in s && y != x
  {
    var i := IndexOf(s, x);
    if i < |s| {
      var a, b := s[..i], s[i + 1..];
      assert s == a + ([x] + b);
      NoDupApp(a, [x] + b);
      NoDupApp([x], b);
      assert forall y :: y in a ==> y in s[..i] && y in s;
      assert forall y :: y in b ==> y in [x] + b;
      AppNoDup(a, b);
    }
  }

  lemma InsertFacts<T>(s: seq<T>, x: T, after: Option<T>)
    requires NoDup(s) && x !in s
    requires after.Some? ==> after.value in s
    ensures NoDup(InsertAfter(s, x, after))
    ensures forall y :: y in InsertAfter(s, x, after) <==> y in s || y == x
  {
    var i := if after.None? then 0 else IndexOf(s, after.value) + 1;
    var a, b := s[..i], s[i..];
    assert s == a + b;
    NoDupApp(a, b);
    AppNoDup([x], b);
    AppNoDup(a, [x] + b);
    assert InsertAfter(s, x, after) == a + ([x] + b);
  }
}
