/**
 The order in which loading a module reaches the modules it depends on, as a depth-first
 search of the graph "xy_install of p loads q": the reference that xy_load is compared to.
 */
module LoadGraph {
  import opened Lists
  import opened Keys
  import opened XylemState

  type Images = map<Path, Image>

  /** The paths first loaded, in pre-order, and the paths found already loaded, each as often as it was found. */
  datatype Trip = Trip(order: seq<Path>, reused: multiset<Path>)

  const NO_TRIP := Trip([], multiset{})

  /** p names a module that can be installed. */
  predicate Opens(images: Images, p: Path) {
    p in images && images[p].install.Some?
  }

  function SetOf(ps: seq<Path>): (r: set<Path>)
    ensures forall p :: p in r <==> p in ps
  {
    set p | p in ps
  }

  function Visit(images: Images, seen: set<Path>, p: Path): Trip
    decreases |images.Keys - seen|, 0
  {
    if p !in images then NO_TRIP
    else if p in seen then Trip([], multiset{p})
    else if images[p].install.None? then NO_TRIP
    else
      FewerLeft(images.Keys, seen, p);
      var t := VisitAll(images, seen + {p}, images[p].install.value);
      Trip([p] + t.order, t.reused)
  }

  function VisitAll(images: Images, seen: set<Path>, acts: seq<Action>): Trip
    decreases |images.Keys - seen|, |acts| + 1
  {
    if acts == [] then NO_TRIP
    else if !acts[0].ALoad? then VisitAll(images, seen, acts[1..])
    else
      var a := Visit(images, seen, acts[0].path);
      NoMoreLeft(images.Keys, seen, SetOf(a.order));
      var b := VisitAll(images, seen + SetOf(a.order), acts[1..]);
      Trip(a.order + b.order, a.reused + b.reused)
  }

  lemma FewerLeft(all: set<Path>, seen: set<Path>, p: Path)
    requires p in all && p !in seen
    ensures |all - (seen + {p})| < |all - seen|
  {
    assert all - seen == (all - (seen + {p})) + {p};
  }

  lemma NoMoreLeft(all: set<Path>, seen: set<Path>, more: set<Path>)
    ensures |all - (seen + more)| <= |all - seen|
  {
    assert all - seen == (all - (seen + more)) + ((all - seen) * more);
  }

  // ---- each module once ----

  /** No module is visited twice, and none that was loaded before. */
  lemma {:induction false} VisitOnce(images: Images, seen: set<Path>, p: Path)
    ensures var t := Visit(images, seen, p);
            NoDup(t.order) && forall q :: q in t.order ==> q !in seen && Opens(images, q)
    decreases |images.Keys - seen|, 0
  {
    if p in images && p !in seen && images[p].install.Some? {
      FewerLeft(images.Keys, seen, p);
      VisitAllOnce(images, seen + {p}, images[p].install.value);
      AppNoDup([p], VisitAll(images, seen + {p}, images[p].install.value).order);
    }
  }

  lemma {:induction false} VisitAllOnce(images: Images, seen: set<Path>, acts: seq<Action>)
    ensures var t := VisitAll(images, seen, acts);
            NoDup(t.order) && forall q :: q in t.order ==> q !in seen && Opens(images, q)
    decreases |images.Keys - seen|, |acts| + 1
  {
    if acts == [] {
    } else if !acts[0].ALoad? {
      VisitAllOnce(images, seen, acts[1..]);
    } else {
      var a := Visit(images, seen, acts[0].path);
      NoMoreLeft(images.Keys, seen, SetOf(a.order));
      VisitOnce(images, seen, acts[0].path);
      VisitAllOnce(images, seen + SetOf(a.order), acts[1..]);
      AppNoDup(a.order, VisitAll(images, seen + SetOf(a.order), acts[1..]).order);
    }
  }

  // ---- exactly the reachable modules ----

  /** Everything `acts` loads, if it can be installed and was not loaded before, is in c. */
  ghost predicate Covers(images: Images, seen: set<Path>, acts: seq<Action>, c: set<Path>) {
    forall a :: a in acts && a.ALoad? && Opens(images, a.path) && a.path !in seen ==> a.path in c
  }

  /** c is closed under "is loaded by the install of". */
  ghost predicate ClosedUnder(images: Images, seen: set<Path>, c: set<Path>) {
    forall q :: q in c && Opens(images, q) ==> Covers(images, seen, images[q].install.value, c)
  }

  /** The visited modules lie in every closed set that contains the first. */
  lemma {:induction false} VisitLeast(images: Images, seen: set<Path>, p: Path, c: set<Path>)
    requires ClosedUnder(images, seen, c) && (Opens(images, p) && p !in seen ==> p in c)
    ensures forall q :: q in Visit(images, seen, p).order ==> q in c
    decreases |images.Keys - seen|, 0
  {
    if p in images && p !in seen && images[p].install.Some? {
      FewerLeft(images.Keys, seen, p);
      SeeMore(images, seen, seen + {p}, c);
      VisitAllLeast(images, seen + {p}, images[p].install.value, c);
    }
  }

  lemma SeeMore(images: Images, seen: set<Path>, more: set<Path>, c: set<Path>)
    requires ClosedUnder(images, seen, c) && seen <= more
    ensures ClosedUnder(images, more, c)
  {
    forall q | q in c && Opens(images, q) ensures Covers(images, more, images[q].install.value, c) {
      assert Covers(images, seen, images[q].install.value, c);
    }
  }

  lemma {:induction false} VisitAllLeast(images: Images, seen: set<Path>, acts: seq<Action>, c: set<Path>)
    requires ClosedUnder(images, seen, c) && Covers(images, seen, acts, c)
    ensures forall q :: q in VisitAll(images, seen, acts).order ==> q in c
    decreases |images.Keys - seen|, |acts| + 1
  {
    if acts == [] {
    } else if !acts[0].ALoad? {
      VisitAllLeast(images, seen, acts[1..], c);
    } else {
      var a := Visit(images, seen, acts[0].path);
      NoMoreLeft(images.Keys, seen, SetOf(a.order));
      assert acts[0] in acts;
      VisitLeast(images, seen, acts[0].path, c);
      SeeMore(images, seen, seen + SetOf(a.order), c);
      VisitAllLeast(images, seen + SetOf(a.order), acts[1..], c);
    }
  }

  /** The visited modules are themselves closed: nothing reachable is left out. */
  lemma {:induction false} VisitClosed(images: Images, seen: set<Path>, p: Path)
    ensures var c := SetOf(Visit(images, seen, p).order);
            ClosedUnder(images, seen, c) && (Opens(images, p) && p !in seen ==> p in c)
    decreases |images.Keys - seen|, 0
  {
    if p in images && p !in seen && images[p].install.Some? {
      FewerLeft(images.Keys, seen, p);
      var acts := images[p].install.value;
      VisitAllClosed(images, seen + {p}, acts);
      var inner, c := SetOf(VisitAll(images, seen + {p}, acts).order), SetOf(Visit(images, seen, p).order);
      assert c == inner + {p};
      forall q | q in c && Opens(images, q) ensures Covers(images, seen, images[q].install.value, c) {
        assert Covers(images, seen + {p}, images[q].install.value, inner);
      }
    }
  }

  lemma {:induction false} VisitAllClosed(images: Images, seen: set<Path>, acts: seq<Action>)
    ensures var c := SetOf(VisitAll(images, seen, acts).order);
            ClosedUnder(images, seen, c) && Covers(images, seen, acts, c)
    decreases |images.Keys - seen|, |acts| + 1
  {
    hide ClosedUnder, Covers, Visit;
    if acts == [] {
      NothingClosed(images, seen);
    } else if !acts[0].ALoad? {
      VisitAllClosed(images, seen, acts[1..]);
      assert seen + {} == seen;
      CoversMore(images, seen, {}, acts, SetOf(VisitAll(images, seen, acts).order));
      assert {} + SetOf(VisitAll(images, seen, acts).order) == SetOf(VisitAll(images, seen, acts).order);
    } else {
      var a := Visit(images, seen, acts[0].path);
      var first := SetOf(a.order);
      NoMoreLeft(images.Keys, seen, first);
      VisitClosed(images, seen, acts[0].path);
      VisitAllClosed(images, seen + first, acts[1..]);
      var rest := SetOf(VisitAll(images, seen + first, acts[1..]).order);
      assert SetOf(VisitAll(images, seen, acts).order) == first + rest;
      JoinClosed(images, seen, first, rest);
      CoversMore(images, seen, first, acts, rest);
    }
  }

  lemma NothingClosed(images: Images, seen: set<Path>)
    ensures SetOf([]) == {} && ClosedUnder(images, seen, {}) && Covers(images, seen, [], {})
  {}

  lemma CoversMore(images: Images, seen: set<Path>, first: set<Path>, acts: seq<Action>, rest: set<Path>)
    requires acts != [] && Covers(images, seen + first, acts[1..], rest)
    requires acts[0].ALoad? && Opens(images, acts[0].path) && acts[0].path !in seen ==> acts[0].path in first
    ensures Covers(images, seen, acts, first + rest)
  {
    assert forall x :: x in acts ==> x == acts[0] || x in acts[1..];
  }

  lemma JoinClosed(images: Images, seen: set<Path>, first: set<Path>, rest: set<Path>)
    requires ClosedUnder(images, seen, first) && ClosedUnder(images, seen + first, rest)
    ensures ClosedUnder(images, seen, first + rest)
  {
    forall q | q in first + rest && Opens(images, q)
      ensures Covers(images, seen, images[q].install.value, first + rest)
    {
      if q in first { assert Covers(images, seen, images[q].install.value, first); }
      else { assert Covers(images, seen + first, images[q].install.value, rest); }
    }
  }

  /** What was found already loaded was loaded before, or earlier in the visit. */
  lemma {:induction false} ReusedSeen(images: Images, seen: set<Path>, p: Path)
    ensures var t := Visit(images, seen, p); forall q :: q in t.reused ==> q in seen || q in t.order
    decreases |images.Keys - seen|, 0
  {
    if p in images && p !in seen && images[p].install.Some? {
      FewerLeft(images.Keys, seen, p);
      ReusedAllSeen(images, seen + {p}, images[p].install.value);
    }
  }

  lemma {:induction false} ReusedAllSeen(images: Images, seen: set<Path>, acts: seq<Action>)
    ensures var t := VisitAll(images, seen, acts); forall q :: q in t.reused ==> q in seen || q in t.order
    decreases |images.Keys - seen|, |acts| + 1
  {
    if acts == [] {
    } else if !acts[0].ALoad? {
      ReusedAllSeen(images, seen, acts[1..]);
    } else {
      var a := Visit(images, seen, acts[0].path);
      NoMoreLeft(images.Keys, seen, SetOf(a.order));
      ReusedSeen(images, seen, acts[0].path);
      ReusedAllSeen(images, seen + SetOf(a.order), acts[1..]);
    }
  }
}
