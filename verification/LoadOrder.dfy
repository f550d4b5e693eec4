/**
 Without claims, xy_load is the depth-first visit of the load graph: it appends exactly
 the newly reached modules in pre-order, registers exactly them, and adds one reference
 for every path found already loaded (src/libxylem-module.c:53-118, src/libxylem.c:930-986).
 */
module LoadOrder {
  import opened Wrappers
  import opened Lists
  import opened Symbols
  import opened RegionTree
  import opened Keys
  import opened XylemState
  import opened Loading
  import opened LoadGraph
  import opened Steps

  /** The current region takes modules without a claim. */
  ghost predicate Open(s: State) {
    s.cur in s.gates && s.gates[s.cur].handler.None? && !s.gates[s.cur].required
  }

  /** No xy_install sets a claim handler. */
  ghost predicate Ungated(w: World) {
    forall p {:trigger w.images[p]} :: p in w.images && w.images[p].install.Some? ==>
      Ungating(w.images[p].install.value)
  }

  ghost predicate Ungating(acts: seq<Action>) {
    forall a :: a in acts && a.ARequire? ==> a.handler.None?
  }

  /** The paths registered in the current region. */
  ghost function Published(s: State): (r: set<Path>)
    ensures forall p :: p in r <==> KeyAt(p, s.cur) in s.registry
  {
    set k | k in s.registry && k.high == s.cur / 16 :: k.path
  }

  /** The references of path p in the current region; a module starts with one. */
  ghost function Count(s: State, p: Path): int {
    if KeyAt(p, s.cur) in s.registry && s.registry[KeyAt(p, s.cur)] in s.entries
    then s.entries[s.registry[KeyAt(p, s.cur)]].refcount else 1
  }

  /** ids are live modules of these paths, in this order. */
  ghost predicate Named(es: map<EntryId, Entry>, ids: seq<EntryId>, names: seq<Path>) {
    |ids| == |names| && forall i :: 0 <= i < |ids| ==> ids[i] in es && es[ids[i]].path == names[i]
  }

  /** What the references became. */
  ghost predicate Recounted(s: State, q: State, reused: multiset<Path>) {
    && (forall p :: p in Published(q) ==> Count(q, p) == Count(s, p) + reused[p])
    && (forall p :: p in reused ==> p in Published(q))
  }

  /** Entries of regions with other keys are untouched. */
  ghost predicate ElsewhereSame(s: State, q: State) {
    forall e :: e in s.entries && s.entries[e].region / 16 != s.cur / 16 ==>
      e in q.entries && q.entries[e] == s.entries[e]
  }

  /** q is s after the trip t, whose new modules are ids. */
  ghost predicate Traced(s: State, q: State, ids: seq<EntryId>, t: Trip) {
    && q.tree == s.tree && SameContext(s, q) && Open(q)
    && s.cur in s.mods && q.mods == s.mods[s.cur := s.mods[s.cur] + ids]
    && Named(q.entries, ids, t.order)
    && Published(q) == Published(s) + SetOf(t.order)
    && Recounted(s, q, t.reused)
    && ElsewhereSame(s, q)
  }

  /** Entries keep their paths and regions. */
  ghost predicate PathsKept(a: State, b: State) {
    forall e :: e in a.entries ==>
      e in b.entries && b.entries[e].path == a.entries[e].path && b.entries[e].region == a.entries[e].region
  }

  lemma GrowsKeepPaths(a: State, b: State, home: RegionId, loader: Option<EntryId>)
    requires Grows(a, b, home, loader)
    ensures PathsKept(a, b)
  {
    forall e | e in a.entries
      ensures e in b.entries && b.entries[e].path == a.entries[e].path && b.entries[e].region == a.entries[e].region
    {
      assert EntryKept(a, b, e);
    }
  }

  lemma TracedTrans(s: State, a: State, b: State, ids1: seq<EntryId>, t1: Trip, ids2: seq<EntryId>, t2: Trip)
    requires Traced(s, a, ids1, t1) && Traced(a, b, ids2, t2) && PathsKept(a, b)
    ensures Traced(s, b, ids1 + ids2, Trip(t1.order + t2.order, t1.reused + t2.reused))
  {
    hide Published, Recounted, Named, ElsewhereSame, PathsKept;
    assert SetOf(t1.order + t2.order) == SetOf(t1.order) + SetOf(t2.order);
    assert s.mods[s.cur] + (ids1 + ids2) == (s.mods[s.cur] + ids1) + ids2;
    NamesJoin(a, b, ids1, t1.order, ids2, t2.order);
    CountsAdd(s, a, b, t1.reused, t2.reused, SetOf(t1.order), SetOf(t2.order));
    ElsewhereTrans(s, a, b);
  }

  lemma NamesJoin(a: State, b: State, ids1: seq<EntryId>, names1: seq<Path>, ids2: seq<EntryId>, names2: seq<Path>)
    requires Named(a.entries, ids1, names1) && Named(b.entries, ids2, names2) && PathsKept(a, b)
    ensures Named(b.entries, ids1 + ids2, names1 + names2)
  {}

  lemma ElsewhereTrans(s: State, a: State, b: State)
    requires ElsewhereSame(s, a) && ElsewhereSame(a, b) && a.cur == s.cur
    ensures ElsewhereSame(s, b)
  {}

  lemma CountsAdd(s: State, a: State, b: State, r1: multiset<Path>, r2: multiset<Path>, o1: set<Path>, o2: set<Path>)
    requires a.cur == s.cur && b.cur == s.cur && Recounted(s, a, r1) && Recounted(a, b, r2)
    requires Published(a) == Published(s) + o1 && Published(b) == Published(a) + o2
    ensures Recounted(s, b, r1 + r2)
  {
    forall p | p in Published(b) ensures Count(b, p) == Count(s, p) + (r1 + r2)[p] {
      if p !in Published(a) { assert r1[p] == 0 && p !in Published(s); }
    }
  }

  /** Steps that link, register and count nothing. */
  lemma StillTraced(s: State, q: State)
    requires q.tree == s.tree && SameContext(s, q) && Open(q) && s.cur in s.mods
    requires q.mods == s.mods && q.entries == s.entries && q.registry == s.registry
    ensures Traced(s, q, [], NO_TRIP)
  {
    assert s.mods[s.cur] + [] == s.mods[s.cur];
    assert s.mods[s.cur := s.mods[s.cur]] == s.mods;
  }

  /** One reference more. */
  lemma RetainTraced(s: State, path: Path)
    requires Core(s) && Open(s) && KeyAt(path, s.cur) in s.registry && s.registry[KeyAt(path, s.cur)] in s.entries
    ensures Traced(s, Retain(s, s.registry[KeyAt(path, s.cur)]), [], Trip([], multiset{path}))
  {
    var e := s.registry[KeyAt(path, s.cur)];
    var q := Retain(s, e);
    assert KeyOk(s, KeyAt(path, s.cur));
    assert s.mods[s.cur] + [] == s.mods[s.cur];
    assert s.mods[s.cur := s.mods[s.cur]] == s.mods;
    forall p | p in Published(q) ensures Count(q, p) == Count(s, p) + multiset{path}[p] {
      assert KeyOk(s, KeyAt(p, s.cur));
    }
  }

  /** One module more. */
  lemma AdmitTraced(s: State, a: State, path: Path, image: Image)
    requires Core(s) && Open(a) && Admitted(s, a, path, image, Flat)
    ensures Traced(s, a, [s.nextEntry], Trip([path], multiset{}))
  {
    hide Anc, IsTree, NodeOk, Extends, Shape;
    forall p | p in Published(a) ensures Count(a, p) == Count(s, p) {
      if p in Published(s) { assert KeyOk(s, KeyAt(p, s.cur)); }
    }
  }

  // ---- loads ----

  lemma OpenIsFlat(w: World, s: State, path: Path, image: Image)
    requires Shape(s) && Open(s)
    ensures Decide(w, s, path, image) == Flat
  {}

  lemma AdmitStaysOpen(w: World, s: State, path: Path, image: Image)
    requires Ready(s) && Open(s) && KeyAt(path, s.cur) !in s.registry && Decide(w, s, path, image) == Flat
    ensures Open(Admit(w, s, path, image, Flat))
  {
    hide Decide, MarkDirty, Prewarm;
  }

  lemma PublishedReads(s: State, q: State)
    requires q.registry == s.registry && q.cur == s.cur
    ensures Published(q) == Published(s)
  {}

  /** A trip reads neither hooks, symbol caches, contexts nor the loader. */
  lemma TracedFrom(s: State, s0: State, q: State, ids: seq<EntryId>, t: Trip)
    requires s0.tree == s.tree && SameContext(s, s0) && s0.mods == s.mods && s0.entries == s.entries &&
             s0.registry == s.registry
    requires Traced(s0, q, ids, t)
    ensures Traced(s, q, ids, t)
  {
    hide Named;
    PublishedReads(s, s0);
  }

  lemma TracedInside(i: State, j: State, a: State, q: State, ids: seq<EntryId>, t: Trip)
    requires Traced(i, j, ids, t)
    requires a == i.(curEntry := a.curEntry, loading := a.loading) &&
             q == j.(curEntry := a.curEntry, loading := a.loading)
    ensures Traced(a, q, ids, t)
  {
    hide Named;
    PublishedReads(i, a);
    PublishedReads(j, q);
  }

  lemma PublishedIff(s: State, p: Path)
    ensures p in Published(s) <==> KeyAt(p, s.cur) in s.registry
  {}

  /** xy_load is the visit of the load graph. */
  lemma {:induction false} LoadIsVisit(w: World, s: State, path: Path) returns (ids: seq<EntryId>)
    requires Ready(s) && Open(s) && Ungated(w)
    ensures Traced(s, Load(w, s, path).0, ids, Visit(w.images, Published(s), path))
    ensures Load(w, s, path).1 == OK <==> path in w.images && (path in Published(s) || Opens(w.images, path))
    decreases Room(s.tree), |Unopened(w, s)|, 1
  {
    hide LoadNew, AregAll, Traced, Grows, EntryOk, KeyOk, ModsOk, Published, Ungated;
    PublishedIff(s, path);
    ids := [];
    if path !in w.images {
      StillTraced(s, s);
    } else {
      var image := w.images[path];
      var s0 := AregAll(s, image.constructs);
      AregAllCore(s, image.constructs);
      PublishedReads(s, s0);
      assert Unopened(w, s0) == Unopened(w, s);
      if KeyAt(path, s.cur) in s0.registry {
        RegisteredLive(s0, KeyAt(path, s.cur));
        RetainTraced(s0, path);
      } else {
        ids := NewIsVisit(w, s0, path, image);
      }
      TracedFrom(s, s0, Load(w, s, path).0, ids, Visit(w.images, Published(s), path));
    }
  }

  lemma {:induction false} NewIsVisit(w: World, s: State, path: Path, image: Image) returns (ids: seq<EntryId>)
    requires Ready(s) && Open(s) && Ungated(w) && path in w.images && image == w.images[path] &&
             KeyAt(path, s.cur) !in s.registry
    ensures Traced(s, LoadNew(w, s, path, image).0, ids, Visit(w.images, Published(s), path))
    ensures LoadNew(w, s, path, image).1 == OK <==> Opens(w.images, path)
    decreases Room(s.tree), |Unopened(w, s)|, 0
  {
    hide Traced, Grows, EntryOk, KeyOk, ModsOk, Published, Decide, Admit, Withdraw, RunScript, Anc, MarkDirty,
         AddLeaf, NoDup, Extends;
    PublishedIff(s, path);
    OpenIsFlat(w, s, path, image);
    var a := Admit(w, s, path, image, Flat);
    AdmitFacts(w, s, path, image, Flat);
    if image.install.None? {
      ids := [];
      WithdrawFacts(s, a, path, image, Flat);
      AdmitStaysOpen(w, s, path, image);
      WithdrawStaysOpen(a, s.nextEntry);
      FlatTree(s, a, path, image);
      StillTraced(s, Withdraw(a, s.nextEntry));
    } else {
      var i := Started(w, s, path, image, Flat);
      StartedFacts(w, s, path, image, Flat);
      AdmitStaysOpen(w, s, path, image);
      var rest := ScriptIsVisit(w, i, image.install.value);
      ids := [s.nextEntry] + rest;
      assert Published(i) == Published(s) + {path} by { AdmitPublishes(s, a, i, path, image); }
      InstallTraced(w, s, path, image, rest, VisitAll(w.images, Published(i), image.install.value));
    }
  }

  lemma AdmitPublishes(s: State, a: State, i: State, path: Path, image: Image)
    requires Admitted(s, a, path, image, Flat) && i.registry == a.registry && i.cur == s.cur
    ensures Published(i) == Published(s) + {path}
  {
    hide Anc, Extends;
  }

  lemma WithdrawStaysOpen(s: State, e: EntryId)
    requires Core(s) && e in s.entries && Open(s)
    ensures Open(Withdraw(s, e))
  {}

  lemma FlatTree(s: State, a: State, path: Path, image: Image)
    requires Admitted(s, a, path, image, Flat)
    ensures a.tree == s.tree && SameContext(s, a) && s.cur in s.mods
  {}

  lemma InstallTraced(w: World, s: State, path: Path, image: Image, rest: seq<EntryId>, t: Trip)
    requires Ready(s) && Open(s) && path in w.images && image == w.images[path] && KeyAt(path, s.cur) !in s.registry
    requires image.install.Some? && Decide(w, s, path, image) == Flat
    requires var i := Started(w, s, path, image, Flat);
             Ready(i) && Traced(i, RunScript(w, i, image.install.value), rest, t)
    ensures var j := RunScript(w, Started(w, s, path, image, Flat), image.install.value);
            Traced(s, Restore(j, s), [s.nextEntry] + rest, Trip([path] + t.order, t.reused))
  {
    hide Traced, Grows, EntryOk, KeyOk, ModsOk, Published, Decide, Admit, RunScript, Anc, Admitted, Shape;
    var a, i := Admit(w, s, path, image, Flat), Started(w, s, path, image, Flat);
    var j := RunScript(w, i, image.install.value);
    AdmitFacts(w, s, path, image, Flat);
    AdmitStaysOpen(w, s, path, image);
    AdmitTraced(s, a, path, image);
    FlatTree(s, a, path, image);
    TracedInside(i, j, a, Restore(j, s), rest, t);
    GrowsKeepPaths(i, j, i.cur, i.loading);
    TracedTrans(s, a, Restore(j, s), [s.nextEntry], Trip([path], multiset{}), rest, t);
    assert multiset{} + t.reused == t.reused;
  }

  lemma {:induction false} ScriptIsVisit(w: World, s: State, acts: seq<Action>) returns (ids: seq<EntryId>)
    requires Ready(s) && Open(s) && Ungated(w) && Ungating(acts)
    ensures Traced(s, RunScript(w, s, acts), ids, VisitAll(w.images, Published(s), acts))
    decreases Room(s.tree), |Unopened(w, s)|, |acts| + 1
  {
    hide Traced, Grows, EntryOk, KeyOk, ModsOk, Published, Ungated, Load, Setting, Unopened, Visit;
    ids := [];
    if acts == [] {
      StillTraced(s, s);
    } else if acts[0].ALoad? {
      var s1 := Load(w, s, acts[0].path).0;
      var first := LoadIsVisit(w, s, acts[0].path);
      TracedMeans(s, s1, first, Visit(w.images, Published(s), acts[0].path));
      ScriptStep(w, s, s1);
      var rest := ScriptIsVisit(w, s1, acts[1..]);
      var r := RunScript(w, s1, acts[1..]);
      GrowsKeepPaths(s1, r, s1.cur, s1.loading);
      ids := first + rest;
      TracedTrans(s, s1, r, first, Visit(w.images, Published(s), acts[0].path), rest,
        VisitAll(w.images, Published(s1), acts[1..]));
    } else {
      var s1 := Setting(s, acts[0]);
      SettingFacts(s, acts[0]);
      SettingStaysOpen(s, acts[0]);
      ScriptStep(w, s, s1);
      PublishedReads(s, s1);
      ids := ScriptIsVisit(w, s1, acts[1..]);
      TracedFrom(s, s1, RunScript(w, s1, acts[1..]), ids, VisitAll(w.images, Published(s1), acts[1..]));
    }
  }

  lemma TracedMeans(s: State, q: State, ids: seq<EntryId>, t: Trip)
    requires Traced(s, q, ids, t)
    ensures Open(q) && Published(q) == Published(s) + SetOf(t.order)
  {}

  lemma SettingStaysOpen(s: State, act: Action)
    requires Shape(s) && Open(s) && !act.ALoad? && (act.ARequire? ==> act.handler.None?)
    ensures var q := Setting(s, act);
            && Open(q) && q.tree == s.tree && q.mods == s.mods && q.entries == s.entries && q.registry == s.registry
  {
    hide BumpGens, FlagDeny;
  }

  /**
   A load grows its region's list by the new modules in depth-first pre-order, each once;
   they are exactly what is reachable from the loaded path through modules not loaded before.
   */
  lemma LoadReaches(w: World, s: State, path: Path) returns (ids: seq<EntryId>, order: seq<Path>)
    requires Ready(s) && Open(s) && Ungated(w)
    ensures var q := Load(w, s, path).0;
            && s.cur in s.mods && q.mods == s.mods[s.cur := s.mods[s.cur] + ids]
            && Named(q.entries, ids, order) && NoDup(order)
            && Published(q) == Published(s) + SetOf(order)
    ensures Opens(w.images, path) && path !in Published(s) ==> order != [] && order[0] == path
    ensures ClosedUnder(w.images, Published(s), SetOf(order))
    ensures forall c :: && ClosedUnder(w.images, Published(s), c)
                        && (Opens(w.images, path) && path !in Published(s) ==> path in c)
                        ==> SetOf(order) <= c
  {
    hide Load, Published, ClosedUnder;
    ids := LoadIsVisit(w, s, path);
    order := Visit(w.images, Published(s), path).order;
    VisitOnce(w.images, Published(s), path);
    VisitClosed(w.images, Published(s), path);
    forall c | ClosedUnder(w.images, Published(s), c) && (Opens(w.images, path) && path !in Published(s) ==> path in c)
      ensures SetOf(order) <= c
    {
      VisitLeast(w.images, Published(s), path, c);
    }
  }
}
