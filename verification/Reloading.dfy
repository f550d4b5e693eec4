/**
 xy_reload (src/libxylem-module.c:232-294): the module keeps its place in the dispatch order, and the invariant
 survives; when a module ends up linked in a region that is not its own.
 */
module Reloading {
  import opened Wrappers
  import opened Lists
  import opened RegionTree
  import opened RegionIds
  import opened Keys
  import opened XylemState
  import opened Loading
  import opened Unloading
  import opened Invariants
  import opened Steps
  import opened Programs

  // ---- where a load puts things ----

  /** The region takes this module in without asking its claim handler. */
  predicate TakesUnclaimed(s: State, image: Image)
    requires Shape(s)
  {
    var gate := s.gates[s.cur];
    !gate.required && (image.claim.None? || gate.handler.None?)
  }

  lemma UnclaimedNotGranted(w: World, s: State, path: Path, image: Image)
    requires Shape(s)
    ensures TakesUnclaimed(s, image) <==> Decide(w, s, path, image).Flat?
  {}

  lemma RefusedNotOk(w: World, s: State, path: Path, image: Image)
    requires Shape(s)
    ensures Decide(w, s, path, image).Refused? ==> Decide(w, s, path, image).err != OK
  {}

  /** The states before and after the install of a load that went through. */
  lemma InstallRan(w: World, s: State, path: Path, image: Image) returns (v: Verdict, i: State, j: State)
    requires Ready(s) && path in w.images && KeyAt(path, s.cur) !in s.registry && LoadNew(w, s, path, image).1 == OK
    ensures v == Decide(w, s, path, image) && !v.Refused? && i == Started(w, s, path, image, v)
    ensures Core(s) && Core(i) && Core(j) && Ready(j) && LoadNew(w, s, path, image).0 == Restore(j, s)
    ensures Admitted(s, i.(cur := s.cur, curEntry := s.curEntry, loading := s.loading), path, image, v)
    ensures i.cur == HomeOf(s, v) && i.loading == Some(s.nextEntry) && Grows(i, j, i.cur, i.loading)
    ensures i.entries.Keys == s.entries.Keys + {s.nextEntry}
  {
    hide Decide, Grows, Admit, Anc, Bind, Withdraw, RunScript, EntryOk, KeyOk, ModsOk, Started, Admitted;
    v := Decide(w, s, path, image);
    assert !v.Refused? by { RefusedNotOk(w, s, path, image); }
    InstallStarts(w, s, path, image, v);
    i := Started(w, s, path, image, v);
    j := RunScript(w, i, image.install.value);
  }

  lemma InstallStarts(w: World, s: State, path: Path, image: Image, v: Verdict)
    requires Ready(s) && path in w.images && !v.Refused? && v == Decide(w, s, path, image)
    requires KeyAt(path, s.cur) !in s.registry
    ensures var i := Started(w, s, path, image, v);
            && Ready(i) && i.cur == HomeOf(s, v) && i.loading == Some(s.nextEntry)
            && Admitted(s, i.(cur := s.cur, curEntry := s.curEntry, loading := s.loading), path, image, v)
            && i.entries.Keys == s.entries.Keys + {s.nextEntry}
  {
    hide Decide, Admit, Anc, AddLeaf, Core;
    StartedFacts(w, s, path, image, v);
    AdmitFacts(w, s, path, image, v);
  }

  /** Whatever a module that claimed a region loads lives in regions that are new. */
  lemma GrantedBelow(s: State, i: State, j: State, path: Path, image: Image, v: Verdict, x: EntryId)
    requires Core(s) && Core(j) && v.Granted? && Grows(i, j, v.id, i.loading)
    requires Admitted(s, i.(cur := s.cur, curEntry := s.curEntry, loading := s.loading), path, image, v)
    requires x in j.entries && x !in s.entries
    ensures j.entries[x].linked == j.entries[x].region && j.entries[x].region >= v.id && j.entries[x].region !in s.tree
  {
    hide KeysKept, AddLeaf, EntryOk, KeyOk, ModsOk, ListGrown;
    var r := j.entries[x].region;
    if x == s.nextEntry {
      assert EntryKept(i, j, x);
    } else {
      assert NewEntry(i, j, x, v.id, i.loading);
      AncFacts(j.tree, v.id, r);
      if r in s.tree { OldAbove(s, i, j, v, r); }
    }
  }

  lemma OldAbove(s: State, i: State, j: State, v: Verdict, r: RegionId)
    requires v.Granted? && v.id !in s.tree && Extends(s.tree, i.tree) && Extends(i.tree, j.tree)
    requires r in s.tree
    ensures r in j.tree && !Anc(j.tree, v.id, r)
  {
    hide NodeOk, IsTree;
    ExtendsAnc(s.tree, i.tree, v.id, r);
    ExtendsAnc(i.tree, j.tree, v.id, r);
    if Anc(s.tree, v.id, r) { AncFacts(s.tree, v.id, r); }
  }

  /**
   A module that claimed a region with other key digits leaves nothing registered in the region
   it was loaded into.
   */
  lemma ClaimLeavesNoKey(w: World, s: State, path: Path, image: Image, v: Verdict, j: State)
    requires Ready(s) && v.Granted? && v == Decide(w, s, path, image) && KeyAt(path, s.cur) !in s.registry
    requires var i := Started(w, s, path, image, v); Ready(j) && Grows(i, j, i.cur, i.loading)
    requires v.id / 16 != s.cur / 16
    ensures KeyAt(path, s.cur) !in j.registry
  {
    hide Decide, Admit, AddLeaf, Anc, EntryOk, KeyOk, ModsOk;
    var i := Started(w, s, path, image, v);
    AdmitFacts(w, s, path, image, v);
    HigherHome(s, i.(cur := s.cur, curEntry := s.curEntry, loading := s.loading), path, image, v);
    if KeyAt(path, s.cur) in j.registry {
      RegisteredLive(j, KeyAt(path, s.cur));
      var n := j.registry[KeyAt(path, s.cur)];
      assert n >= i.nextEntry;
      if n in s.entries { EarlierId(s, n); }
      GrantedBelow(s, i, j, path, image, v, n);
    }
  }

  /** A module taken in without a claim is what its key leads to, once its install has run. */
  lemma FlatKey(s: State, i: State, j: State, path: Path, image: Image)
    requires Admitted(s, i.(cur := s.cur, curEntry := s.curEntry, loading := s.loading), path, image, Flat)
    requires Grows(i, j, s.cur, i.loading)
    ensures KeyAt(path, s.cur) in j.registry && j.registry[KeyAt(path, s.cur)] == s.nextEntry
    ensures s.nextEntry in j.entries
    ensures var n := j.entries[s.nextEntry];
            n.path == path && n.image == image && n.region == s.cur && n.linked == s.cur && n.parent == s.loading
  {
    hide Anc;
    assert EntryKept(i, j, s.nextEntry);
  }

  /** What a list gained behind its old elements. */
  lemma TailAbove(a: seq<EntryId>, b: seq<EntryId>, bound: nat) returns (tail: seq<EntryId>)
    requires a <= b && forall k :: |a| <= k < |b| ==> b[k] >= bound
    ensures b == a + tail && forall x :: x in tail ==> x >= bound
  {
    tail := b[|a|..];
    assert forall k :: 0 <= k < |tail| ==> tail[k] == b[|a| + k];
  }

  lemma WithoutApp(a: seq<EntryId>, b: seq<EntryId>, x: EntryId)
    requires x !in a
    ensures Without(a + b, x) == a + Without(b, x)
  {
    hide IndexOf;
    IndexApp(a, b, x);
    var k := IndexOf(b, x);
    if k < |b| {
      assert (a + b)[..|a| + k] == a + b[..k];
      assert (a + b)[|a| + k + 1..] == b[k + 1..];
    }
  }

  lemma {:induction false} IndexApp(a: seq<EntryId>, b: seq<EntryId>, x: EntryId)
    ensures IndexOf(a + b, x) == if x in a then IndexOf(a, x) else |a| + IndexOf(b, x)
  {
    if a == [] {
      assert a + b == b;
    } else {
      assert (a + b)[1..] == a[1..] + b;
      IndexApp(a[1..], b, x);
    }
  }

  /** A list after a load, without the new module n: what it held before, and newer modules behind it. */
  lemma RestOfList(u: State, l: State, home: RegionId, n: EntryId) returns (tail: seq<EntryId>)
    requires Core(u) && Core(l) && Grows(u, l, u.cur, u.loading) && home in u.tree
    requires n in l.entries && n >= u.nextEntry && l.entries[n].linked in l.tree && home in l.tree
    ensures home in u.mods && home in l.mods && Detached(l, n).mods[home] == u.mods[home] + tail
    ensures NoDup(u.mods[home] + tail) && n !in u.mods[home] + tail
    ensures forall x :: x in tail ==> x >= u.nextEntry && x in l.mods[home]
  {
    hide Core, Grows, Without, Detached;
    assert home in u.mods by { HasList(u, home); }
    var grown := GrownTail(u, l, home);
    tail := Without(grown, n);
    RestIs(l, home, n);
    NotThere(u, home, n);
    WithoutApp(u.mods[home], grown, n);
    forall x | x in tail ensures x in l.mods[home] && x >= u.nextEntry { TailSub(grown, n, x); }
  }

  lemma HasList(s: State, r: RegionId)
    requires Core(s) && r in s.tree
    ensures r in s.mods
  {}

  lemma GrownTail(u: State, l: State, r: RegionId) returns (tail: seq<EntryId>)
    requires Grows(u, l, u.cur, u.loading) && r in u.mods
    ensures r in l.mods && l.mods[r] == u.mods[r] + tail && forall x :: x in tail ==> x >= u.nextEntry
  {
    hide Anc, KeysKept;
    assert ListGrown(u, l, r);
    tail := TailAbove(u.mods[r], l.mods[r], u.nextEntry);
  }

  lemma NotThere(u: State, r: RegionId, n: EntryId)
    requires Core(u) && r in u.mods && n >= u.nextEntry
    ensures n !in u.mods[r]
  {
    hide KeyOk, EntryOk;
    assert ModsOk(u, r);
    if n in u.mods[r] { EarlierId(u, n); }
  }

  /** Unlinking n leaves every list without it. */
  lemma RestIs(l: State, home: RegionId, n: EntryId)
    requires Core(l) && home in l.tree && n in l.entries && l.entries[n].linked in l.tree
    ensures home in l.mods && Detached(l, n).mods[home] == Without(l.mods[home], n)
    ensures NoDup(Without(l.mods[home], n)) && n !in Without(l.mods[home], n)
  {
    hide KeyOk, EntryOk, Without, MarkDirty;
    assert ModsOk(l, home);
    WithoutFacts(l.mods[home], n);
    if l.entries[n].linked != home { NotIn(l.mods[home], n); }
  }

  lemma TailSub(b: seq<EntryId>, n: EntryId, x: EntryId)
    requires x in Without(b, n)
    ensures x in b
  {}

  lemma NotIn(list: seq<EntryId>, n: EntryId)
    requires n !in list
    ensures Without(list, n) == list
  {}

  // ---- unloading the last reference ----

  /** The entries an unload of e leaves. */
  ghost function Survivors(s: State, e: EntryId): set<EntryId> {
    set m | m in s.entries && !Doomed(Visible(s), e, m)
  }

  lemma UnloadFrees(scan: set<EntryId> -> seq<EntryId>, s: State, e: EntryId)
    requires Core(s) && e in s.entries && RegOk(s, e) && IsScan(scan) && s.entries[e].refcount <= 1
    ensures var u := UnloadEntry(scan, s, e);
            && e !in u.entries && KeyOf(s.entries[e]) !in u.registry
            && u.entries.Keys == Survivors(s, e)
  {
    hide UnloadEntry, KeyOk, ModsOk, EntryOk, Doomed, RegOk, Visible;
    var u := UnloadEntry(scan, s, e);
    forall m | m in s.entries ensures m in u.entries <==> !Doomed(Visible(s), e, m) { DoomedGo(scan, s, e, m); }
    forall m | m in u.entries ensures m in s.entries { assert Survives(s, u, m); }
    assert Doomed(Visible(s), e, e) by { SelfDoomed(s, e); }
    KeyGone(s, u, e);
  }

  lemma DoomedGo(scan: set<EntryId> -> seq<EntryId>, s: State, e: EntryId, m: EntryId)
    requires Core(s) && e in s.entries && RegOk(s, e) && IsScan(scan) && m in s.entries
    ensures m in UnloadEntry(scan, s, e).entries <==> !Doomed(Visible(s), e, m)
  {
    hide UnloadEntry, Core, RegOk, Visible, Doomed, Hit;
    UnloadEffect(scan, s, e, m);
    DoomedIsHit(Visible(s), e, m);
    SeenCounts(s, m);
  }

  lemma SeenCounts(s: State, m: EntryId)
    requires m in s.entries
    ensures Visible(s)[m].refcount == s.entries[m].refcount
  {}

  lemma SelfDoomed(s: State, e: EntryId)
    requires e in s.entries && s.entries[e].refcount <= 1
    ensures Doomed(Visible(s), e, e)
  {}

  lemma KeyGone(s: State, u: State, e: EntryId)
    requires Core(u) && Shrinks(s, u) && e in s.entries && RegOk(s, e) && e !in u.entries
    ensures KeyOf(s.entries[e]) !in u.registry
  {
    hide EntryOk, ModsOk, Shape;
    if KeyOf(s.entries[e]) in u.registry { RegisteredLive(u, KeyOf(s.entries[e])); }
  }

  /** What stands before e survives its unload; what stands behind it is thinned out. */
  lemma SplitAtEntry(scan: set<EntryId> -> seq<EntryId>, s: State, e: EntryId)
    requires Core(s) && LineageOk(s) && e in s.entries && RegOk(s, e) && IsScan(scan) && s.entries[e].refcount <= 1
    ensures s.entries[e].linked in s.mods && e in s.mods[s.entries[e].linked]
    ensures var r, u := s.entries[e].linked, UnloadEntry(scan, s, e);
            var k := IndexOf(s.mods[r], e);
            r in u.mods && u.mods[r] == s.mods[r][..k] + Keep(s.mods[r][k + 1..], u.entries.Keys)
  {
    hide UnloadEntry, Core, RegOk, LineageOk, Survivors, Keep, IsScan, Shrinks, Spares, IndexOf, IsTree, NodeOk;
    LinkedThere(s, e);
    var r, u := s.entries[e].linked, UnloadEntry(scan, s, e);
    UnloadFrees(scan, s, e);
    ListAfter(s, u, r);
    FrontSurvives(s, r, e, u.entries.Keys);
    SplitKeep(s.mods[r], IndexOf(s.mods[r], e), u.entries.Keys);
  }

  lemma ListAfter(s: State, u: State, r: RegionId)
    requires Shrinks(s, u) && r in s.mods
    ensures r in u.mods && u.mods[r] == Keep(s.mods[r], u.entries.Keys)
  {}

  lemma SplitKeep(list: seq<EntryId>, k: nat, live: set<EntryId>)
    requires k < |list| && list[k] !in live && forall x :: x in list[..k] ==> x in live
    ensures Keep(list, live) == list[..k] + Keep(list[k + 1..], live)
  {
    assert list == list[..k] + ([list[k]] + list[k + 1..]);
    KeepApp(list[..k], [list[k]] + list[k + 1..], live);
    KeepApp([list[k]], list[k + 1..], live);
    KeepAll(list[..k], live);
  }

  lemma FrontSurvives(s: State, r: RegionId, e: EntryId, live: set<EntryId>)
    requires Core(s) && LineageOk(s) && r in s.mods && e in s.mods[r]
    requires live == Survivors(s, e)
    ensures forall x :: x in s.mods[r][..IndexOf(s.mods[r], e)] ==> x in live
  {
    hide LineageOk, EntryOk, KeyOk, Visible, Desc;
    var list, k := s.mods[r], IndexOf(s.mods[r], e);
    assert ModsOk(s, r);
    forall x | x in list[..k] ensures x in live {
      var i :| 0 <= i < k && list[i] == x;
      IndexAt(list, i);
      if Doomed(Visible(s), e, x) {
        HitIsDesc(Visible(s), e, x);
        SeenDesc(s, e, x);
        DescFollows(s, r, e, x);
      }
    }
  }

  // ---- the new place is right ----

  /** What a new module descends from is new, when nobody was loading. */
  lemma {:induction false} NewDesc(u: State, l: State, y: EntryId, n: EntryId)
    requires Core(u) && Grows(u, l, u.cur, None) && n in l.entries && n !in u.entries && Desc(l.entries, y, n)
    ensures y !in u.entries
    decreases n
  {
    hide Anc, KeysKept, KeyOk, ModsOk, EntryOk;
    assert NewEntry(u, l, n, u.cur, None);
    if y != n {
      var p := l.entries[n].parent.value;
      if p in u.entries { EarlierId(u, p); }
      NewDesc(u, l, y, p);
    }
  }

  /** No new module in a list of an old region, other than n, has n below it. */
  ghost predicate ClearOf(s: State, l: State, n: EntryId) {
    n in l.entries &&
    forall r, y :: r in s.tree && r in l.mods && y in l.mods[r] && y !in s.entries && y != n ==> !Desc(l.entries, y, n)
  }

  /**
   A successful load that nobody asked for from an install leaves under its key a module that none of the others it
   brought into old regions has loaded: it is the first one, or they are all in new regions.
   */
  lemma LoadClear(w: World, s: State, path: Path)
    requires Ready(s) && s.loading == None && KeyAt(path, s.cur) !in s.registry && Load(w, s, path).1 == OK
    requires KeyAt(path, s.cur) in Load(w, s, path).0.registry
    ensures var l := Load(w, s, path).0; ClearOf(s, l, l.registry[KeyAt(path, s.cur)])
  {
    hide AregAll, Grows, LoadNew, EntryOk, KeyOk, ModsOk, ClearOf;
    var s0 := AregAll(s, w.images[path].constructs);
    AregAllCore(s, w.images[path].constructs);
    LoadNewClear(w, s0, path, w.images[path]);
    var l := LoadNew(w, s0, path, w.images[path]).0;
    assert ClearOf(s, l, l.registry[KeyAt(path, s.cur)]) by { SameClear(s, s0, l, l.registry[KeyAt(path, s.cur)]); }
  }

  lemma SameClear(s: State, s0: State, l: State, n: EntryId)
    requires s0.tree == s.tree && s0.entries == s.entries && ClearOf(s0, l, n)
    ensures ClearOf(s, l, n)
  {}

  lemma LoadNewClear(w: World, s: State, path: Path, image: Image)
    requires Ready(s) && s.loading == None && path in w.images && KeyAt(path, s.cur) !in s.registry
    requires LoadNew(w, s, path, image).1 == OK && KeyAt(path, s.cur) in LoadNew(w, s, path, image).0.registry
    ensures var l := LoadNew(w, s, path, image).0; ClearOf(s, l, l.registry[KeyAt(path, s.cur)])
  {
    hide LoadNew, Grows, EntryOk, KeyOk, ModsOk, ClearOf, Admitted, Started;
    var v, i, j := InstallRan(w, s, path, image);
    var l := LoadNew(w, s, path, image).0;
    var n := l.registry[KeyAt(path, s.cur)];
    if v.Flat? {
      FlatKey(s, i, j, path, image);
      RootClear(s, l, n);
    } else {
      RegisteredLive(j, KeyAt(path, s.cur));
      BelowClear(s, i, j, l, path, image, v, n);
    }
  }

  lemma RootClear(s: State, l: State, n: EntryId)
    requires n in l.entries && l.entries[n].parent == None
    ensures ClearOf(s, l, n)
  {}

  lemma BelowClear(s: State, i: State, j: State, l: State, path: Path, image: Image, v: Verdict, n: EntryId)
    requires Core(s) && Core(j) && v.Granted? && Grows(i, j, v.id, i.loading) && l.entries == j.entries &&
             l.mods == j.mods
    requires Admitted(s, i.(cur := s.cur, curEntry := s.curEntry, loading := s.loading), path, image, v)
    requires n in l.entries
    ensures ClearOf(s, l, n)
  {
    hide Admitted, Grows, EntryOk, KeyOk, Desc;
    forall r, y | r in s.tree && r in l.mods && y in l.mods[r] ensures y in s.entries {
      assert ModsOk(j, r);
      if y !in s.entries { GrantedBelow(s, i, j, path, image, v, y); }
    }
  }

  /** The found module's new list has loaders first. */
  lemma NewPlaced(u: State, l: State, home: RegionId, n: EntryId, after: Option<EntryId>)
    requires Core(u) && Core(l) && LineageOk(l) && Grows(u, l, u.cur, None) && u.loading == None && home in u.tree
    requires n in l.entries && n >= u.nextEntry && CanMove(l, home, n, after) && ClearOf(u, l, n)
    requires after.Some? ==> home in u.mods && after.value in u.mods[home]
    ensures Ordered(l.entries, NewList(l, home, n, after))
  {
    hide Anc, KeysKept, EntryOk, KeyOk, LineageOk, ModsOk, MarkDirty, Without, Desc, IndexOf, Grows, Ordered, NoDup;
    LinkedThere(l, n);
    var tail := RestOfList(u, l, home, n);
    var rest := u.mods[home] + tail;
    RestOrdered(l, home, n);
    var k := if after.None? then 0 else IndexOf(rest, after.value) + 1;
    if after.Some? { IndexApp(u.mods[home], tail, after.value); assert k <= |u.mods[home]|; }
    var a, b := rest[..k], rest[k..];
    assert rest == a + b;
    forall x | x in a && x in l.entries ensures !Desc(l.entries, n, x) {
      var i :| 0 <= i < k && rest[i] == x;
      OlderHasNo(u, l, home, i, n);
    }
    forall y | y in b ensures !Desc(l.entries, y, n) {
      var i :| k <= i < |rest| && rest[i] == y;
      BehindIsClear(u, l, home, tail, i, n);
    }
    InsertOrdered(l.entries, a, n, b);
    if after.None? { assert [n] + rest == a + [n] + b; }
  }

  lemma RestOrdered(l: State, home: RegionId, n: EntryId)
    requires Core(l) && LineageOk(l) && n in l.entries && l.entries[n].linked in l.tree && home in l.tree
    ensures home in l.mods && Ordered(l.entries, Detached(l, n).mods[home])
  {
    hide EntryOk, KeyOk, ModsOk, MarkDirty, Without, Ordered;
    assert Ordered(l.entries, l.mods[home]);
    WithoutOrdered(l.entries, l.mods[home], n);
  }

  lemma OlderHasNo(u: State, l: State, home: RegionId, i: nat, n: EntryId)
    requires Core(u) && home in u.mods && i < |u.mods[home]| && n >= u.nextEntry
    ensures u.mods[home][i] in l.entries ==> !Desc(l.entries, n, u.mods[home][i])
  {
    hide EntryOk, KeyOk;
    assert ModsOk(u, home);
    var x := u.mods[home][i];
    EarlierId(u, x);
    if x in l.entries && Desc(l.entries, n, x) { DescOrder(l.entries, n, x); }
  }

  lemma BehindIsClear(u: State, l: State, home: RegionId, tail: seq<EntryId>, i: nat, n: EntryId)
    requires Core(u) && Core(l) && Grows(u, l, u.cur, None) && home in u.tree && home in u.mods && home in l.mods
    requires n in l.entries && n >= u.nextEntry && ClearOf(u, l, n) && n !in u.mods[home] + tail
    requires i < |u.mods[home] + tail| && forall x :: x in tail ==> x >= u.nextEntry && x in l.mods[home]
    ensures !Desc(l.entries, (u.mods[home] + tail)[i], n)
  {
    hide EntryOk, KeyOk, Grows;
    assert ModsOk(u, home);
    var y := (u.mods[home] + tail)[i];
    assert n !in u.entries by { if n in u.entries { EarlierId(u, n); } }
    if y in u.entries {
      if Desc(l.entries, y, n) { NewDesc(u, l, y, n); }
    } else {
      assert y in tail;
    }
  }

  // ---- reload ----

  /** What a reload unloads, what it leaves to the load, and what the load makes of it. */
  lemma ReloadParts(w: World, s: State, path: Path) returns (e: EntryId, u: State, l: State)
    requires Top(s) && IsScan(w.scan) && KeyAt(path, s.cur) in s.registry
    ensures e == s.registry[KeyAt(path, s.cur)] && e in s.entries && RegOk(s, e)
    ensures KeyOf(s.entries[e]) == KeyAt(path, s.cur)
    ensures s.entries[e].linked in s.tree && s.entries[e].linked in s.mods && e in s.mods[s.entries[e].linked]
    ensures u == UnloadEntry(w.scan, s, e) && Ready(u) && SameContext(s, u) && u.tree == s.tree
    ensures u.nextEntry == s.nextEntry && u.loading == None
    ensures l == Load(w, u, path).0
    ensures var home := s.entries[e].linked;
            && Placeable(w, u, path, home, Before(s.mods[home], e))
            && Reload(w, s, path) == Replace(w, u, path, home, Before(s.mods[home], e))
  {
    hide UnloadEntry, Load, CachesOk, DeniesOk, SymsOk, Settled, ModsOk, EntryOk, KeyOk, MarkDirty, Before, Without,
         InsertAfter, Prefixed, CtxsOk, IsScan, Counted, CanMove, Placeable, Replace, IsTree, NodeOk, Extends, Core;
    e := s.registry[KeyAt(path, s.cur)];
    RegisteredLive(s, KeyAt(path, s.cur));
    LinkedThere(s, e);
    u := UnloadEntry(w.scan, s, e);
    UnloadedReady(w.scan, s, e);
    PositionExists(w, s, path, e);
    l := Load(w, u, path).0;
  }

  /** A load the region takes in without a claim goes through, and its module is what its key leads to. */
  lemma UnclaimedLoads(w: World, s: State, path: Path)
    requires Ready(s) && path in w.images && w.images[path].install.Some? && TakesUnclaimed(s, w.images[path])
    requires KeyAt(path, s.cur) !in s.registry
    ensures Load(w, s, path).1 == OK
    ensures var l := Load(w, s, path).0;
            && KeyAt(path, s.cur) in l.registry && l.registry[KeyAt(path, s.cur)] == s.nextEntry
            && s.nextEntry in l.entries
            && var n := l.entries[s.nextEntry];
               n.path == path && n.region == s.cur && n.linked == s.cur && n.parent == s.loading
  {
    hide AregAll, LoadNew, Grows;
    var s0 := AregAll(s, w.images[path].constructs);
    AregAllCore(s, w.images[path].constructs);
    UnclaimedNew(w, s0, path, w.images[path]);
  }

  lemma UnclaimedNew(w: World, s: State, path: Path, image: Image)
    requires Ready(s) && path in w.images && KeyAt(path, s.cur) !in s.registry
    requires image.install.Some? && TakesUnclaimed(s, image)
    ensures LoadNew(w, s, path, image).1 == OK
    ensures var l := LoadNew(w, s, path, image).0;
            && KeyAt(path, s.cur) in l.registry && l.registry[KeyAt(path, s.cur)] == s.nextEntry
            && s.nextEntry in l.entries
            && var n := l.entries[s.nextEntry];
               n.path == path && n.region == s.cur && n.linked == s.cur && n.parent == s.loading
  {
    assert LoadNew(w, s, path, image).1 == OK by { UnclaimedOk(w, s, path, image); }
    hide LoadNew, Grows, Started, Admitted, Decide;
    UnclaimedNotGranted(w, s, path, image);
    var v, i, j := InstallRan(w, s, path, image);
    FlatKey(s, i, j, path, image);
  }

  lemma UnclaimedOk(w: World, s: State, path: Path, image: Image)
    requires Ready(s) && path in w.images && KeyAt(path, s.cur) !in s.registry
    requires image.install.Some? && TakesUnclaimed(s, image)
    ensures LoadNew(w, s, path, image).1 == OK
  {
    hide Grows, Admit, Bind, Withdraw, RunScript, Decide;
    UnclaimedNotGranted(w, s, path, image);
  }

  /**
   The list a reload leaves: the entry replaced in place, the doomed dropped, what the new install loaded at the
   tail.
   */
  ghost predicate ReplacedInPlace(s: State, q: State, e: EntryId, tail: seq<EntryId>)
    requires e in s.entries && s.entries[e].linked in s.mods && e in s.mods[s.entries[e].linked]
  {
    var home := s.entries[e].linked;
    var list, k := s.mods[home], IndexOf(s.mods[home], e);
    && home in q.mods && q.mods[home] == list[..k] + [s.nextEntry] + Keep(list[k + 1..], Survivors(s, e)) + tail
    && forall x :: x in tail ==> x > s.nextEntry
  }

  /**
   Reloading the only reference of a module whose image is there, installs, and need not
   claim goes through, and the new instance takes the old one's place in the list it was in.
   */
  lemma ReloadKeepsPosition(w: World, s: State, path: Path) returns (tail: seq<EntryId>)
    requires Top(s) && IsScan(w.scan) && KeyAt(path, s.cur) in s.registry
    requires var e := s.registry[KeyAt(path, s.cur)]; e in s.entries && s.entries[e].refcount == 1
    requires path in w.images && w.images[path].install.Some? && TakesUnclaimed(s, w.images[path])
    ensures Reload(w, s, path).1 == OK
    ensures var e, q := s.registry[KeyAt(path, s.cur)], Reload(w, s, path).0;
            && s.entries[e].linked in s.mods && e in s.mods[s.entries[e].linked] && ReplacedInPlace(s, q, e, tail)
            && KeyAt(path, s.cur) in q.registry && q.registry[KeyAt(path, s.cur)] == s.nextEntry
            && s.nextEntry in q.entries && q.entries[s.nextEntry].region == s.cur
            && q.entries[s.nextEntry].linked == s.entries[e].linked
  {
    hide Reload, UnloadEntry, Load, CachesOk, DeniesOk, SymsOk, Settled, KeyOk, ModsOk, EntryOk, Grows, Survivors,
         RegOk, Keep, Before, Without, InsertAfter, Prefixed, CtxsOk, Counted, CanMove, LineageOk, MarkDirty, IsTree,
         NodeOk, Extends, Shape, Replace, Placeable, Move;
    var e, u, l := ReloadParts(w, s, path);
    SettledMeans(s);
    UnloadFrees(w.scan, s, e);
    assert TakesUnclaimed(u, w.images[path]);
    UnclaimedLoads(w, u, path);
    SplitAtEntry(w.scan, s, e);
    var home, n := s.entries[e].linked, s.nextEntry;
    ReplaceIs(w, u, path, home, Before(s.mods[home], e));
    MovedFields(l, home, n, Before(s.mods[home], e));
    tail := InPlace(s, u, l, e, home, n);
  }

  /** Where a load went through, a reload moves what is under the key. */
  lemma ReplaceIs(w: World, u: State, path: Path, home: RegionId, after: Option<EntryId>)
    requires Placeable(w, u, path, home, after) && Load(w, u, path).1 == OK
    requires KeyAt(path, u.cur) in Load(w, u, path).0.registry
    ensures var l := Load(w, u, path).0;
            CanMove(l, home, l.registry[KeyAt(path, u.cur)], after) &&
            Replace(w, u, path, home, after) == (Move(l, home, l.registry[KeyAt(path, u.cur)], after), OK)
  {
    hide Load, CanMove, Core, Move;
  }

  /** The list of the reload, put together. */
  lemma InPlace(s: State, u: State, l: State, e: EntryId, home: RegionId, n: EntryId) returns (tail: seq<EntryId>)
    requires Core(u) && Core(l) && Grows(u, l, u.cur, u.loading) && home in u.tree && home in s.mods &&
             e in s.mods[home]
    requires n == u.nextEntry && n in l.entries && CanMove(l, home, n, Before(s.mods[home], e)) && home in u.mods
    requires var k := IndexOf(s.mods[home], e);
             u.mods[home] == s.mods[home][..k] + Keep(s.mods[home][k + 1..], u.entries.Keys)
    ensures var list, k := s.mods[home], IndexOf(s.mods[home], e);
            var q := Move(l, home, n, Before(list, e));
            && home in q.mods
            && q.mods[home] == list[..k] + [n] + Keep(list[k + 1..], u.entries.Keys) + tail
    ensures forall x :: x in tail ==> x > n
  {
    hide Grows, EntryOk, KeyOk, ModsOk, Keep, Without, InsertAfter, MarkDirty, Before;
    LinkedThere(l, n);
    tail := RestOfList(u, l, home, n);
    var list, k := s.mods[home], IndexOf(s.mods[home], e);
    var rest := Keep(list[k + 1..], u.entries.Keys);
    BeforeIsLast(list, e);
    SpliceBehind(list[..k], rest, tail, n);
    forall x | x in tail ensures x > n { assert x in u.mods[home] + tail; }
  }

  lemma BeforeIsLast(list: seq<EntryId>, e: EntryId)
    requires e in list
    ensures var a := list[..IndexOf(list, e)]; Before(list, e) == if a == [] then None else Some(a[|a| - 1])
  {}

  lemma SpliceBehind(a: seq<EntryId>, rest: seq<EntryId>, tail: seq<EntryId>, n: EntryId)
    requires NoDup(a + rest + tail)
    ensures var after := if a == [] then None else Some(a[|a| - 1]);
            && (after.Some? ==> after.value in a + rest + tail)
            && InsertAfter(a + rest + tail, n, after) == a + [n] + rest + tail
  {
    assert a + rest + tail == a + (rest + tail);
    assert a + [n] + rest + tail == a + [n] + (rest + tail);
    if a != [] { InsertBehindLast(a, rest + tail, n); }
  }

  lemma InsertBehindLast(a: seq<EntryId>, b: seq<EntryId>, n: EntryId)
    requires a != [] && NoDup(a + b)
    ensures a[|a| - 1] in a + b && InsertAfter(a + b, n, Some(a[|a| - 1])) == a + [n] + b
  {
    assert (a + b)[|a| - 1] == a[|a| - 1];
    IndexAt(a + b, |a| - 1);
  }

  // ---- the invariant ----

  lemma LoadCounted(w: World, s: State, path: Path)
    requires Ready(s) && Counted(s.entries)
    ensures Counted(Load(w, s, path).0.entries)
  {
    hide Load, Core, Anc;
    var l := Load(w, s, path).0;
    forall e | e in l.entries ensures l.entries[e].refcount >= 1 {
      if e in s.entries { assert EntryKept(s, l, e); } else { assert NewEntry(s, l, e, s.cur, s.loading); }
    }
  }

  lemma UnloadCounted(scan: set<EntryId> -> seq<EntryId>, s: State, e: EntryId)
    requires Core(s) && e in s.entries && RegOk(s, e) && IsScan(scan) && Counted(s.entries)
    ensures Counted(UnloadEntry(scan, s, e).entries)
  {
    hide UnloadEntry, Core, Hit, RegOk, Visible;
    var u := UnloadEntry(scan, s, e);
    forall m | m in u.entries ensures u.entries[m].refcount >= 1 {
      assert Survives(s, u, m);
      UnloadEffect(scan, s, e, m);
    }
  }

  lemma LoadTop(w: World, s: State, path: Path)
    requires Top(s)
    ensures Top(Load(w, s, path).0)
  {
    hide Load, CachesOk, DeniesOk, SymsOk, Settled, EntryOk, KeyOk, ModsOk, Counted;
    LoadInv(w, s, path);
    LoadCounted(w, s, path);
  }

  lemma UnloadTop(scan: set<EntryId> -> seq<EntryId>, s: State, e: EntryId)
    requires Top(s) && e in s.entries && RegOk(s, e) && IsScan(scan)
    ensures Top(UnloadEntry(scan, s, e)) && SameContext(s, UnloadEntry(scan, s, e))
  {
    hide UnloadEntry, CachesOk, DeniesOk, SymsOk, Settled, EntryOk, KeyOk, ModsOk, Counted, RegOk;
    UnloadEntryInv(scan, s, e);
    UnloadCounted(scan, s, e);
  }

  lemma OnlyReleased(scan: set<EntryId> -> seq<EntryId>, s: State, e: EntryId)
    requires Core(s) && e in s.entries && RegOk(s, e) && IsScan(scan) && s.entries[e].refcount > 1
    ensures UnloadEntry(scan, s, e) == Release(s, e)
  {
    hide Core, IsScan, UnloadAll, Retire, RegOk, Kids, Spares, Shrinks;
  }

  lemma RetainReleased(w: World, s: State, u: State, path: Path, e: EntryId)
    requires Core(s) && e in s.entries && u == Release(s, e) && Ready(u) && KeyAt(path, s.cur) in s.registry
    requires s.registry[KeyAt(path, s.cur)] == e && path in w.images
    ensures Load(w, u, path).1 == OK
    ensures var l := Load(w, u, path).0;
            l.entries == s.entries && l.mods == s.mods && l.registry == s.registry && l.tree == s.tree &&
            l.everStray == s.everStray
  {
    hide LoadNew, AregAll, Core, Grows;
    assert u.entries[e := u.entries[e].(refcount := u.entries[e].refcount + 1)] == s.entries;
  }

  /** Moving e back behind its own predecessor changes no list, and no place. */
  lemma MovedBack(s: State, l: State, e: EntryId)
    requires Core(s) && Shape(l) && l.entries == s.entries && l.mods == s.mods && l.registry == s.registry
    requires l.tree == s.tree && l.everStray == s.everStray && (!s.everStray ==> InStep(s.entries))
    requires e in s.entries && s.entries[e].linked in s.tree && s.entries[e].linked in s.mods
    requires e in s.mods[s.entries[e].linked]
    ensures var home := s.entries[e].linked;
            var after := Before(s.mods[home], e);
            && CanMove(l, home, e, after) && NewList(l, home, e, after) == s.mods[home]
            && var q := Move(l, home, e, after);
               && q.entries == s.entries && q.mods == s.mods && q.registry == s.registry && q.tree == s.tree
               && q.everStray == s.everStray
  {
    hide MarkDirty, Without, InsertAfter, Before, Core, IsTree, NodeOk, NoDup;
    var home := s.entries[e].linked;
    ListNoDup(s, home);
    ReinsertSame(s.mods[home], e);
    PutSame(s.mods, home, Without(s.mods[home], e));
    assert s.entries[e := s.entries[e]] == s.entries;
  }

  lemma ListNoDup(s: State, r: RegionId)
    requires Core(s) && r in s.mods
    ensures NoDup(s.mods[r])
  {
    assert ModsOk(s, r);
  }

  lemma PutSame<K, V>(m: map<K, V>, k: K, v: V)
    requires k in m
    ensures m[k := v][k := m[k]] == m
  {}

  /** A reload of a shared module whose image is there changes neither its count nor any order. */
  lemma ReloadSharedIsNeutral(w: World, s: State, path: Path)
    requires Top(s) && IsScan(w.scan) && KeyAt(path, s.cur) in s.registry && path in w.images
    requires var e := s.registry[KeyAt(path, s.cur)]; e in s.entries && s.entries[e].refcount > 1
    ensures Reload(w, s, path).1 == OK
    ensures var q := Reload(w, s, path).0;
            && q.entries == s.entries && q.mods == s.mods && q.registry == s.registry && q.tree == s.tree
            && q.everStray == s.everStray
  {
    hide UnloadEntry, Load, CachesOk, DeniesOk, SymsOk, Settled, KeyOk, ModsOk, EntryOk, MarkDirty, Reload, Prefixed,
         CtxsOk, Without, InsertAfter, Before, IsScan, Counted, RegOk, Move, CanMove;
    var e, u, l := ReloadParts(w, s, path);
    SettledMeans(s);
    OnlyReleased(w.scan, s, e);
    RetainReleased(w, s, u, path, e);
    MovedBack(s, l, e);
  }

  /** The list a reload makes has loaders first, whether the module is new or put back. */
  lemma PlacedOrdered(w: World, s: State, path: Path, e: EntryId, u: State, l: State)
    requires Top(s) && IsScan(w.scan) && KeyAt(path, s.cur) in s.registry && s.registry[KeyAt(path, s.cur)] == e
    requires e in s.entries && RegOk(s, e) && KeyOf(s.entries[e]) == KeyAt(path, s.cur)
    requires s.entries[e].linked in s.tree && s.entries[e].linked in s.mods && e in s.mods[s.entries[e].linked]
    requires u == UnloadEntry(w.scan, s, e) && Ready(u) && SameContext(s, u) && u.tree == s.tree
    requires Load(w, u, path) == (l, OK) && KeyAt(path, s.cur) in l.registry && Core(l) && LineageOk(l)
    requires var home := s.entries[e].linked;
             CanMove(l, home, l.registry[KeyAt(path, s.cur)], Before(s.mods[home], e))
    ensures var home := s.entries[e].linked;
            Ordered(l.entries, NewList(l, home, l.registry[KeyAt(path, s.cur)], Before(s.mods[home], e)))
  {
    hide UnloadEntry, Load, Inv, EntryOk, KeyOk, ModsOk, Ordered, Before, IsScan, CanMove, NewList, Grows, LineageOk,
         ClearOf;
    SettledMeans(s);
    var home, n := s.entries[e].linked, l.registry[KeyAt(path, s.cur)];
    if s.entries[e].refcount > 1 {
      OnlyReleased(w.scan, s, e);
      LoadedImage(w, u, path);
      RetainReleased(w, s, u, path, e);
      MovedBack(s, l, e);
      ListOrdered(s, home);
    } else {
      UnloadFrees(w.scan, s, e);
      FoundIsNewOrOld(s, u, l, path, e);
      RegisteredLive(l, KeyAt(path, s.cur));
      LoadClear(w, u, path);
      PredecessorSurvives(w.scan, s, e);
      NewPlaced(u, l, home, n, Before(s.mods[home], e));
    }
  }

  lemma LoadedImage(w: World, s: State, path: Path)
    requires Ready(s) && Load(w, s, path).1 == OK
    ensures path in w.images
  {
    hide LoadNew, AregAll, Grows;
  }

  lemma ListOrdered(s: State, r: RegionId)
    requires Core(s) && LineageOk(s) && r in s.tree
    ensures Ordered(s.entries, s.mods[r])
  {}

  /** As long as no two regions share the digits of their keys, what a reload finds lives where the old module was. */
  lemma FoundAtHome(s: State, u: State, l: State, path: Path, e: EntryId)
    requires Inv(s) && Core(l) && Apart(l.tree) && Grows(u, l, u.cur, u.loading) && u.tree == s.tree && u.cur == s.cur
    requires KeyAt(path, s.cur) in s.registry && s.registry[KeyAt(path, s.cur)] == e && e in s.entries
    requires KeyAt(path, s.cur) in l.registry && s.cur in l.tree && s.cur in s.tree
    ensures var n := l.registry[KeyAt(path, s.cur)]; n in l.entries && l.entries[n].region == s.entries[e].linked
  {
    hide Inv, Core, Grows, Apart;
    GrowsApart(u, l, u.cur, u.loading);
    SettledMeans(s);
    KeyLeadsHome(s, path, s.cur);
    KeyLeadsHome(l, path, s.cur);
  }

  /** Reload keeps the invariant, whatever it finds and wherever it links it. */
  lemma ReloadTop(w: World, s: State, path: Path)
    requires Top(s) && IsScan(w.scan)
    ensures Top(Reload(w, s, path).0) && SameContext(s, Reload(w, s, path).0)
  {
    hide UnloadEntry, Load, CachesOk, DeniesOk, SymsOk, Settled, EntryOk, KeyOk, ModsOk, Counted, Prefixed, CtxsOk,
         IsScan, MarkDirty, Before, InsertAfter, Apart, Without, Grows, Shrinks, Ordered, CanMove, NewList, Move,
         RegOk;
    if KeyAt(path, s.cur) in s.registry {
      var e, u, l := ReloadParts(w, s, path);
      UnloadTop(w.scan, s, e);
      LoadTop(w, u, path);
      var home := s.entries[e].linked;
      var after := Before(s.mods[home], e);
      if Load(w, u, path).1 == OK && KeyAt(path, s.cur) in l.registry {
        var n := l.registry[KeyAt(path, s.cur)];
        assert Reload(w, s, path) == (Move(l, home, n, after), OK);
        hide Replace, Reload, Placeable;
        SettledMeans(l);
        PlacedOrdered(w, s, path, e, u, l);
        CurStays(u, l);
        if Apart(l.tree) { FoundAtHome(s, u, l, path, e); }
        MovedTop(l, home, n, after);
      }
    }
  }

  lemma CurStays(u: State, l: State)
    requires Ready(l) && SameContext(u, l)
    ensures u.cur in l.tree
  {}

  lemma MovedTop(l: State, home: RegionId, n: EntryId, after: Option<EntryId>)
    requires Top(l) && CanMove(l, home, n, after) && Ordered(l.entries, NewList(l, home, n, after))
    requires Apart(l.tree) ==> n in l.entries && l.entries[n].region == home
    ensures Top(Move(l, home, n, after)) && SameContext(l, Move(l, home, n, after))
  {
    hide Inv, CanMove, NewList, Ordered, Apart, Move;
    MovedInv(l, home, n, after);
    MovedFields(l, home, n, after);
  }

  // ---- which modules a reload leaves out of step ----

  /**
   When all modules are linked in the regions that their keys and contexts name, a reload keeps it so exactly when
   it moves nothing, or the module it finds lives in the region that the old one was linked in.
   */
  lemma ReloadInStepIff(w: World, s: State, path: Path)
    requires Top(s) && IsScan(w.scan) && InStep(s.entries) && KeyAt(path, s.cur) in s.registry
    ensures s.registry[KeyAt(path, s.cur)] in s.entries
    ensures var e, q := s.registry[KeyAt(path, s.cur)], Reload(w, s, path);
            InStep(q.0.entries) <==>
              q.1 == OK && KeyAt(path, s.cur) in q.0.registry ==>
                var n := q.0.registry[KeyAt(path, s.cur)];
                n in q.0.entries && q.0.entries[n].region == s.entries[e].region
  {
    hide UnloadEntry, Load, Inv, EntryOk, KeyOk, ModsOk, Before, IsScan, CanMove, Move, RegOk, Counted, InStep, Core;
    var e, u, l := ReloadParts(w, s, path);
    InStepAfter(s, u, l);
    assert s.entries[e].linked == s.entries[e].region by { InStepAt(s.entries, e); }
    var home := s.entries[e].linked;
    if Load(w, u, path).1 == OK && KeyAt(path, s.cur) in l.registry {
      var n := l.registry[KeyAt(path, s.cur)];
      MovedFields(l, home, n, Before(s.mods[home], e));
      MovedInStep(l.entries, n, home);
    }
  }

  lemma InStepAt(es: Entries, e: EntryId)
    requires InStep(es) && e in es
    ensures es[e].linked == es[e].region
  {}

  lemma InStepAfter(s: State, u: State, l: State)
    requires InStep(s.entries) && Shrinks(s, u) && Grows(u, l, u.cur, u.loading)
    ensures InStep(l.entries)
  {
    hide Anc;
    forall x | x in l.entries ensures l.entries[x].linked == l.entries[x].region {
      if x in u.entries { assert EntryKept(u, l, x) && Survives(s, u, x); }
      else { assert NewEntry(u, l, x, u.cur, u.loading); }
    }
  }

  lemma MovedInStep(es: Entries, n: EntryId, home: RegionId)
    requires InStep(es) && n in es
    ensures InStep(es[n := es[n].(linked := home)]) <==> es[n].region == home
  {
    var q := es[n := es[n].(linked := home)];
    assert q[n].linked == home && q[n].region == es[n].region;
  }

  /**
   For a module whose only reference is reloaded without a claim, that can be seen before the call: all stays in
   step exactly when the module found under the key lives in the current region itself, not in one that shares the
   digits of its key.
   */
  lemma ReloadStaysIff(w: World, s: State, path: Path)
    requires Top(s) && IsScan(w.scan) && InStep(s.entries) && KeyAt(path, s.cur) in s.registry
    requires var e := s.registry[KeyAt(path, s.cur)]; e in s.entries && s.entries[e].refcount == 1
    requires path in w.images && w.images[path].install.Some? && TakesUnclaimed(s, w.images[path])
    ensures InStep(Reload(w, s, path).0.entries) <==> s.entries[s.registry[KeyAt(path, s.cur)]].region == s.cur
  {
    hide Reload, Top, InStep, TakesUnclaimed, IsScan;
    var tail := ReloadKeepsPosition(w, s, path);
    ReloadInStepIff(w, s, path);
  }
}
