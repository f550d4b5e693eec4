/**
 xy_unload as a function of the state (src/libxylem-module.c:141-216): the reference
 count, the cascade over the entries a module loaded, and the teardown. The cascade is
 shown to remove a least closed set, whatever order the table is iterated in.
 */
module Unloading {
  import opened Wrappers
  import opened Lists
  import opened Symbols
  import opened RegionTree
  import opened XylemState
  import opened Loading

  type Entries = map<EntryId, Entry>

  /** m is a, or was loaded by a live entry that is a or below it. */
  predicate Desc(es: Entries, a: EntryId, m: EntryId)
    requires m in es
    decreases m
  {
    m == a || (es[m].parent.Some? && es[m].parent.value < m && es[m].parent.value in es &&
      Desc(es, a, es[m].parent.value))
  }

  /** Nothing is added, counts only fall, and the lists and the table lose exactly the entries that are gone. */
  ghost predicate Shrinks(s: State, r: State) {
    && r.tree == s.tree && r.hooks == s.hooks && r.gates == s.gates && r.nextEntry == s.nextEntry && r.ctxs == s.ctxs
    && r.everShared == s.everShared && r.everDenied == s.everDenied && r.everStray == s.everStray
    && SameContext(s, r)
    && (forall k :: k in r.registry ==> k in s.registry && r.registry[k] == s.registry[k])
    && (forall m {:trigger r.entries[m]} :: m in r.entries ==> Survives(s, r, m))
    && (forall m {:trigger RegOk(r, m)} :: m in r.entries && m in s.entries && RegOk(s, m) ==> RegOk(r, m))
    && r.mods.Keys == s.mods.Keys
    && (forall x {:trigger r.mods[x]} :: x in s.mods ==> r.mods[x] == Keep(s.mods[x], r.entries.Keys))
  }

  ghost predicate Survives(s: State, r: State, m: EntryId)
    requires m in r.entries
  {
    && m in s.entries
    && r.entries[m] == s.entries[m].(refcount := r.entries[m].refcount)
    && r.entries[m].refcount <= s.entries[m].refcount
  }

  /** Entries that do not descend from any of `roots` are left alone. */
  ghost predicate Spares(s: State, r: State, roots: seq<EntryId>) {
    forall m :: m in s.entries && (forall c :: c in roots ==> !Desc(s.entries, c, m)) ==>
      m in r.entries && r.entries[m] == s.entries[m]
  }

  lemma {:induction false} DescOrder(es: Entries, a: EntryId, m: EntryId)
    requires m in es && Desc(es, a, m)
    ensures a <= m && a in es
    decreases m
  {
    if m != a { DescOrder(es, a, es[m].parent.value); }
  }

  /** Siblings have disjoint descendants. */
  lemma {:induction false} SiblingsApart(es: Entries, p: EntryId, a: EntryId, b: EntryId, m: EntryId)
    requires m in es && a in es && b in es && a != b && p < a && p < b
    requires es[a].parent == Some(p) && es[b].parent == Some(p)
    requires Desc(es, a, m)
    ensures !Desc(es, b, m)
    decreases m
  {
    if Desc(es, b, m) {
      if m == a {
        DescOrder(es, b, p);
      } else if m == b {
        DescOrder(es, a, p);
      } else {
        SiblingsApart(es, p, a, b, es[m].parent.value);
      }
    }
  }

  /** Losing entries and counts makes no new descendants. */
  lemma {:induction false} DescShrinks(s: State, r: State, a: EntryId, m: EntryId)
    requires Shrinks(s, r) && m in r.entries && Desc(r.entries, a, m)
    ensures m in s.entries && Desc(s.entries, a, m)
    decreases m
  {
    assert Survives(s, r, m);
    if m != a { DescShrinks(s, r, a, r.entries[m].parent.value); }
  }

  lemma ShrinksTrans(a: State, b: State, c: State)
    requires Shrinks(a, b) && Shrinks(b, c)
    ensures Shrinks(a, c)
  {
    forall m | m in c.entries ensures Survives(a, c, m) && (RegOk(a, m) ==> RegOk(c, m)) {
      assert Survives(b, c, m) && Survives(a, b, m);
      if RegOk(a, m) { assert RegOk(b, m); }
    }
    forall x | x in a.mods ensures c.mods[x] == Keep(a.mods[x], c.entries.Keys) {
      assert b.mods[x] == Keep(a.mods[x], b.entries.Keys);
      assert forall m :: m in c.entries ==> Survives(b, c, m);
      KeepKeep(a.mods[x], b.entries.Keys, c.entries.Keys);
    }
  }

  lemma ReleaseFacts(s: State, e: EntryId)
    requires Core(s) && e in s.entries
    ensures Core(Release(s, e)) && Shrinks(s, Release(s, e))
  {
    hide IsTree, NodeOk, Extends, Shape;
    var r := Release(s, e);
    CountCore(s, r, e);
    forall x | x in s.mods ensures r.mods[x] == Keep(s.mods[x], r.entries.Keys) {
      assert ModsOk(s, x);
      KeepAll(s.mods[x], r.entries.Keys);
    }
  }

  lemma RetireFacts(s: State, e: EntryId)
    requires Core(s) && e in s.entries && RegOk(s, e)
    ensures Core(Retire(s, e)) && Shrinks(s, Retire(s, e))
    ensures Retire(s, e).entries == s.entries - {e}
  {
    hide MarkDirty, Forget;
    EntryIsOk(s, e);
    RetireRemoves(s, e);
    RemovedCore(s, Retire(s, e), e);
    RemovedShrinks(s, Retire(s, e), e);
  }

  lemma RetireRemoves(s: State, e: EntryId)
    requires Core(s) && e in s.entries
    ensures Removed(s, Retire(s, e), e)
    ensures var r := Retire(s, e);
            && r.hooks == s.hooks && r.gates == s.gates && r.ctxs == s.ctxs && SameContext(s, r)
            && r.everShared == s.everShared && r.everDenied == s.everDenied && r.everStray == s.everStray
  {
    hide MarkDirty, Forget;
    EntryIsOk(s, e);
  }

  lemma RemovedShrinks(s: State, r: State, e: EntryId)
    requires Core(s) && Removed(s, r, e) && RegOk(s, e)
    requires r.hooks == s.hooks && r.gates == s.gates && r.ctxs == s.ctxs && SameContext(s, r)
    requires r.everShared == s.everShared && r.everDenied == s.everDenied && r.everStray == s.everStray
    ensures Shrinks(s, r)
  {
    hide RegOk, Core;
    RemovedTable(s, r, e);
    RemovedLists(s, r, e);
  }

  lemma RemovedLists(s: State, r: State, e: EntryId)
    requires Core(s) && Removed(s, r, e)
    ensures forall x {:trigger r.mods[x]} :: x in s.mods ==> x in r.mods && r.mods[x] == Keep(s.mods[x], r.entries.Keys)
  {
    hide KeyOk;
    EntryIsOk(s, e);
    forall x | x in s.mods ensures x in r.mods && r.mods[x] == Keep(s.mods[x], r.entries.Keys) {
      assert ModsOk(s, x);
      if x == s.entries[e].linked { WithoutIsKeep(s.mods[x], e, r.entries.Keys); }
      else { KeepAll(s.mods[x], r.entries.Keys); }
    }
  }

  lemma RemovedTable(s: State, r: State, e: EntryId)
    requires Removed(s, r, e) && RegOk(s, e)
    ensures forall k :: k in r.registry ==> k in s.registry && r.registry[k] == s.registry[k]
    ensures forall m {:trigger RegOk(r, m)} :: m in r.entries && m in s.entries && RegOk(s, m) ==> RegOk(r, m)
  {}

  /** The cascade's arguments: distinct live entries of the table, all loaded by p. */
  ghost predicate Kids(s: State, p: EntryId, cs: seq<EntryId>) {
    NoDup(cs) && forall c :: c in cs ==> c in s.entries && RegOk(s, c) && s.entries[c].parent == Some(p) && p < c
  }

  /** What the table holds, it holds under its own key. */
  lemma TabledIff(s: State, m: EntryId)
    requires Core(s)
    ensures m in Tabled(s) <==> m in s.entries && RegOk(s, m)
  {
    hide EntryOk, ModsOk, Shape;
    if m in Tabled(s) {
      var k :| k in s.registry && s.registry[k] == m;
      assert KeyOk(s, k);
    }
    if m in s.entries && RegOk(s, m) { assert KeyOf(s.entries[m]) in s.registry.Keys; }
  }

  lemma ChildrenAreKids(scan: set<EntryId> -> seq<EntryId>, s: State, e: EntryId)
    requires Core(s) && IsScan(scan)
    ensures Kids(s, e, ChildrenOf(scan, s, e))
    ensures forall m :: m in ChildrenOf(scan, s, e) <==>
            m in Tabled(s) && m in s.entries && m != e && s.entries[m].parent == Some(e)
  {
    hide KeyOk, ModsOk, Tabled;
    var all, kids := scan(Tabled(s)), set m | m in s.entries && m != e && s.entries[m].parent == Some(e);
    KeepNoDup(all, kids);
    forall m | m in ChildrenOf(scan, s, e) ensures e < m && RegOk(s, m) { EntryIsOk(s, m); TabledIff(s, m); }
  }

  /** While every module is registered, the table holds exactly the live modules. */
  lemma TabledIsLive(s: State)
    requires Core(s) && Registered(s)
    ensures Tabled(s) == s.entries.Keys
  {
    forall e | e in s.entries ensures e in Tabled(s) {
      assert RegOk(s, e);
      assert KeyOf(s.entries[e]) in s.registry.Keys;
    }
    forall e | e in Tabled(s) ensures e in s.entries {
      var k :| k in s.registry && s.registry[k] == e;
      assert KeyOk(s, k);
    }
  }

  lemma {:induction false} KeepNoDup(xs: seq<EntryId>, live: set<EntryId>)
    requires NoDup(xs)
    ensures NoDup(Keep(xs, live))
  {
    if xs != [] {
      assert xs == [xs[0]] + xs[1..];
      NoDupApp([xs[0]], xs[1..]);
      KeepNoDup(xs[1..], live);
      AppNoDup([xs[0]], Keep(xs[1..], live));
    }
  }

  /** _mod_unload on an entry of the table: one count less, and when none is left, the cascade and the teardown. */
  function UnloadEntry(scan: set<EntryId> -> seq<EntryId>, s: State, e: EntryId): (r: State)
    requires Core(s) && e in s.entries && RegOk(s, e) && IsScan(scan)
    ensures Core(r) && Shrinks(s, r) && Spares(s, r, [e])
    decreases s.nextEntry - e, 1, 0
  {
    hide Shrinks, Retire, ChildrenOf, EntryOk, KeyOk, ModsOk, IsScan, Spares, Kids;
    EarlierId(s, e);
    ReleaseFacts(s, e);
    var s1 := Release(s, e);
    if s1.entries[e].refcount > 0 then
      ReleaseSpares(s, e);
      s1
    else
      var kids := ChildrenOf(scan, s1, e);
      ChildrenAreKids(scan, s1, e);
      var s2 := UnloadAll(scan, s1, e, kids);
      ParentSpared(s, s1, s2, e, kids);
      RetireFacts(s2, e);
      var r := Retire(s2, e);
      ShrinksTrans(s1, s2, r);
      ShrinksTrans(s, s1, r);
      EntrySpares(s, s1, s2, r, e, kids);
      r
  }

  /**
   The loop over the collected children. Each is still there and what its key leads to when its turn
   comes; one without a context has no name to look up.
   */
  function UnloadAll(scan: set<EntryId> -> seq<EntryId>, s: State, p: EntryId, cs: seq<EntryId>): (r: State)
    requires Core(s) && IsScan(scan) && p < s.nextEntry && Kids(s, p, cs)
    ensures Core(r) && Shrinks(s, r) && Spares(s, r, cs)
    decreases s.nextEntry - p, 0, |cs|
  {
    hide Shrinks, IsScan, Spares, Kids, EntryOk, KeyOk, ModsOk;
    if cs == [] then
      NoShrink(s);
      NothingSpared(s, cs);
      s
    else
      FirstKid(s, p, cs);
      EarlierId(s, cs[0]);
      NoShrink(s);
      NothingSpared(s, [cs[0]]);
      var s1 := if s.entries[cs[0]].image.hasCtx then UnloadEntry(scan, s, cs[0]) else s;
      KidsStay(s, s1, p, cs);
      ShrinksNext(s, s1);
      var r := UnloadAll(scan, s1, p, cs[1..]);
      ShrinksTrans(s, s1, r);
      SparesTrans(s, s1, r, cs);
      r
  }

  lemma FirstKid(s: State, p: EntryId, cs: seq<EntryId>)
    requires Kids(s, p, cs) && cs != []
    ensures cs[0] in s.entries && RegOk(s, cs[0]) && s.entries[cs[0]].parent == Some(p) && p < cs[0]
  {}

  lemma NothingSpared(s: State, cs: seq<EntryId>)
    ensures Spares(s, s, cs)
  {}

  lemma NoShrink(s: State)
    requires Core(s)
    ensures Shrinks(s, s)
  {
    forall x | x in s.mods ensures s.mods[x] == Keep(s.mods[x], s.entries.Keys) {
      assert ModsOk(s, x);
      KeepAll(s.mods[x], s.entries.Keys);
    }
  }

  lemma ShrinksNext(s: State, r: State)
    requires Shrinks(s, r)
    ensures r.nextEntry == s.nextEntry
  {}

  lemma ReleaseSpares(s: State, e: EntryId)
    requires e in s.entries
    ensures Spares(s, Release(s, e), [e])
  {
    forall m | m in s.entries && (forall c :: c in [e] ==> !Desc(s.entries, c, m)) ensures m != e {
      assert e in [e];
    }
  }

  /** The kids still to be unloaded outlive the unload of the first one, and so do their keys. */
  lemma KidsStay(s: State, s1: State, p: EntryId, cs: seq<EntryId>)
    requires Kids(s, p, cs) && cs != [] && Shrinks(s, s1) && Spares(s, s1, [cs[0]])
    ensures Kids(s1, p, cs[1..])
  {
    forall c | c in cs[1..] ensures c in s1.entries && s1.entries[c] == s.entries[c] && RegOk(s1, c) {
      assert c in cs && c != cs[0];
      if Desc(s.entries, cs[0], c) { DescOrder(s.entries, cs[0], p); }
    }
  }

  lemma SparesTrans(s: State, s1: State, r: State, cs: seq<EntryId>)
    requires cs != [] && Shrinks(s, s1) && Spares(s, s1, [cs[0]]) && Spares(s1, r, cs[1..])
    ensures Spares(s, r, cs)
  {
    forall m | m in s.entries && (forall c :: c in cs ==> !Desc(s.entries, c, m))
      ensures m in r.entries && r.entries[m] == s.entries[m]
    {
      assert cs[0] in cs;
      assert m in s1.entries && s1.entries[m] == s.entries[m];
      forall c | c in cs[1..] ensures !Desc(s1.entries, c, m) {
        assert c in cs;
        if Desc(s1.entries, c, m) { DescShrinks(s, s1, c, m); }
      }
    }
  }

  /** The cascade leaves the entry it works for, and its key. */
  lemma ParentSpared(s: State, s1: State, s2: State, e: EntryId, kids: seq<EntryId>)
    requires e in s.entries && RegOk(s, e) && s1 == Release(s, e) && Kids(s1, e, kids)
    requires Shrinks(s1, s2) && Spares(s1, s2, kids)
    ensures e in s2.entries && s2.entries[e] == s1.entries[e] && RegOk(s2, e)
  {
    forall c | c in kids ensures !Desc(s1.entries, c, e) {
      if Desc(s1.entries, c, e) { DescOrder(s1.entries, c, e); }
    }
    assert RegOk(s1, e);
  }

  lemma EntrySpares(s: State, s1: State, s2: State, r: State, e: EntryId, kids: seq<EntryId>)
    requires e in s.entries && s1 == Release(s, e) && Kids(s1, e, kids) && Spares(s1, s2, kids)
    requires r.entries == s2.entries - {e}
    ensures Spares(s, r, [e])
  {
    hide RegOk, Kids;
    forall m | m in s.entries && (forall c :: c in [e] ==> !Desc(s.entries, c, m))
      ensures m in r.entries && r.entries[m] == s.entries[m]
    {
      assert e in [e];
      NotBelowKids(s, s1, e, kids, m);
    }
  }

  lemma NotBelowKids(s: State, s1: State, e: EntryId, kids: seq<EntryId>, m: EntryId)
    requires e in s.entries && s1 == Release(s, e) && Kids(s1, e, kids) && m in s.entries && !Desc(s.entries, e, m)
    ensures forall c :: c in kids ==> !Desc(s1.entries, c, m)
  {
    hide RegOk;
    forall c | c in kids ensures !Desc(s1.entries, c, m) {
      DescSame(s.entries, s1.entries, c, m);
      if Desc(s.entries, c, m) { DescThrough(s.entries, e, c, m); }
    }
  }

  /** Descent reads only the parents. */
  lemma {:induction false} DescSame(es: Entries, es': Entries, a: EntryId, m: EntryId)
    requires es'.Keys == es.Keys && m in es && forall x :: x in es ==> es'[x].parent == es[x].parent
    ensures Desc(es', a, m) <==> Desc(es, a, m)
    decreases m
  {
    if es[m].parent.Some? && es[m].parent.value < m && es[m].parent.value in es {
      DescSame(es, es', a, es[m].parent.value);
    }
  }

  /** Below a child of e is below e. */
  lemma {:induction false} DescThrough(es: Entries, e: EntryId, c: EntryId, m: EntryId)
    requires m in es && e in es && Desc(es, c, m)
    requires c in es && es[c].parent == Some(e) && e < c
    ensures Desc(es, e, m)
    decreases m
  {
    if m != c { DescThrough(es, e, c, es[m].parent.value); }
  }

  // ---- the steps of a cascade ----

  /** An unload, step by step. */
  lemma UnloadEntryIs(scan: set<EntryId> -> seq<EntryId>, s: State, e: EntryId)
    requires Core(s) && e in s.entries && RegOk(s, e) && IsScan(scan)
    ensures e < s.nextEntry
    ensures var s1 := Release(s, e);
            && s1.nextEntry == s.nextEntry && e in s1.entries && Core(s1) && Shrinks(s, s1)
            && (s1.entries[e].refcount > 0 ==> UnloadEntry(scan, s, e) == s1)
            && (s1.entries[e].refcount <= 0 ==>
                  var kids := ChildrenOf(scan, s1, e);
                  && Kids(s1, e, kids)
                  && (forall m :: m in kids <==>
                    m in Tabled(s1) && m in s1.entries && m != e && s1.entries[m].parent == Some(e))
                  && var s2 := UnloadAll(scan, s1, e, kids);
                  && Core(s2) && Shrinks(s1, s2) && e in s2.entries && s2.entries[e] == s1.entries[e] && RegOk(s2, e)
                  && UnloadEntry(scan, s, e) == Retire(s2, e))
  {
    hide Shrinks, Retire, ChildrenOf, UnloadAll, EntryOk, KeyOk, ModsOk, IsScan, Kids, Spares;
    EarlierId(s, e);
    ReleaseFacts(s, e);
    var s1 := Release(s, e);
    if s1.entries[e].refcount <= 0 {
      ChildrenAreKids(scan, s1, e);
      ParentSpared(s, s1, UnloadAll(scan, s1, e, ChildrenOf(scan, s1, e)), e, ChildrenOf(scan, s1, e));
    }
  }

  /** One turn of the loop over the children. */
  lemma ChildStep(scan: set<EntryId> -> seq<EntryId>, s: State, p: EntryId, cs: seq<EntryId>)
    requires Core(s) && IsScan(scan) && Kids(s, p, cs) && p < s.nextEntry && cs != []
    ensures cs[0] in s.entries && p < cs[0] < s.nextEntry && RegOk(s, cs[0])
    ensures var s1 := if s.entries[cs[0]].image.hasCtx then UnloadEntry(scan, s, cs[0]) else s;
            && Core(s1) && Shrinks(s, s1) && Spares(s, s1, [cs[0]]) && s1.nextEntry == s.nextEntry
            && Kids(s1, p, cs[1..])
            && UnloadAll(scan, s, p, cs) == UnloadAll(scan, s1, p, cs[1..])
  {
    hide Shrinks, UnloadEntry, IsScan, Spares, Kids, EntryOk, KeyOk, ModsOk;
    FirstKid(s, p, cs);
    EarlierId(s, cs[0]);
    NoShrink(s);
    NothingSpared(s, [cs[0]]);
    var s1 := if s.entries[cs[0]].image.hasCtx then UnloadEntry(scan, s, cs[0]) else s;
    KidsStay(s, s1, p, cs);
    ShrinksNext(s, s1);
  }

  // ---- the cascade is a closure ----

  /** m is e, or has a context and was loaded by an entry that goes. */
  predicate Hit(es: Entries, e: EntryId, m: EntryId)
    requires m in es
    decreases m, 0
  {
    m == e || (es[m].image.hasCtx && es[m].parent.Some? && es[m].parent.value < m
               && es[m].parent.value in es && Doomed(es, e, es[m].parent.value))
  }

  /** m is hit with its last reference. */
  predicate Doomed(es: Entries, e: EntryId, m: EntryId)
    requires m in es
    decreases m, 1
  {
    es[m].refcount <= 1 && Hit(es, e, m)
  }

  /** m has a context, one reference, and a live loader in c. */
  ghost predicate Follows(es: Entries, c: set<EntryId>, m: EntryId)
    requires m in es
  {
    var n := es[m];
    n.image.hasCtx && n.refcount <= 1 && n.parent.Some? && n.parent.value < m && n.parent.value in es &&
      n.parent.value in c
  }

  /** A set of live entries that contains e and, with an entry, all it loaded that have a context and one reference. */
  ghost predicate Closed(es: Entries, e: EntryId, c: set<EntryId>) {
    && e in c
    && forall m :: m in es && Follows(es, c, m) ==> m in c
  }

  /** The doomed entries are the least closed set. */
  lemma {:induction false} DoomedLeast(es: Entries, e: EntryId, c: set<EntryId>, m: EntryId)
    requires Closed(es, e, c) && m in es && Doomed(es, e, m)
    ensures m in c
    decreases m
  {
    if m != e { DoomedLeast(es, e, c, es[m].parent.value); }
  }

  lemma DoomedClosed(es: Entries, e: EntryId)
    requires e in es && es[e].refcount <= 1
    ensures Closed(es, e, set m | m in es && Doomed(es, e, m))
  {
    var c := set m | m in es && Doomed(es, e, m);
    assert Doomed(es, e, e);
    forall m | m in es && Follows(es, c, m) ensures m in c {
      assert Hit(es, e, m);
    }
  }

  lemma {:induction false} HitIsDesc(es: Entries, e: EntryId, m: EntryId)
    requires m in es && Hit(es, e, m)
    ensures Desc(es, e, m)
    decreases m
  {
    if m != e { HitIsDesc(es, e, es[m].parent.value); }
  }

  /** Being hit from c depends only on c's descendants. */
  lemma {:induction false} HitFrame(es: Entries, es': Entries, c: EntryId, m: EntryId)
    requires m in es && m in es' && es'.Keys <= es.Keys
    requires forall x :: x in es && Desc(es, c, x) ==> x in es' && es'[x] == es[x]
    requires forall x :: x in es' ==> es'[x] == es[x].(refcount := es'[x].refcount)
    ensures Hit(es', c, m) <==> Hit(es, c, m)
    decreases m
  {
    var n := es[m];
    if m != c && n.parent.Some? && n.parent.value < m && n.parent.value in es {
      var p := n.parent.value;
      if p in es' {
        HitFrame(es, es', c, p);
        if Hit(es, c, p) { HitIsDesc(es, c, p); }
      } else if Hit(es, c, p) {
        HitIsDesc(es, c, p);
      }
    }
  }

  /** The effect of one unload on entry m: gone when doomed, one reference less when hit. */
  ghost predicate Effect(es: Entries, es': Entries, m: EntryId, hit: bool)
    requires m in es
  {
    && (m in es' <==> !(hit && es[m].refcount <= 1))
    && (m in es' ==> es'[m] == es[m].(refcount := es[m].refcount - (if hit then 1 else 0)))
  }

  /** Some child in cs that has a context hits m. */
  ghost predicate HitByAny(es: Entries, cs: seq<EntryId>, m: EntryId)
    requires m in es
  {
    exists c :: c in cs && c in es && es[c].image.hasCtx && Hit(es, c, m)
  }

  /** The entries as the cascade sees them: one that is not in the table is nobody's child. */
  function Visible(s: State): (v: Entries)
    ensures v.Keys == s.entries.Keys
  {
    map m | m in s.entries :: if m in Tabled(s) then s.entries[m] else s.entries[m].(parent := None)
  }

  /** _mod_unload removes exactly the doomed entries it sees and takes one reference from exactly the others it hits. */
  lemma {:induction false} UnloadEffect(scan: set<EntryId> -> seq<EntryId>, s: State, e: EntryId, m: EntryId)
    requires Core(s) && e in s.entries && RegOk(s, e) && IsScan(scan) && m in s.entries
    ensures Effect(s.entries, UnloadEntry(scan, s, e).entries, m, Hit(Visible(s), e, m))
    decreases s.nextEntry - e, 1, 0
  {
    hide Core, Hit, HitByAny, Effect, Spares, IsScan, UnloadEntry, Shrinks, Retire, ChildrenOf, UnloadAll, Tabled,
         Kids, Visible, RegOk;
    UnloadEntryIs(scan, s, e);
    var s1 := Release(s, e);
    if s1.entries[e].refcount > 0 {
      KeptEffect(s, e, m);
    } else {
      var kids := ChildrenOf(scan, s1, e);
      var s2 := UnloadAll(scan, s1, e, kids);
      RetireFacts(s2, e);
      UnloadAllEffect(scan, s1, e, kids, m);
      SameTable(s, e);
      EffectThrough(s, s2.entries, e, kids, m);
    }
  }

  lemma SameTable(s: State, e: EntryId)
    requires e in s.entries
    ensures Tabled(Release(s, e)) == Tabled(s)
  {}

  lemma KeptEffect(s: State, e: EntryId, m: EntryId)
    requires e in s.entries && m in s.entries && s.entries[e].refcount > 1
    ensures Effect(s.entries, Release(s, e).entries, m, Hit(Visible(s), e, m))
  {
    if m != e { NotHitBelow(Visible(s), e, m); }
  }

  /** The cascade's effect below e, and then e itself gone. */
  lemma EffectThrough(s: State, es2: Entries, e: EntryId, kids: seq<EntryId>, m: EntryId)
    requires Core(s) && e in s.entries && s.entries[e].refcount <= 1 && m in s.entries
    requires forall x :: x in kids <==> x in Tabled(s) && x in s.entries && x != e && s.entries[x].parent == Some(e)
    requires Effect(Release(s, e).entries, es2, m, HitByAny(Visible(Release(s, e)), kids, m))
    ensures Effect(s.entries, es2 - {e}, m, Hit(Visible(s), e, m))
  {
    hide HitByAny, Core, Tabled;
    var es := Visible(s);
    ReleaseSeen(s, e);
    ParentsEarlier(s);
    if m != e { HitThroughKids(es, e, kids, m); }
  }

  lemma ReleaseSeen(s: State, e: EntryId)
    requires e in s.entries
    ensures var es := Visible(s); Visible(Release(s, e)) == es[e := es[e].(refcount := es[e].refcount - 1)]
  {
    hide Tabled;
    SameTable(s, e);
  }

  lemma ParentsEarlier(s: State)
    requires Core(s)
    ensures var es := Visible(s); forall x :: x in es && es[x].parent.Some? ==> es[x].parent.value < x
  {
    hide KeyOk, ModsOk, Tabled;
    forall x | x in s.entries && s.entries[x].parent.Some? ensures s.entries[x].parent.value < x { EntryIsOk(s, x); }
  }

  lemma {:induction false} NotHitBelow(es: Entries, e: EntryId, m: EntryId)
    requires e in es && m in es && es[e].refcount > 1 && m != e
    ensures !Hit(es, e, m)
    decreases m
  {
    var n := es[m];
    if n.parent.Some? && n.parent.value < m && n.parent.value in es && n.parent.value != e {
      NotHitBelow(es, e, n.parent.value);
    }
  }

  lemma {:induction false} UnloadAllEffect(scan: set<EntryId> -> seq<EntryId>, s: State, p: EntryId, cs: seq<EntryId>,
                                           m: EntryId)
    requires Core(s) && IsScan(scan) && Kids(s, p, cs) && p < s.nextEntry && m in s.entries
    ensures Effect(s.entries, UnloadAll(scan, s, p, cs).entries, m, HitByAny(Visible(s), cs, m))
    decreases s.nextEntry - p, 0, |cs|
  {
    hide Shrinks, UnloadEntry, Spares, Hit, HitByAny, IsScan, Core, Kids, Visible, RegOk, Tabled;
    if cs == [] {
      assert !HitByAny(Visible(s), cs, m) by { NoneHit(Visible(s), m); }
    } else {
      ChildStep(scan, s, p, cs);
      var s1 := if s.entries[cs[0]].image.hasCtx then UnloadEntry(scan, s, cs[0]) else s;
      if s.entries[cs[0]].image.hasCtx { UnloadEffect(scan, s, cs[0], m); }
      if m in s1.entries { UnloadAllEffect(scan, s1, p, cs[1..], m); }
      else { GoneStaysGone(scan, s1, p, cs[1..], m); }
      OneThenRest(s, s1, p, cs, m);
    }
  }

  lemma NoneHit(es: Entries, m: EntryId)
    requires m in es
    ensures !HitByAny(es, [], m)
  {}

  lemma GoneStaysGone(scan: set<EntryId> -> seq<EntryId>, s: State, p: EntryId, cs: seq<EntryId>, m: EntryId)
    requires Core(s) && IsScan(scan) && Kids(s, p, cs) && p < s.nextEntry && m !in s.entries
    ensures m !in UnloadAll(scan, s, p, cs).entries
  {
    hide UnloadAll, Kids, RegOk;
    var r := UnloadAll(scan, s, p, cs);
    forall x | x in r.entries ensures x in s.entries { assert Survives(s, r, x); }
  }

  /** Survivors stay in or out of the table. */
  lemma TableStays(s: State, r: State, x: EntryId)
    requires Core(s) && Core(r) && Shrinks(s, r) && x in r.entries
    ensures x in Tabled(r) <==> x in Tabled(s)
  {
    hide EntryOk, KeyOk, ModsOk, Tabled;
    assert Survives(s, r, x);
    TabledIff(s, x);
    TabledIff(r, x);
    if RegOk(s, x) { assert RegOk(r, x); }
  }

  /** Unloading the first child neither adds to nor takes from what the others hit. */
  lemma OneThenRest(s: State, s1: State, p: EntryId, cs: seq<EntryId>, m: EntryId)
    requires Core(s) && Core(s1) && Kids(s, p, cs) && cs != [] && m in s.entries && cs[0] in s.entries
    requires Shrinks(s, s1) && Spares(s, s1, [cs[0]]) && Kids(s1, p, cs[1..])
    ensures var es := Visible(s);
            && (HitByAny(es, cs, m) <==>
                  (s.entries[cs[0]].image.hasCtx && Hit(es, cs[0], m)) || HitByAny(es, cs[1..], m))
            && (Hit(es, cs[0], m) ==> !HitByAny(es, cs[1..], m))
    ensures m in s1.entries ==> (HitByAny(Visible(s1), cs[1..], m) <==> HitByAny(Visible(s), cs[1..], m))
  {
    hide Shrinks, Spares, Hit, Core, RegOk, Tabled;
    assert forall c :: c in cs <==> c == cs[0] || c in cs[1..];
    OthersMiss(s, p, cs, m);
    if m in s1.entries {
      forall c | c in cs[1..]
        ensures c in s1.entries && Visible(s1)[c] == Visible(s)[c] &&
                (Hit(Visible(s1), c, m) <==> Hit(Visible(s), c, m))
      {
        RestFrame(s, s1, p, cs, c, m);
      }
    }
  }

  lemma OthersMiss(s: State, p: EntryId, cs: seq<EntryId>, m: EntryId)
    requires Core(s) && Kids(s, p, cs) && cs != [] && m in s.entries && cs[0] in s.entries
    ensures var es := Visible(s);
            Hit(es, cs[0], m) ==> forall c :: c in cs[1..] && c in es ==> !Hit(es, c, m)
  {
    hide Core, Tabled;
    var es := Visible(s);
    forall c | c in cs ensures c in es && es[c].parent == Some(p) { TabledIff(s, c); }
    forall c | c in cs[1..] ensures Hit(es, cs[0], m) ==> !Hit(es, c, m) {
      assert c in cs && c != cs[0] && cs[0] in cs;
      if Hit(es, cs[0], m) && Hit(es, c, m) {
        HitIsDesc(es, cs[0], m);
        HitIsDesc(es, c, m);
        SiblingsApart(es, p, cs[0], c, m);
      }
    }
  }

  lemma RestFrame(s: State, s1: State, p: EntryId, cs: seq<EntryId>, c: EntryId, m: EntryId)
    requires Core(s) && Core(s1) && Kids(s, p, cs) && cs != [] && c in cs[1..] && m in s.entries && m in s1.entries
    requires Shrinks(s, s1) && Spares(s, s1, [cs[0]])
    ensures c in s1.entries && Visible(s1)[c] == Visible(s)[c]
    ensures Hit(Visible(s1), c, m) <==> Hit(Visible(s), c, m)
  {
    hide Core, Tabled;
    assert c in cs && c != cs[0];
    forall x | x in s.entries && Desc(s.entries, c, x) ensures x in s1.entries && s1.entries[x] == s.entries[x] {
      SiblingsApart(s.entries, p, c, cs[0], x);
    }
    forall x | x in s1.entries
      ensures x in s.entries && Visible(s1)[x] == Visible(s)[x].(refcount := Visible(s1)[x].refcount)
      ensures s1.entries[x] == s.entries[x] ==> Visible(s1)[x] == Visible(s)[x]
    {
      assert Survives(s, s1, x);
      TableStays(s, s1, x);
    }
    forall x | x in Visible(s) && Desc(Visible(s), c, x) ensures x in s1.entries && Visible(s1)[x] == Visible(s)[x] {
      SeenDesc(s, c, x);
    }
    HitFrame(Visible(s), Visible(s1), c, m);
  }

  /** What the cascade sees below an entry is below it. */
  lemma {:induction false} SeenDesc(s: State, a: EntryId, m: EntryId)
    requires m in s.entries && Desc(Visible(s), a, m)
    ensures Desc(s.entries, a, m)
    decreases m
  {
    if m != a { SeenDesc(s, a, s.entries[m].parent.value); }
  }

  /** What e hits below itself is what its children hit, once its own last count is gone. */
  lemma {:induction false} HitThroughKids(es: Entries, e: EntryId, kids: seq<EntryId>, m: EntryId)
    requires forall x :: x in es && es[x].parent.Some? ==> es[x].parent.value < x
    requires e in es && es[e].refcount <= 1 && m in es && m != e
    requires forall x :: x in kids <==> x in es && x != e && es[x].parent == Some(e)
    ensures Hit(es, e, m) <==> HitByAny(es[e := es[e].(refcount := es[e].refcount - 1)], kids, m)
    decreases m
  {
    var es1 := es[e := es[e].(refcount := es[e].refcount - 1)];
    var n := es[m];
    if n.parent == Some(e) {
      assert Doomed(es, e, e);
      if n.image.hasCtx { assert m in kids && Hit(es1, m, m); }
      else {
        forall c | c in kids && es1[c].image.hasCtx ensures !Hit(es1, c, m) {}
      }
    } else {
      if n.parent.Some? && n.parent.value in es { HitThroughKids(es, e, kids, n.parent.value); }
      forall c | c in kids
        ensures Hit(es1, c, m) <==>
                (n.image.hasCtx && n.parent.Some? && n.parent.value in es && es[n.parent.value].refcount <= 1 &&
                 Hit(es1, c, n.parent.value))
      {
        assert c != m;
      }
    }
  }

  // ---- when it is the documented cascade ----

  /** An unload touches nothing that does not descend from its root through entries of the table. */
  lemma UnloadSpares(scan: set<EntryId> -> seq<EntryId>, s: State, e: EntryId, m: EntryId)
    requires Core(s) && e in s.entries && RegOk(s, e) && IsScan(scan) && m in s.entries && !Desc(Visible(s), e, m)
    ensures m in UnloadEntry(scan, s, e).entries && UnloadEntry(scan, s, e).entries[m] == s.entries[m]
  {
    hide UnloadEntry, Core, Visible, RegOk, Hit;
    UnloadEffect(scan, s, e, m);
    if Hit(Visible(s), e, m) { HitIsDesc(Visible(s), e, m); }
  }

  /** What the cascade sees doomed is doomed; all that is doomed is seen so if none of it is missing from the table. */
  lemma {:induction false} SeenDoomed(s: State, e: EntryId, m: EntryId)
    requires m in s.entries
    ensures Doomed(Visible(s), e, m) ==> Doomed(s.entries, e, m)
    ensures (forall x :: x in s.entries && x != e && Doomed(s.entries, e, x) ==> x in Tabled(s)) ==>
              (Doomed(Visible(s), e, m) <==> Doomed(s.entries, e, m))
    decreases m
  {
    hide Tabled;
    var p := s.entries[m].parent;
    if m != e && p.Some? && p.value < m && p.value in s.entries { SeenDoomed(s, e, p.value); }
    DoomedIsHit(Visible(s), e, m);
    DoomedIsHit(s.entries, e, m);
    if m != e && m !in Tabled(s) { assert !Hit(Visible(s), e, m); }
  }

  /**
   The documented cascade is the closure of "loaded by a removed module, last reference, has a context". An unload
   removes exactly that closure iff no module of it, other than the one unloaded, is missing from the table.
   */
  lemma UnloadDocumentedIff(scan: set<EntryId> -> seq<EntryId>, s: State, e: EntryId)
    requires Core(s) && e in s.entries && RegOk(s, e) && IsScan(scan)
    ensures (forall m :: m in s.entries ==> (m !in UnloadEntry(scan, s, e).entries <==> Doomed(s.entries, e, m)))
            <==> forall m :: m in s.entries && m != e && Doomed(s.entries, e, m) ==> m in Tabled(s)
  {
    hide UnloadEntry, Core, RegOk, Tabled, Doomed;
    var u := UnloadEntry(scan, s, e);
    forall m | m in s.entries ensures m !in u.entries <==> Doomed(Visible(s), e, m) {
      UnloadEffect(scan, s, e, m);
      DoomedIsHit(Visible(s), e, m);
    }
    forall m | m in s.entries && m != e && m !in Tabled(s) ensures !Doomed(Visible(s), e, m) { UnseenStays(s, e, m); }
    forall m | m in s.entries
      ensures (forall x :: x in s.entries && x != e && Doomed(s.entries, e, x) ==> x in Tabled(s)) ==>
                (Doomed(Visible(s), e, m) <==> Doomed(s.entries, e, m))
    {
      SeenDoomed(s, e, m);
    }
  }

  lemma DoomedIsHit(es: Entries, e: EntryId, m: EntryId)
    requires m in es
    ensures Doomed(es, e, m) <==> es[m].refcount <= 1 && Hit(es, e, m)
  {}

  lemma UnseenStays(s: State, e: EntryId, m: EntryId)
    requires m in s.entries && m != e && m !in Tabled(s)
    ensures !Doomed(Visible(s), e, m)
  {}
}
