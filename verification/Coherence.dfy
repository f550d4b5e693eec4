/**
 A call through the caches runs what a recomputation would run: the rebuild computes the
 reference vector, refreshing keeps the invariant, and skipping the ancestor walk on a
 clear flag is exact under a stated condition.
 */
module Coherence {
  import opened Lists
  import opened Symbols
  import opened RegionTree
  import opened Keys
  import opened XylemState
  import opened Loading
  import opened Unloading
  import opened Dispatch
  import opened Invariants
  import opened Steps

  // ---- deny flags ----

  /** A flagged region's ancestors are all flagged. */
  lemma {:induction false} FlagsUp(s: State, a: RegionId, r: RegionId)
    requires Shape(s) && DeniesOk(s) && r in s.tree && Anc(s.tree, a, r) && s.denies[r].flag
    ensures a in s.tree && s.denies[a].flag
    decreases s.tree[r].depth
  {
    assert NodeOk(s.tree, r) && DenyOk(s, r);
    if a != r { FlagsUp(s, a, s.tree[r].parent.value); }
  }

  /** Every region holding a deny is flagged, and so are all its ancestors. */
  lemma HoldersFlagged(s: State, a: RegionId, r: RegionId)
    requires Shape(s) && DeniesOk(s) && r in s.tree && Anc(s.tree, a, r)
    requires s.denies[r].hooks != {} || s.denies[r].mods != {}
    ensures a in s.tree && s.denies[a].flag
  {
    assert DenyOk(s, r);
    FlagsUp(s, a, r);
  }

  /**
   The documented deny covers a region's descendants. Skipping the chain walk on a clear
   flag gives the documented verdict exactly when the caller is flagged or no proper
   ancestor denies the hook.
   */
  lemma HookVerdictExactIff(s: State, r: RegionId, name: Hook)
    requires Shape(s) && DeniesOk(s) && r in s.tree
    ensures (HookDenied(s.denies, DenyChain(s, r), name) <==> HookDenied(s.denies, Chain(s.tree, r), name))
            <==> (s.denies[r].flag || forall a :: a in Chain(s.tree, r) && a != r ==> name !in s.denies[a].hooks)
  {
    assert DenyOk(s, r);
    ChainFits(s.tree, r);
  }

  /** The same for module denies: the filter of a rebuild against the documented one. */
  lemma ModVerdictExactIff(s: State, r: RegionId, path: Path)
    requires Shape(s) && DeniesOk(s) && r in s.tree
    ensures (ModDenied(s.denies, DenyChain(s, r), path) <==> ModDenied(s.denies, Chain(s.tree, r), path))
            <==> (s.denies[r].flag || forall a :: a in Chain(s.tree, r) && a != r ==> path !in s.denies[a].mods)
  {
    assert DenyOk(s, r);
    ChainFits(s.tree, r);
  }

  /** With no module deny in any proper ancestor, the filter is the region's own deny list. */
  lemma OwnDenies(s: State, r: RegionId, path: Path)
    requires Shape(s) && DeniesOk(s) && r in s.tree && NoDenyAbove(s, r)
    ensures ModDenied(s.denies, DenyChain(s, r), path) <==> path in s.denies[r].mods
  {
    assert DenyOk(s, r);
    ChainFits(s.tree, r);
    assert Chain(s.tree, r)[s.tree[r].depth] == r;
    forall a | a in Chain(s.tree, r) && a != r ensures path !in s.denies[a].mods {
      assert Anc(s.tree, a, r) && DenyOk(s, a);
    }
  }

  /** A region's own module denies are never skipped. */
  lemma OwnDenyListed(s: State, r: RegionId, path: Path)
    requires Shape(s) && DeniesOk(s) && r in s.tree && path in s.denies[r].mods
    ensures ModDenied(s.denies, DenyChain(s, r), path)
  {
    assert DenyOk(s, r);
    assert Chain(s.tree, r)[s.tree[r].depth] == r;
  }

  // ---- the rebuild ----

  /** Every symbol cache is sound; `agreed` says whether bits and slots also agree. */
  ghost predicate Tabs(es: Entries, syms: map<EntryId, SymTab>, hooks: seq<Hook>, agreed: bool) {
    && syms.Keys == es.Keys
    && forall e {:trigger syms[e]} :: e in es ==>
      Sound(syms[e], es[e].image.Syms(), hooks) && (agreed ==> Agree(syms[e]))
  }

  lemma AskedSound(t: SymTab, x: Exports, hooks: seq<Hook>, h: nat, agreed: bool)
    requires h < |hooks| && Sound(t, x, hooks) && (agreed ==> Agree(t))
    ensures Sound(Asked(t, x, h, hooks[h]), x, hooks)
    ensures agreed ==> Agree(Asked(t, x, h, hooks[h]))
    ensures agreed ==> (h in Asked(t, x, h, hooks[h]).impl <==> hooks[h] in x.exports)
    ensures agreed && h in Asked(t, x, h, hooks[h]).impl ==>
            FnAt(Asked(t, x, h, hooks[h]), h) == Found(x.image, hooks[h])
  {
    if h !in t.impl { ResolveSound(t, x, hooks, h); }
  }

  /** The scan keeps the symbol caches sound and takes slots from the list only. */
  lemma {:induction false} GatherSound(es: Entries, syms: map<EntryId, SymTab>, denies: map<RegionId, Denies>,
                                       chain: seq<RegionId>,
                                       h: nat, hooks: seq<Hook>, list: seq<EntryId>, agreed: bool)
    requires h < |hooks| && Tabs(es, syms, hooks, agreed)
    ensures var g := Gather(es, syms, denies, chain, h, hooks[h], list);
            && Tabs(es, g.1, hooks, agreed)
            && forall i :: 0 <= i < |g.0| ==>
              g.0[i].me in list && g.0[i].me in es && !ModDenied(denies, chain, es[g.0[i].me].path)
  {
    hide Sound, Agree, Asked, ModDenied;
    if list != [] {
      var m := list[0];
      if m !in es || !es[m].image.hasCtx || ModDenied(denies, chain, es[m].path) {
        GatherSound(es, syms, denies, chain, h, hooks, list[1..], agreed);
      } else {
        AskedSound(syms[m], es[m].image.Syms(), hooks, h, agreed);
        GatherSound(es, syms[m := Asked(syms[m], es[m].image.Syms(), h, hooks[h])], denies, chain, h, hooks, list[1..],
          agreed);
      }
    }
  }

  /** While bits and slots agree, the scan computes the reference vector. */
  lemma {:induction false} GatherIsListening(es: Entries, syms: map<EntryId, SymTab>, denies: map<RegionId, Denies>,
                                             chain: seq<RegionId>,
                                             h: nat, hooks: seq<Hook>, list: seq<EntryId>, banned: set<Path>)
    requires h < |hooks| && Tabs(es, syms, hooks, true)
    requires forall p: Path :: ModDenied(denies, chain, p) <==> p in banned
    ensures Gather(es, syms, denies, chain, h, hooks[h], list).0 == Listening(es, banned, hooks[h], list)
  {
    hide Sound, Agree, Asked, ModDenied, FnAt;
    if list != [] {
      var m := list[0];
      if m !in es || !es[m].image.hasCtx || ModDenied(denies, chain, es[m].path) {
        GatherIsListening(es, syms, denies, chain, h, hooks, list[1..], banned);
      } else {
        AskedSound(syms[m], es[m].image.Syms(), hooks, h, true);
        GatherIsListening(es, syms[m := Asked(syms[m], es[m].image.Syms(), h, hooks[h])], denies, chain, h, hooks,
          list[1..], banned);
      }
    }
  }

  // ---- refreshing ----

  lemma RefreshCore(s: State, r: RegionId, h: nat)
    requires Core(s) && r in s.tree && h < |s.hooks|
    ensures Core(Refresh(s, r, h))
  {
    hide Refresh;
    CoreFrame(s, Refresh(s, r, h));
  }

  lemma FreshListOk(s: State, r: RegionId)
    requires Shape(s) && r in s.tree && CacheOk(s, r)
    ensures var c := FreshList(s, r);
            && !c.dirty && c.subtree == Dfs(s.tree, s.mods, r) && c.gen == s.caches[r].gen &&
              c.hooks == s.caches[r].hooks
            && forall k :: 0 <= k < |c.hooks| && c.hooks[k].gen == c.gen ==> c == s.caches[r]
  {
    hide Dfs;
    forall k | 0 <= k < |s.caches[r].hooks| ensures s.caches[r].hooks[k].gen == s.caches[r].gen ==> !s.caches[r].dirty {
      assert SlotsOk(s, r, k);
    }
  }

  /** The vector a rebuild makes. */
  function Rebuilt(s: State, r: RegionId, h: nat): HookCache
    requires Shape(s) && r in s.tree && h < |s.hooks|
  {
    var chain := DenyChain(s, r);
    HookCache(Gather(s.entries, s.syms, s.denies, chain, h, s.hooks[h], Dfs(s.tree, s.mods, r)).0, s.caches[r].gen,
              BannedBy(s.denies, chain))
  }

  lemma RefreshIs(s: State, r: RegionId, h: nat)
    requires Shape(s) && r in s.tree && h < |s.hooks|
    ensures var c := FreshList(s, r);
            var hs := GrowHooks(c.hooks, h);
            var g := Gather(s.entries, s.syms, s.denies, DenyChain(s, r), h, s.hooks[h], c.subtree);
            Refresh(s, r, h).caches[r] ==
              if hs[h].gen == c.gen then c.(hooks := hs)
              else c.(hooks := hs[h := HookCache(g.0, c.gen, BannedBy(s.denies, DenyChain(s, r)))])
  {
    hide FreshList, GrowHooks, Gather, DenyChain, BannedBy, IsTree, NodeOk;
  }

  /** What refreshing makes of the region's record, vector by vector. */
  lemma RefreshRecord(s: State, r: RegionId, h: nat)
    requires Shape(s) && r in s.tree && h < |s.hooks| && CacheOk(s, r)
    ensures var was, c := s.caches[r], Refresh(s, r, h).caches[r];
            && c.gen == was.gen && !c.dirty && c.subtree == Dfs(s.tree, s.mods, r)
            && h < |c.hooks| && |was.hooks| <= |c.hooks|
            && forall k :: 0 <= k < |c.hooks| ==>
                 var v := if k < |was.hooks| then was.hooks[k] else NO_HOOK_CACHE;
                 c.hooks[k] == if k == h && v.gen != c.gen then Rebuilt(s, r, h) else v
  {
    hide Dfs, Gather, DenyChain, CacheOk, IsTree, NodeOk, Refresh, FreshList, GrowHooks;
    FreshListOk(s, r);
    RefreshIs(s, r, h);
  }

  /** What a refreshed region's record looks like: the vector of h is current, and right. */
  lemma RefreshedCache(s: State, r: RegionId, h: nat)
    requires Inv(s) && r in s.tree && h < |s.hooks|
    ensures var q := Refresh(s, r, h); CacheOk(q, r) && q.caches[r].hooks[h].gen == q.caches[r].gen
  {
    hide Refresh, Dfs, Gather, DenyChain, NoDenyAbove, EntryOk, KeyOk, ModsOk, DenyOk, SymOk, Settled, SlotsOk,
         IsTree, NodeOk;
    assert CacheOk(s, r);
    RefreshRecord(s, r, h);
    forall k | 0 <= k < |Refresh(s, r, h).caches[r].hooks| ensures SlotsOk(Refresh(s, r, h), r, k) {
      RefreshedSlots(s, r, h, k);
    }
  }

  lemma RefreshedSlots(s: State, r: RegionId, h: nat, k: nat)
    requires Inv(s) && r in s.tree && h < |s.hooks| && k < |Refresh(s, r, h).caches[r].hooks|
    ensures SlotsOk(Refresh(s, r, h), r, k)
  {
    hide Refresh, Dfs, Gather, DenyChain, NoDenyAbove, EntryOk, KeyOk, ModsOk, DenyOk, SymOk, Settled, IsTree, NodeOk;
    assert CacheOk(s, r);
    RefreshRecord(s, r, h);
    DeniedAboveFrame(s, Refresh(s, r, h), r);
    if k < |s.caches[r].hooks| { assert SlotsOk(s, r, k); }
    if k == h { RebuiltSlots(s, r, h); }
  }

  lemma DeniedAboveFrame(s: State, q: State, r: RegionId)
    requires r in s.tree && q.tree == s.tree && q.everDenied == s.everDenied
    ensures NoDenyAbove(q, r) <==> NoDenyAbove(s, r)
  {}

  lemma RebuiltSlots(s: State, r: RegionId, h: nat)
    requires Inv(s) && r in s.tree && h < |s.hooks|
    ensures var list := Dfs(s.tree, s.mods, r);
            var g := Gather(s.entries, s.syms, s.denies, DenyChain(s, r), h, s.hooks[h], list);
            && Tabs(s.entries, g.1, s.hooks, !s.everShared)
            && (forall i :: 0 <= i < |g.0| ==> g.0[i].me in list && Admissible(s.entries, s.denies[r].mods, g.0[i].me))
            && var banned := BannedBy(s.denies, DenyChain(s, r));
            && (!s.everShared ==> g.0 == Listening(s.entries, banned, s.hooks[h], list))
            && (NoDenyAbove(s, r) ==> banned == s.denies[r].mods)
  {
    hide Dfs, Gather, CacheOk, EntryOk, KeyOk, ModsOk, Settled, DenyChain, ModDenied, BannedBy, IsTree, NodeOk;
    var list, banned := Dfs(s.tree, s.mods, r), BannedBy(s.denies, DenyChain(s, r));
    TabsOfInv(s);
    GatherSound(s.entries, s.syms, s.denies, DenyChain(s, r), h, s.hooks, list, !s.everShared);
    forall p: Path | p in s.denies[r].mods ensures ModDenied(s.denies, DenyChain(s, r), p) { OwnDenyListed(s, r, p); }
    if !s.everShared { GatherIsListening(s.entries, s.syms, s.denies, DenyChain(s, r), h, s.hooks, list, banned); }
    if NoDenyAbove(s, r) {
      forall p: Path ensures p in banned <==> p in s.denies[r].mods { OwnDenies(s, r, p); }
    }
  }

  lemma TabsOfInv(s: State)
    requires Shape(s) && SymsOk(s)
    ensures Tabs(s.entries, s.syms, s.hooks, !s.everShared)
  {
    forall e | e in s.entries
      ensures Sound(s.syms[e], s.entries[e].image.Syms(), s.hooks) && (!s.everShared ==> Agree(s.syms[e]))
    {
      assert SymOk(s, e);
    }
  }

  lemma RefreshInv(s: State, r: RegionId, h: nat)
    requires Inv(s) && r in s.tree && h < |s.hooks|
    ensures Inv(Refresh(s, r, h))
  {
    hide Dfs, Gather, CacheOk, EntryOk, KeyOk, ModsOk, Settled, DenyOk, Refresh, NoDenyAbove, Tabs, SymOk, Ordered;
    var q := Refresh(s, r, h);
    RefreshCore(s, r, h);
    RefreshedCache(s, r, h);
    RefreshedSyms(s, r, h);
    OthersRefreshed(s, r, h);
    DeniesFrame(s, q);
    SettledFrame(s, q);
  }

  lemma RefreshedSyms(s: State, r: RegionId, h: nat)
    requires Inv(s) && r in s.tree && h < |s.hooks|
    ensures SymsOk(Refresh(s, r, h))
  {
    hide Dfs, Gather, CacheOk, EntryOk, KeyOk, ModsOk, Settled, DenyOk, NoDenyAbove, Sound, Agree, DenyChain;
    assert CacheOk(s, r);
    FreshListOk(s, r);
    RebuiltSlots(s, r, h);
    TabsOfInv(s);
    var q := Refresh(s, r, h);
    assert Tabs(s.entries, q.syms, s.hooks, !s.everShared);
    forall e | e in q.entries ensures SymOk(q, e) { assert SymOk(s, e); }
  }

  lemma OthersRefreshed(s: State, r: RegionId, h: nat)
    requires Inv(s) && r in s.tree && h < |s.hooks| && CacheOk(Refresh(s, r, h), r)
    ensures CachesOk(Refresh(s, r, h))
  {
    hide Dfs, Gather, EntryOk, KeyOk, ModsOk, Settled, DenyOk, NoDenyAbove, SymOk, SlotsOk;
    var q := Refresh(s, r, h);
    forall x | x in q.tree ensures CacheOk(q, x) {
      assert CacheOk(s, x);
      if x != r {
        DeniedAboveFrame(s, q, x);
        forall e | e in Dfs(s.tree, s.mods, x) ensures e in s.entries { DfsLive(s, x, e); }
        CacheSame(s, q, x);
      }
    }
  }

  // ---- calls ----

  lemma PrepareInv(s: State, name: Hook)
    requires Inv(s)
    ensures Inv(Prepare(s, name).0)
  {
    hide CachesOk, DeniesOk, SymsOk, Settled, EntryOk, KeyOk, ModsOk, Refresh, HookDenied, DenyChain;
    var h, r := IndexOf(s.hooks, name), CallerRegion(s);
    if h < |s.hooks| && !HookDenied(s.denies, DenyChain(s, r), name) { RefreshInv(s, r, h); }
  }

  /** The paths a call from region r leaves out: what its current vector recorded, or what a rebuild would find. */
  function Filter(s: State, r: RegionId, name: Hook): set<Path>
    requires Shape(s) && r in s.tree
  {
    var h, c := IndexOf(s.hooks, name), s.caches[r];
    if h < |c.hooks| && c.hooks[h].gen == c.gen then c.hooks[h].filter else BannedBy(s.denies, DenyChain(s, r))
  }

  /**
   Every call that is not refused, warm or rebuilt, runs over exactly what its filter leaves
   of a fresh walk of the caller's subtree, in the order of the walk, unless an image was
   shared.
   */
  lemma CallIsFiltered(s: State, name: Hook)
    requires Inv(s) && !s.everShared && Prepare(s, name).1 == OK
    ensures var r := CallerRegion(s);
            Prepare(s, name).2 == Listening(s.entries, Filter(s, r, name), name, Dfs(s.tree, s.mods, r))
  {
    hide Dfs, Gather, EntryOk, KeyOk, ModsOk, Settled, DenyOk, SymOk, Refresh, HookDenied, DenyChain, NoDenyAbove,
         BannedBy, IsTree, NodeOk;
    var h, r := IndexOf(s.hooks, name), CallerRegion(s);
    assert CacheOk(s, r);
    RefreshRecord(s, r, h);
    RefreshedCache(s, r, h);
    assert SlotsOk(Refresh(s, r, h), r, h);
  }

  /**
   Cache coherence: in a state that satisfies the invariant, a call that is not refused
   runs over exactly the callbacks a fresh walk of the caller's subtree would find, in the
   order of the walk, provided no image was ever shared and no proper ancestor of the
   caller's region ever held a module deny.
   */
  lemma CallIsRecomputation(s: State, name: Hook)
    requires Inv(s)
    requires Prepare(s, name).1 == OK && Undisturbed(s, CallerRegion(s))
    ensures var r := CallerRegion(s);
            Prepare(s, name).2 == Listening(s.entries, s.denies[r].mods, name, Dfs(s.tree, s.mods, r))
  {
    hide Dfs, EntryOk, KeyOk, ModsOk, Settled, DenyOk, SymOk, Refresh, HookDenied, DenyChain, NoDenyAbove, BannedBy,
         IsTree, NodeOk;
    CallIsFiltered(s, name);
    OwnFilter(s, CallerRegion(s), name);
  }

  /** With no module deny ever made above, the filter is the region's own denies. */
  lemma OwnFilter(s: State, r: RegionId, name: Hook)
    requires Inv(s) && r in s.tree && NoDenyAbove(s, r)
    ensures Filter(s, r, name) == s.denies[r].mods
  {
    hide Dfs, EntryOk, KeyOk, ModsOk, Settled, SymOk, DenyChain, ModDenied, NoDenyAbove, IsTree, NodeOk, Listening;
    assert CacheOk(s, r);
    var h, c := IndexOf(s.hooks, name), s.caches[r];
    if h < |c.hooks| && c.hooks[h].gen == c.gen { assert SlotsOk(s, r, h); }
    else {
      forall p: Path ensures p in BannedBy(s.denies, DenyChain(s, r)) <==> p in s.denies[r].mods { OwnDenies(s, r, p); }
    }
  }

  /** Every callback of the reference vector runs: none is skipped by the loop. */
  lemma {:induction false} ListenersRun(s: State, banned: set<Path>, name: Hook, list: seq<EntryId>)
    ensures Runnable(s, Listening(s.entries, banned, name, list)) == Listening(s.entries, banned, name, list)
  {
    if list != [] {
      ListenersRun(s, banned, name, list[1..]);
      var rest := Listening(s.entries, banned, name, list[1..]);
      if Listening(s.entries, banned, name, list) != rest {
        assert Listening(s.entries, banned, name, list)[1..] == rest;
      }
    }
  }

  /**
   No stale reference: whatever the denies and images were, the slots of a call are live modules linked in the
   caller's subtree, and not banned there.
   */
  lemma NoStaleSlot(s: State, name: Hook, i: nat)
    requires Inv(s) && i < |Prepare(s, name).2|
    ensures var e := Prepare(s, name).2[i].me;
            && e in s.entries && s.entries[e].linked in s.tree && e in s.mods[s.entries[e].linked]
            && Anc(s.tree, CallerRegion(s), s.entries[e].linked)
            && s.entries[e].path !in s.denies[CallerRegion(s)].mods
  {
    hide Dfs, KeyOk, ModsOk, Settled, DenyOk, SymOk, Refresh, HookDenied, DenyChain, NoDenyAbove;
    var h, r := IndexOf(s.hooks, name), CallerRegion(s);
    RefreshedCache(s, r, h);
    var q := Refresh(s, r, h);
    assert SlotsOk(q, r, h);
    DfsLive(s, r, Prepare(s, name).2[i].me);
    EntryIsOk(s, Prepare(s, name).2[i].me);
  }

  /** The flat list of a region that is not dirty is its subtree's modules, all live. */
  lemma NoStaleList(s: State, r: RegionId, e: EntryId)
    requires Inv(s) && r in s.tree && !s.caches[r].dirty && e in s.caches[r].subtree
    ensures e in s.entries && s.entries[e].linked in s.tree && Anc(s.tree, r, s.entries[e].linked)
  {
    assert CacheOk(s, r);
    DfsLive(s, r, e);
  }
}
