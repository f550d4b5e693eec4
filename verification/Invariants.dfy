/**
 What every operation keeps: the dispatch caches agree with a recomputation, deny flags
 cover the denies, symbol caches agree with the images, a module precedes the modules it
 loaded, and an image's context names its module's region.
 */
module Invariants {
  import opened Symbols
  import opened RegionTree
  import opened RegionIds
  import opened Keys
  import opened XylemState
  import opened Unloading

  // ---- the reference: what a call should reach ----

  /**
   The callbacks of hook `name` in a list of modules, leaving out banned paths: what xy_call would find with no
   cache at all.
   */
  function Listening(es: Entries, banned: set<Path>, name: Hook, list: seq<EntryId>): seq<Slot> {
    if list == [] then []
    else
      var m := list[0];
      var rest := Listening(es, banned, name, list[1..]);
      if m in es && es[m].image.hasCtx && name in es[m].image.exports && es[m].path !in banned
      then [Slot(m, Found(es[m].image.id, name))] + rest
      else rest
  }

  /** No proper ancestor of r ever held a module deny. */
  ghost predicate NoDenyAbove(s: State, r: RegionId)
    requires r in s.tree
  {
    forall a :: a in s.everDenied && a != r ==> !Anc(s.tree, a, r)
  }

  ghost predicate Undisturbed(s: State, r: RegionId)
    requires r in s.tree
  {
    !s.everShared && NoDenyAbove(s, r)
  }

  /** e is a live module whose path is not banned. */
  ghost predicate Admissible(es: Entries, banned: set<Path>, e: EntryId) {
    e in es && es[e].path !in banned
  }

  /**
   A vector of the current generation is what its recorded filter leaves of a fresh walk, and
   the filter is the region's own denies unless a region above ever denied a module. An
   older vector is not read.
   */
  ghost predicate SlotsOk(s: State, r: RegionId, h: nat)
    requires Shape(s) && r in s.tree && h < |s.caches[r].hooks|
  {
    var c, hc := s.caches[r], s.caches[r].hooks[h];
    && hc.gen <= c.gen
    && (hc.gen == c.gen ==>
          && h < |s.hooks| && !c.dirty
          && (forall i :: 0 <= i < |hc.slots| ==>
            hc.slots[i].me in c.subtree && Admissible(s.entries, s.denies[r].mods, hc.slots[i].me))
          && (!s.everShared ==> hc.slots == Listening(s.entries, hc.filter, s.hooks[h], c.subtree))
          && (NoDenyAbove(s, r) ==> hc.filter == s.denies[r].mods))
  }

  ghost predicate CacheOk(s: State, r: RegionId)
    requires Shape(s) && r in s.tree
  {
    var c := s.caches[r];
    && c.gen >= 1
    && (!c.dirty ==> c.subtree == Dfs(s.tree, s.mods, r))
    && forall h {:trigger SlotsOk(s, r, h)} :: 0 <= h < |c.hooks| ==> SlotsOk(s, r, h)
  }

  ghost predicate CachesOk(s: State)
    requires Shape(s)
  {
    forall r {:trigger CacheOk(s, r)} :: r in s.tree ==> CacheOk(s, r)
  }

  /** A region that holds a deny is flagged, and so is every region above a flagged one. */
  ghost predicate DenyOk(s: State, r: RegionId)
    requires Shape(s) && r in s.tree
  {
    var d := s.denies[r];
    assert NodeOk(s.tree, r);
    && (d.hooks != {} || d.mods != {} ==> d.flag)
    && (d.mods != {} ==> r in s.everDenied)
    && (d.flag && s.tree[r].parent.Some? ==> s.denies[s.tree[r].parent.value].flag)
  }

  ghost predicate DeniesOk(s: State)
    requires Shape(s)
  {
    forall r {:trigger DenyOk(s, r)} :: r in s.tree ==> DenyOk(s, r)
  }

  /**
   An entry's symbol caches are its image's; while no image was shared, bits and slots agree and its context is
   its own.
   */
  ghost predicate SymOk(s: State, e: EntryId)
    requires Shape(s) && e in s.entries
  {
    var n := s.entries[e];
    && Sound(s.syms[e], n.image.Syms(), s.hooks)
    && (!s.everShared ==>
          && Agree(s.syms[e])
          && (n.image.hasCtx ==> n.image.id in s.ctxs && s.ctxs[n.image.id] == n.region))
  }

  ghost predicate Distinct(es: Entries) {
    forall m, n :: m in es && n in es && m != n ==> es[m].image.id != es[n].image.id
  }

  ghost predicate SymsOk(s: State)
    requires Shape(s)
  {
    && (!s.everShared ==> Distinct(s.entries))
    && forall e {:trigger SymOk(s, e)} :: e in s.entries ==> SymOk(s, e)
  }

  /** No module of the list stands before one that loaded it, directly or not. */
  ghost predicate Ordered(es: Entries, list: seq<EntryId>) {
    forall i, j :: 0 <= i < j < |list| && list[i] in es ==> !Desc(es, list[j], list[i])
  }

  ghost predicate LineageOk(s: State)
    requires Shape(s)
  {
    forall r {:trigger s.mods[r]} :: r in s.tree ==> Ordered(s.entries, s.mods[r])
  }

  /** Every module is linked in the region its key and its context name. */
  ghost predicate InStep(es: Entries) {
    forall e :: e in es ==> es[e].linked == es[e].region
  }

  /**
   Loaders come before what they loaded. Until a reload links a module into another region, all are linked in their
   own; and as long as no two regions share the digits of their keys that does not happen, and all is registered.
   */
  ghost predicate Settled(s: State)
    requires Shape(s)
  {
    && LineageOk(s)
    && (!s.everStray ==> InStep(s.entries))
    && (Apart(s.tree) ==> Registered(s) && !s.everStray)
  }

  /** Contexts name regions. */
  ghost predicate CtxsOk(s: State) {
    forall i :: i in s.ctxs ==> s.ctxs[i] in s.tree
  }

  ghost predicate Inv(s: State) {
    && Core(s)
    && Prefixed(s.tree)
    && CachesOk(s)
    && DeniesOk(s)
    && SymsOk(s)
    && CtxsOk(s)
    && Settled(s)
  }

  // ---- the subtree walk meets live modules ----

  /** Module lists hold live modules. */
  ghost predicate ListsOk(s: State) {
    Shape(s) && forall r {:trigger ModsOk(s, r)} :: r in s.mods ==> ModsOk(s, r)
  }

  lemma DfsLive(s: State, r: RegionId, e: EntryId)
    requires ListsOk(s) && r in s.tree && e in Dfs(s.tree, s.mods, r)
    ensures e in s.entries && s.entries[e].linked in s.tree && Anc(s.tree, r, s.entries[e].linked)
  {
    DfsMember(s.tree, s.mods, r, e);
    var x :| x in s.tree && Anc(s.tree, r, x) && e in s.mods[x];
    assert ModsOk(s, x);
  }

  // ---- caches ----

  /** Two maps describe the modules of a list alike. */
  ghost predicate SameModules(es: Entries, es': Entries, list: seq<EntryId>) {
    forall e :: e in list ==> e in es && e in es' && es'[e].path == es[e].path && es'[e].image == es[e].image
  }

  lemma {:induction false} ListeningSame(es: Entries, es': Entries, banned: set<Path>, name: Hook, list: seq<EntryId>)
    requires SameModules(es, es', list)
    ensures Listening(es', banned, name, list) == Listening(es, banned, name, list)
  {
    if list != [] {
      assert list[0] in list;
      ListeningSame(es, es', banned, name, list[1..]);
    }
  }

  lemma StillAdmissible(es: Entries, es': Entries, list: seq<EntryId>)
    requires SameModules(es, es', list)
    ensures forall banned, e {:trigger Admissible(es', banned, e)} :: e in list && Admissible(es, banned, e) ==>
            Admissible(es', banned, e)
  {}

  /** A region whose record and subtree did not change keeps a coherent cache. */
  lemma CacheSame(s: State, q: State, r: RegionId)
    requires Shape(s) && Shape(q) && r in s.tree && r in q.tree && CacheOk(s, r)
    requires q.caches[r] == s.caches[r] && s.hooks <= q.hooks && q.denies[r].mods == s.denies[r].mods
    requires (NoDenyAbove(q, r) ==> NoDenyAbove(s, r)) && (s.everShared ==> q.everShared)
    requires Dfs(q.tree, q.mods, r) == Dfs(s.tree, s.mods, r)
    requires SameModules(s.entries, q.entries, Dfs(s.tree, s.mods, r))
    ensures CacheOk(q, r)
  {
    hide Dfs, NoDenyAbove, SameModules;
    forall h | 0 <= h < |q.caches[r].hooks| ensures SlotsOk(q, r, h) {
      assert SlotsOk(s, r, h);
      if s.caches[r].hooks[h].gen == s.caches[r].gen {
        ListeningSame(s.entries, q.entries, s.caches[r].hooks[h].filter, s.hooks[h], Dfs(s.tree, s.mods, r));
        StillAdmissible(s.entries, q.entries, Dfs(s.tree, s.mods, r));
      }
    }
  }

  /** A region that entered a new generation has no current vector left. */
  lemma CacheBumped(s: State, q: State, r: RegionId, dirty: bool)
    requires Shape(s) && Shape(q) && r in s.tree && r in q.tree && CacheOk(s, r)
    requires q.caches[r].gen > s.caches[r].gen && q.caches[r] == s.caches[r].(gen := q.caches[r].gen, dirty := dirty)
    requires dirty || (dirty == s.caches[r].dirty && Dfs(q.tree, q.mods, r) == Dfs(s.tree, s.mods, r))
    ensures CacheOk(q, r)
  {
    hide Dfs;
    forall h | 0 <= h < |q.caches[r].hooks| ensures SlotsOk(q, r, h) { assert SlotsOk(s, r, h); }
  }

  /** Steps that leave the tree, the lists and the region records alone. */
  lemma CachesFrame(s: State, q: State)
    requires Core(s) && Shape(q) && CachesOk(s)
    requires q.tree == s.tree && q.mods == s.mods && q.caches == s.caches && q.denies == s.denies
    requires s.hooks <= q.hooks && q.everDenied == s.everDenied && (s.everShared ==> q.everShared)
    requires forall e :: e in s.entries ==>
             e in q.entries && q.entries[e].path == s.entries[e].path && q.entries[e].image == s.entries[e].image
    ensures CachesOk(q)
  {
    forall r | r in q.tree ensures CacheOk(q, r) {
      assert CacheOk(s, r);
      forall e | e in Dfs(s.tree, s.mods, r) ensures e in s.entries { DfsLive(s, r, e); }
      CacheSame(s, q, r);
    }
  }

  /** x and its ancestors have entered a later generation and are dirty; the others are as they were. */
  ghost predicate Marked(s: State, q: State, x: RegionId)
    requires Shape(s) && Shape(q) && x in s.tree && q.tree == s.tree
  {
    forall r {:trigger q.caches[r]} :: r in s.tree ==>
      if Anc(s.tree, r, x)
      then q.caches[r].gen > s.caches[r].gen && q.caches[r] == s.caches[r].(gen := q.caches[r].gen, dirty := true)
      else q.caches[r] == s.caches[r]
  }

  lemma MarkDirtyMarks(s: State, q: State, x: RegionId)
    requires Shape(s) && Shape(q) && x in s.tree && q.tree == s.tree
    requires q.caches == MarkDirty(s.tree, s.caches, x)
    ensures Marked(s, q, x)
  {}

  /** Steps that relink region x and mark it and its ancestors. */
  lemma CachesRelinked(s: State, q: State, x: RegionId)
    requires ListsOk(s) && Shape(q) && CachesOk(s) && x in s.tree
    requires q.tree == s.tree && Marked(s, q, x)
    requires forall r :: r in s.tree && r != x ==> q.mods[r] == s.mods[r] && q.denies[r].mods == s.denies[r].mods
    requires q.hooks == s.hooks && q.everDenied == s.everDenied && (s.everShared ==> q.everShared)
    requires forall e :: e in s.entries && s.entries[e].linked != x ==>
               e in q.entries && q.entries[e].path == s.entries[e].path && q.entries[e].image == s.entries[e].image
    ensures CachesOk(q)
  {
    hide CacheOk, EntryOk, KeyOk, ModsOk, Marked, IsTree, NodeOk;
    forall r | r in q.tree ensures CacheOk(q, r) {
      assert CacheOk(s, r);
      RelinkedCache(s, q, x, r);
    }
  }

  lemma RelinkedCache(s: State, q: State, x: RegionId, r: RegionId)
    requires ListsOk(s) && Shape(s) && Shape(q) && x in s.tree && r in s.tree && CacheOk(s, r)
    requires q.tree == s.tree && Marked(s, q, x)
    requires forall r :: r in s.tree && r != x ==> q.mods[r] == s.mods[r] && q.denies[r].mods == s.denies[r].mods
    requires q.hooks == s.hooks && q.everDenied == s.everDenied && (s.everShared ==> q.everShared)
    requires forall e :: e in s.entries && s.entries[e].linked != x ==>
               e in q.entries && q.entries[e].path == s.entries[e].path && q.entries[e].image == s.entries[e].image
    ensures CacheOk(q, r)
  {
    hide CacheOk, ListsOk, IsTree, NodeOk;
    if Anc(s.tree, r, x) {
      CacheBumped(s, q, r, true);
    } else {
      forall y | y in s.tree && Anc(s.tree, r, y) ensures y != x {}
      DfsFrame(s.tree, s.mods, q.tree, q.mods, r);
      forall e | e in Dfs(s.tree, s.mods, r) ensures e in s.entries && s.entries[e].linked != x { DfsLive(s, r, e); }
      CacheSame(s, q, r);
    }
  }

  /** q is s with an empty child region `id` under the current one. */
  ghost predicate Claimed(s: State, q: State, id: RegionId, bits: nat)
    requires Shape(s)
  {
    && Claimable(s.tree, s.cur, id, bits)
    && q.tree == AddLeaf(s.tree, s.cur, id, bits)
    && q.mods == s.mods[id := []]
    && q.caches == MarkDirty(s.tree, s.caches, s.cur)[id := NEW_CACHE]
    && q.denies == s.denies[id := NO_DENIES]
    && q.entries == s.entries && q.registry == s.registry && q.hooks == s.hooks
    && q.everDenied == s.everDenied && q.everShared == s.everShared && q.everStray == s.everStray
  }

  /** A new empty child region: its parent's chain is marked, and it starts with its empty list built. */
  lemma CachesClaimed(s: State, q: State, id: RegionId, bits: nat)
    requires Core(s) && CachesOk(s) && Shape(q) && Claimed(s, q, id, bits)
    ensures CachesOk(q)
  {
    forall r | r in q.tree ensures CacheOk(q, r) {
      if r == id {
        assert NodeOk(q.tree, id);
        assert Dfs(q.tree, q.mods, id) == [];
      } else {
        OldRegion(s, q, id, bits, r);
      }
    }
  }

  lemma OldRegion(s: State, q: State, id: RegionId, bits: nat, r: RegionId)
    requires Core(s) && CachesOk(s) && Shape(q) && Claimed(s, q, id, bits) && r in s.tree
    ensures CacheOk(q, r)
  {
    assert CacheOk(s, r);
    if Anc(s.tree, r, s.cur) {
      CacheBumped(s, q, r, true);
    } else {
      hide CacheOk, Core, MarkDirty;
      SubtreeApart(s, q, id, bits, r);
      forall e | e in Dfs(s.tree, s.mods, r) ensures e in s.entries { DfsLive(s, r, e); }
      forall a | a in s.everDenied && a != r ensures Anc(q.tree, a, r) <==> Anc(s.tree, a, r) {
        AddLeafAnc(s.tree, s.cur, id, bits, q.tree, a, r);
      }
      DeniedAboveSame(s, q, r);
      assert q.caches[r] == s.caches[r] by { UnmarkedCache(s, q, id, bits, r); }
      CacheSame(s, q, r);
    }
  }

  lemma UnmarkedCache(s: State, q: State, id: RegionId, bits: nat, r: RegionId)
    requires Shape(s) && Claimed(s, q, id, bits) && r in s.tree && !Anc(s.tree, r, s.cur)
    ensures r in q.caches && q.caches[r] == s.caches[r]
  {}

  lemma DeniedAboveSame(s: State, q: State, r: RegionId)
    requires r in s.tree && r in q.tree && q.everDenied == s.everDenied
    requires forall a :: a in s.everDenied && a != r ==> (Anc(q.tree, a, r) <==> Anc(s.tree, a, r))
    ensures NoDenyAbove(q, r) <==> NoDenyAbove(s, r)
  {}

  lemma SubtreeApart(s: State, q: State, id: RegionId, bits: nat, r: RegionId)
    requires Shape(s) && Shape(q) && Claimed(s, q, id, bits) && r in s.tree && !Anc(s.tree, r, s.cur)
    ensures r in q.tree && Dfs(q.tree, q.mods, r) == Dfs(s.tree, s.mods, r)
  {
    hide Dfs, MarkDirty;
    forall y | y in s.tree && Anc(s.tree, r, y) ensures y != s.cur {}
    DfsFrame(s.tree, s.mods, q.tree, q.mods, r);
  }

  /** A deny: the region and its ancestors enter a new generation. */
  lemma CachesDeny(s: State, q: State)
    requires Core(s) && Shape(q) && CachesOk(s)
    requires q.tree == s.tree && q.mods == s.mods && q.entries == s.entries && q.hooks == s.hooks
    requires q.caches == BumpGens(s.tree, s.caches, s.cur)
    requires forall r :: r in s.tree && r != s.cur ==> q.denies[r].mods == s.denies[r].mods
    requires s.everDenied <= q.everDenied && q.everShared == s.everShared
    ensures CachesOk(q)
  {
    forall r | r in q.tree ensures CacheOk(q, r) {
      assert CacheOk(s, r);
      if Anc(s.tree, r, s.cur) {
        CacheBumped(s, q, r, s.caches[r].dirty);
      } else {
        assert r != s.cur;
        forall e | e in Dfs(s.tree, s.mods, r) ensures e in s.entries { DfsLive(s, r, e); }
        CacheSame(s, q, r);
      }
    }
  }
}
