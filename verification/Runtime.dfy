/**
 The runtime as the source writes it: one object whose fields the operations update, with
 the source's own loops. Every method is shown to compute the state function that the
 other modules reason about.

 A region's module list and a module's symbol cache are values here. Where the source
 relinks an entry or fills a slot, the method assigns what InsertAfter, Without, Prewarm,
 Resolve or Forget make of the value; that the links and the arrays compute these functions
 is proved of classes ModList and SymbolCache, which this class is not composed with.
 */
module XylemRuntime {
  import opened Wrappers
  import opened Lists
  import opened Symbols
  import opened RegionTree
  import opened RegionIds
  import opened Keys
  import opened XylemState
  import opened Loading
  import opened LoadStages
  import opened Unloading
  import opened Dispatch
  import opened Invariants
  import opened Steps
  import opened Programs
  import opened Reloading
  import opened Runs
  import Ledger

  class Runtime {
    var tree: Tree
    var mods: map<RegionId, seq<EntryId>>
    var caches: map<RegionId, RegionCache>
    var denies: map<RegionId, Denies>
    var gates: map<RegionId, ClaimGate>
    var entries: map<EntryId, Entry>
    var syms: map<EntryId, SymTab>
    var registry: map<Key, EntryId>
    var ctxs: map<ImageId, RegionId>
    var hooks: seq<Hook>
    var cur: RegionId
    var curEntry: Option<RegionId>
    var loading: Option<EntryId>
    var nextEntry: EntryId
    ghost var everShared: bool
    ghost var everDenied: set<RegionId>
    ghost var everStray: bool

    /** The state these fields hold. */
    ghost function View(): State
      reads this
    {
      State(tree, mods, caches, denies, gates, entries, syms, registry, ctxs, hooks, cur, curEntry, loading, nextEntry,
            everShared, everDenied, everStray)
    }

    ghost predicate Valid()
      reads this
    {
      Shape(View())
    }

    /** Every region has a module list and a cache. */
    ghost predicate Listed()
      reads this
    {
      mods.Keys == tree.Keys && caches.Keys == tree.Keys
    }

    /** region_ensure_root, and an empty module table. */
    constructor ()
      ensures View() == INIT
    {
      RootIsTree();
      tree := map[ROOT := ROOT_NODE];
      mods, caches, denies, gates := map[ROOT := []], map[ROOT := NEW_CACHE], map[ROOT := NO_DENIES],
        map[ROOT := NO_GATE];
      entries, syms, registry, ctxs, hooks := map[], map[], map[], map[], [];
      cur, curEntry, loading, nextEntry := ROOT, Some(ROOT), None, 0;
      everShared, everDenied, everStray := false, {}, false;
    }

    // ---- walks towards the root ----

    /** region_ancestor_chain: climb, then reverse in place. A chain that does not fit loses its root end. */
    method RegionAncestorChain(start: RegionId, chain: array<RegionId>) returns (n: nat)
      requires start in tree
      modifies chain
      ensures n == if tree[start].depth + 1 <= chain.Length then tree[start].depth + 1 else chain.Length
      ensures chain[..n] == Chain(tree, start)[tree[start].depth + 1 - n..]
    {
      n := Climb(start, chain);
      ReversePrefix(chain, n);
    }

    method Climb(start: RegionId, chain: array<RegionId>) returns (n: nat)
      requires start in tree
      modifies chain
      ensures n == if tree[start].depth + 1 <= chain.Length then tree[start].depth + 1 else chain.Length
      ensures forall k :: 0 <= k < n ==> chain[k] == Chain(tree, start)[tree[start].depth - k]
    {
      ghost var full, depth := Chain(tree, start), tree[start].depth;
      n := 0;
      var e: Option<RegionId> := Some(start);
      while e.Some? && n < chain.Length
        invariant n <= chain.Length && n <= depth + 1
        invariant e == if n <= depth then Some(full[depth - n]) else None
        invariant forall k :: 0 <= k < n ==> chain[k] == full[depth - k]
        decreases depth + 1 - n
      {
        ChainStep(tree, start, depth - n);
        ChainRoot(tree, start, depth - n);
        chain[n] := e.value;
        n := n + 1;
        e := tree[e.value].parent;
      }
    }

    static method ReversePrefix(chain: array<RegionId>, n: nat)
      requires n <= chain.Length
      modifies chain
      ensures forall k :: 0 <= k < n ==> chain[k] == old(chain[n - 1 - k])
    {
      var a, b: int := 0, n - 1;
      while a < b
        invariant 0 <= a && a + b == n - 1 && a <= b + 1
        invariant forall k :: 0 <= k < a || b < k < n ==> chain[k] == old(chain[n - 1 - k])
        invariant forall k :: a <= k <= b ==> chain[k] == old(chain[k])
      {
        chain[a], chain[b] := chain[b], chain[a];
        a, b := a + 1, b - 1;
      }
    }

    /** region_propagate_deny. */
    method RegionPropagateDeny(entry: RegionId)
      requires denies.Keys == tree.Keys && entry in tree
      modifies this`denies
      ensures denies == FlagDeny(tree, old(denies), entry)
    {
      var e: Option<RegionId> := Some(entry);
      while e.Some?
        invariant denies.Keys == tree.Keys && (e.Some? ==> e.value in tree)
        invariant old(FlagDeny(tree, denies, entry)) == if e.Some? then FlagDeny(tree, denies, e.value) else denies
        decreases if e.Some? then tree[e.value].depth + 1 else 0
      {
        FlagDenyStep(tree, denies, e.value);
        denies := denies[e.value := denies[e.value].(flag := true)];
        e := tree[e.value].parent;
      }
    }

    /** region_dispatch_gen_bump. */
    method RegionDispatchGenBump(entry: RegionId)
      requires caches.Keys == tree.Keys && entry in tree
      modifies this`caches
      ensures caches == BumpGens(tree, old(caches), entry)
    {
      var e: Option<RegionId> := Some(entry);
      while e.Some?
        invariant caches.Keys == tree.Keys && (e.Some? ==> e.value in tree)
        invariant old(BumpGens(tree, caches, entry)) == if e.Some? then BumpGens(tree, caches, e.value) else caches
        decreases if e.Some? then tree[e.value].depth + 1 else 0
      {
        BumpGensStep(tree, caches, e.value);
        caches := caches[e.value := caches[e.value].(gen := caches[e.value].gen + 1)];
        e := tree[e.value].parent;
      }
    }

    /** region_mark_subtree_dirty. */
    method RegionMarkSubtreeDirty(entry: RegionId)
      requires caches.Keys == tree.Keys && entry in tree
      modifies this`caches
      ensures caches == MarkDirty(tree, old(caches), entry)
    {
      RegionDispatchGenBump(entry);
      ghost var bumped := caches;
      var e: Option<RegionId> := Some(entry);
      while e.Some?
        invariant caches.Keys == tree.Keys && (e.Some? ==> e.value in tree)
        invariant SetDirty(tree, bumped, entry) == if e.Some? then SetDirty(tree, caches, e.value) else caches
        decreases if e.Some? then tree[e.value].depth + 1 else 0
      {
        SetDirtyStep(tree, caches, e.value);
        caches := caches[e.value := caches[e.value].(dirty := true)];
        e := tree[e.value].parent;
      }
    }

    // ---- the caches behind a call ----

    /** region_collect_subtree_mods: node's modules, then each child's subtree, pushed on root's flat list. */
    method RegionCollectSubtreeMods(root: RegionId, node: RegionId)
      requires mods.Keys == tree.Keys && root in caches && node in tree
      modifies this`caches
      ensures caches == Pushed(old(caches), root, Dfs(tree, mods, node))
      decreases 64 - tree[node].depth
    {
      hide Pushed;
      PushModules(root, mods[node]);
      assert NodeOk(tree, node);
      var cs := tree[node].children;
      ghost var met := mods[node];
      for i := 0 to |cs|
        invariant root in caches && caches == Pushed(old(caches), root, met)
        invariant met + DfsAll(tree, mods, node, cs[i..]) == Dfs(tree, mods, node)
      {
        assert cs[i..][0] == cs[i] && cs[i..][1..] == cs[i + 1..] && cs[i] in cs;
        assert NodeOk(tree, cs[i]);
        PushedTwice(old(caches), root, met, Dfs(tree, mods, cs[i]));
        RegionCollectSubtreeMods(root, cs[i]);
        met := met + Dfs(tree, mods, cs[i]);
      }
      assert cs[|cs|..] == [] && met + [] == met;
    }

    /** The loop over one region's modules: region_subtree_mods_push for each. */
    method PushModules(root: RegionId, list: seq<EntryId>)
      requires root in caches
      modifies this`caches
      ensures caches == Pushed(old(caches), root, list)
    {
      PushedNothing(caches, root);
      for i := 0 to |list|
        invariant root in caches && caches == Pushed(old(caches), root, list[..i])
      {
        PushedTwice(old(caches), root, list[..i], [list[i]]);
        assert list[..i + 1] == list[..i] + [list[i]];
        caches := caches[root := caches[root].(subtree := caches[root].subtree + [list[i]])];
      }
      assert list[..|list|] == list;
    }

    /** region_rebuild_subtree_mods. */
    method RegionRebuildSubtreeMods(root: RegionId)
      requires Valid() && root in tree
      modifies this`caches
      ensures caches == old(caches)[root := old(caches[root].(dirty := false, subtree := Dfs(tree, mods, root)))]
    {
      caches := caches[root := caches[root].(subtree := [])];
      RegionCollectSubtreeMods(root, root);
      assert [] + Dfs(tree, mods, root) == Dfs(tree, mods, root);
      caches := caches[root := caches[root].(dirty := false)];
    }

    /** region_ensure_hook_dispatch_cap. */
    method RegionEnsureHookDispatchCap(re: RegionId, h: nat)
      requires Valid() && re in tree
      modifies this`caches
      ensures caches == old(caches)[re := old(caches[re].(hooks := GrowHooks(caches[re].hooks, h)))]
    {
      var hs := caches[re].hooks;
      if h < |hs| { return; }
      var cap := |hs|;
      while cap < h + 16
        invariant |hs| == cap <= h + 16 && hs == old(caches[re].hooks) +
                  seq(cap - old(|caches[re].hooks|), _ => NO_HOOK_CACHE)
        invariant cap >= old(|caches[re].hooks|)
      {
        hs := hs + [NO_HOOK_CACHE];
        cap := cap + 1;
      }
      caches := caches[re := caches[re].(hooks := hs)];
    }

    /** fn_cache_resolve on the module's cache; SymbolCache.Lookup does the same on its arrays. */
    method FnCacheResolve(me: EntryId, h: nat, name: Hook) returns (cb: FnSlot)
      requires Valid() && me in entries
      modifies this`syms
      ensures syms == old(syms)[me := Resolve(old(syms[me]), entries[me].image.Syms(), h, name)]
      ensures cb == syms[me].fn[h]
    {
      syms := syms[me := Resolve(syms[me], entries[me].image.Syms(), h, name)];
      cb := syms[me].fn[h];
    }

    /** The deny test of a rebuild: some region of the chain bans the path. */
    method DeniedInChain(chain: array<RegionId>, n: nat, path: Path) returns (denied: bool)
      requires n <= chain.Length && forall k :: 0 <= k < n ==> chain[k] in denies
      ensures denied <==> ModDenied(denies, chain[..n], path)
    {
      for i := 0 to n
        invariant forall k :: 0 <= k < i ==> path !in denies[chain[k]].mods
      {
        if path in denies[chain[i]].mods {
          assert chain[..n][i] == chain[i];
          return true;
        }
      }
      return false;
    }

    /** region_rebuild_hook_dispatch's scan of the flat list. */
    method ScanListeners(list: seq<EntryId>, h: nat, name: Hook, chain: array<RegionId>, n: nat)
      returns (slots: seq<Slot>)
      requires Valid() && n <= chain.Length && forall k :: 0 <= k < n ==> chain[k] in denies
      modifies this`syms
      ensures syms.Keys == entries.Keys
      ensures (slots, syms) == Gather(entries, old(syms), denies, chain[..n], h, name, list)
    {
      hide IsTree, NodeOk, Dfs, Chain, Asked;
      slots := [];
      ghost var all := Gather(entries, syms, denies, chain[..n], h, name, list);
      assert list[0..] == list && [] + all.0 == all.0;
      for i := 0 to |list|
        invariant syms.Keys == entries.Keys
        invariant var rest := Gather(entries, syms, denies, chain[..n], h, name, list[i..]);
                  all.0 == slots + rest.0 && all.1 == rest.1
      {
        var more := ScanOne(list[i], h, name, chain, n, list[i..]);
        assert list[i..][1..] == list[i + 1..];
        slots := slots + more;
      }
      assert list[|list|..] == [] && slots + [] == slots;
    }

    /** One turn of the scan. */
    method ScanOne(me: EntryId, h: nat, name: Hook, chain: array<RegionId>, n: nat, ghost list: seq<EntryId>)
      returns (more: seq<Slot>)
      requires Valid() && n <= chain.Length && forall k :: 0 <= k < n ==> chain[k] in denies
      requires list != [] && list[0] == me
      modifies this`syms
      ensures syms.Keys == entries.Keys
      ensures var was, rest := Gather(entries, old(syms), denies, chain[..n], h, name, list),
                               Gather(entries, syms, denies, chain[..n], h, name, list[1..]);
              was.0 == more + rest.0 && was.1 == rest.1
    {
      more := [];
      if me !in entries || !entries[me].image.hasCtx { return; }
      var denied := DeniedInChain(chain, n, entries[me].path);
      if denied { return; }
      if h !in syms[me].impl {
        var cb := FnCacheResolve(me, h, name);
        if cb == Missing { return; }
      } else {
        assert syms[me := syms[me]] == syms;
      }
      if h !in syms[me].impl { return; }
      more := [Slot(me, FnAt(syms[me], h))];
    }

    /** region_rebuild_hook_dispatch. */
    method RegionRebuildHookDispatch(re: RegionId, h: nat, name: Hook, chain: array<RegionId>, n: nat)
      requires Valid() && re in tree && h < |hooks| && hooks[h] == name
      requires n <= chain.Length && chain[..n] == DenyChain(View(), re)
      modifies this`caches, this`syms
      ensures View() == Refresh(old(View()), re, h)
    {
      hide Refresh, DenyChain;
      BringUpToDate(re, h);
      if caches[re].hooks[h].gen == caches[re].gen { return; }
      SameFlags(old(View()), View(), re);
      Restamp(re, h, name, chain, n);
    }

    /** The scan, and the generation stamp on what it found. */
    method Restamp(re: RegionId, h: nat, name: Hook, chain: array<RegionId>, n: nat)
      requires Valid() && re in tree && h < |hooks| && hooks[h] == name
      requires n <= chain.Length && chain[..n] == DenyChain(View(), re)
      requires Current(View(), re, h) && caches[re].hooks[h].gen != caches[re].gen
      modifies this`caches, this`syms
      ensures View() == Refresh(old(View()), re, h)
    {
      hide Refresh, Gather, DenyChain, IsTree, NodeOk;
      RefreshStamps(View(), re, h);
      InDenies(View(), re, chain, n);
      var slots := ScanListeners(caches[re].subtree, h, name, chain, n);
      var filter := BannedBy(denies, chain[..n]);
      caches := caches[re := caches[re].(hooks := caches[re].hooks[h := HookCache(slots, caches[re].gen, filter)])];
    }

    /** The flat list rebuilt if it is dirty, and a slot vector for h. */
    method BringUpToDate(re: RegionId, h: nat)
      requires Valid() && re in tree && h < |hooks|
      modifies this`caches
      ensures Valid() && Current(View(), re, h)
      ensures Refresh(View(), re, h) == old(Refresh(View(), re, h))
      ensures caches[re].hooks[h].gen == caches[re].gen ==> View() == old(Refresh(View(), re, h))
    {
      hide Refresh, UpToDate;
      RefreshUpToDate(View(), re, h);
      FreshListAndCap(re, h);
    }

    method FreshListAndCap(re: RegionId, h: nat)
      requires Valid() && re in tree
      modifies this`caches
      ensures caches == old(UpToDate(View(), re, h))
    {
      if caches[re].dirty { RegionRebuildSubtreeMods(re); }
      if h >= |caches[re].hooks| { RegionEnsureHookDispatchCap(re, h); }
    }

    /** The deny test of xy_call. */
    method HookDeniedInChain(chain: array<RegionId>, n: nat, name: Hook) returns (denied: bool)
      requires n <= chain.Length && forall k :: 0 <= k < n ==> chain[k] in denies
      ensures denied <==> HookDenied(denies, chain[..n], name)
    {
      for i := 0 to n
        invariant forall k :: 0 <= k < i ==> name !in denies[chain[k]].hooks
      {
        if name in denies[chain[i]].hooks {
          assert chain[..n][i] == chain[i];
          return true;
        }
      }
      return false;
    }

    /** xy_call up to its loop. The 65 slots hold every chain. */
    method PrepareCall(name: Hook) returns (code: Err, slots: seq<Slot>)
      requires Valid()
      modifies this`caches, this`syms
      ensures (View(), code, slots) == Prepare(old(View()), name)
    {
      hide Refresh, DenyChain, HookDenied;
      var h := IndexOf(hooks, name);
      if h == |hooks| { return NOTFOUND, []; }
      var r := if curEntry.Some? then curEntry.value else cur;
      var chain := new RegionId[65];
      var n := DenyingChain(r, chain);
      InDenies(View(), r, chain, n);
      var denied := HookDeniedInChain(chain, n, name);
      if denied { return EPERM, []; }
      RefreshVector(r, h, name, chain, n);
      return OK, caches[r].hooks[h].slots;
    }

    /** What xy_call does to its region's caches. */
    method RefreshVector(r: RegionId, h: nat, name: Hook, chain: array<RegionId>, n: nat)
      requires Valid() && r in tree && h < |hooks| && hooks[h] == name
      requires n <= chain.Length && chain[..n] == DenyChain(View(), r)
      modifies this`caches, this`syms
      ensures View() == Refresh(old(View()), r, h)
    {
      hide Refresh, DenyChain;
      BringUpToDate(r, h);
      if caches[r].hooks[h].gen != caches[r].gen {
        SameFlags(old(View()), View(), r);
        RegionRebuildHookDispatch(r, h, name, chain, n);
      }
    }

    /** The regions a call consults for denies: none unless its own region is flagged. */
    method DenyingChain(r: RegionId, chain: array<RegionId>) returns (n: nat)
      requires Valid() && r in tree && chain.Length == 65
      modifies chain
      ensures n <= chain.Length && chain[..n] == DenyChain(View(), r)
    {
      n := 0;
      if denies[r].flag {
        n := RegionAncestorChain(r, chain);
        ChainFits(tree, r);
      }
    }

    // ---- hooks, denies, claim gates ----

    /** xy_areg: the id of a known name, or a new id that every module of the table is asked about. */
    method XyAreg(name: Hook) returns (id: nat)
      requires Valid()
      modifies this`hooks, this`syms
      ensures View() == Areg(old(View()), name)
      ensures id < |hooks| && hooks[id] == name
    {
      hide WarmAll;
      if name in hooks { return IndexOf(hooks, name); }
      hooks := hooks + [name];
      id := |hooks| - 1;
      PrewarmModules();
    }

    /** fn_cache_prewarm on every module of the table; SymbolCache.Warm is its loop over the hooks. */
    method PrewarmModules()
      requires Valid()
      modifies this`syms
      ensures syms == WarmAll(registry.Values, entries, old(syms), hooks)
    {
      hide Prewarm;
      var todo := registry.Values;
      while todo != {}
        invariant todo <= registry.Values && syms.Keys == entries.Keys
        invariant forall e :: e in entries ==>
          syms[e] == if e in todo || e !in registry.Values then old(syms[e])
            else Prewarm(old(syms[e]), entries[e].image.Syms(), hooks)
        decreases |todo|
      {
        var me :| me in todo;
        todo := todo - {me};
        if me in entries { syms := syms[me := Prewarm(syms[me], entries[me].image.Syms(), hooks)]; }
      }
    }

    /** The constructors that dlopen runs. */
    method RunConstructors(names: seq<Hook>)
      requires Valid()
      modifies this`hooks, this`syms
      ensures View() == AregAll(old(View()), names)
    {
      hide Areg;
      for i := 0 to |names|
        invariant Valid()
        invariant AregAll(View(), names[i..]) == old(AregAll(View(), names))
      {
        assert names[i..][0] == names[i] && names[i..][1..] == names[i + 1..];
        var id := XyAreg(names[i]);
      }
    }

    /** xy_deny for a hook. */
    method XyDenyHook(name: Hook)
      requires Valid()
      modifies this`denies, this`caches
      ensures View() == DenyHook(old(View()), name)
    {
      hide FlagDeny, BumpGens;
      ListDeny(denies[cur].(hooks := denies[cur].hooks + {name}));
    }

    /** xy_deny for a module. */
    method XyDenyModule(path: Path)
      requires Valid()
      modifies this`denies, this`caches, this`everDenied
      ensures View() == DenyModule(old(View()), path)
    {
      hide FlagDeny, BumpGens;
      ListDeny(denies[cur].(mods := denies[cur].mods + {path}));
      everDenied := everDenied + {cur};
    }

    /**
     What xy_deny does for both kinds: list the deny, flag the region and those above it, and make their vectors
     old.
     */
    method ListDeny(d: Denies)
      requires denies.Keys == tree.Keys && caches.Keys == tree.Keys && cur in tree
      modifies this`denies, this`caches
      ensures denies == FlagDeny(tree, old(denies)[cur := d], cur)
      ensures caches == BumpGens(tree, old(caches), cur)
    {
      hide FlagDeny, BumpGens;
      denies := denies[cur := d];
      RegionPropagateDeny(cur);
      RegionDispatchGenBump(cur);
    }

    /** xy_require_claim; no handler clears the gate. */
    method XyRequireClaim(handler: Option<HandlerId>)
      requires Valid()
      modifies this`gates
      ensures View() == Require(old(View()), handler)
    {
      if handler.None? { gates := gates[cur := ClaimGate(None, false)]; }
      else { gates := gates[cur := ClaimGate(handler, true)]; }
    }

    // ---- loading ----

    /** mod_load_alloc_entry, mod_load_publish_entry, mod_load_bind_xy. */
    method Publish(path: Path, image: Image) returns (e: EntryId)
      modifies this`entries, this`syms, this`registry, this`ctxs, this`nextEntry, this`everShared
      ensures View() == Drafted(old(View()), path, image) && e == old(nextEntry)
    {
      hide IsTree, NodeOk, InUse;
      ghost var shared := InUse(entries, image.id);
      e := AllocEntry(path, image);
      registry := registry[KeyAt(path, cur) := e];
      BindXy(image, shared);
    }

    /** mod_load_alloc_entry. */
    method AllocEntry(path: Path, image: Image) returns (e: EntryId)
      modifies this`entries, this`syms, this`nextEntry
      ensures e == old(nextEntry) && nextEntry == e + 1
      ensures entries == old(entries)[e := Entry(path, image, cur, cur, 1, loading)] && syms == old(syms)[e := NO_SYMS]
    {
      e := nextEntry;
      nextEntry := nextEntry + 1;
      entries := entries[e := Entry(path, image, cur, cur, 1, loading)];
      syms := syms[e := NO_SYMS];
    }

    /** mod_load_bind_xy: the image's one context names the current region. */
    method BindXy(image: Image, ghost shared: bool)
      modifies this`ctxs, this`everShared
      ensures ctxs == if image.hasCtx then old(ctxs)[image.id := cur] else old(ctxs)
      ensures everShared == (old(everShared) || shared)
    {
      if image.hasCtx { ctxs := ctxs[image.id := cur]; }
      everShared := everShared || shared;
    }

    /** mod_load_claim_if_needed. */
    method ClaimIfNeeded(w: World, path: Path, image: Image, e: EntryId) returns (err: Err)
      requires Valid() && Published(path, image, e)
      modifies this
      ensures var v := Decide(w, old(View()), path, image);
              && (v.Refused? ==> err == v.err && View() == old(View()))
              && (v.Flat? ==> err == OK && View() == old(View()))
              && (v.Granted? ==> err == OK && View() == Rekeyed(old(View()), e, v.id, v.bits))
      ensures err == OK <==> !Decide(w, old(View()), path, image).Refused?
    {
      if gates[cur].required && image.claim.None? { return EPERM; }
      if image.claim.None? { return OK; }
      if gates[cur].handler.None? && !gates[cur].required { return OK; }
      err := ClaimForLoad(w, path, image.claim.value, e);
    }

    ghost predicate Published(path: Path, image: Image, e: EntryId)
      reads this
    {
      e in entries && entries[e].path == path && entries[e].image == image
    }

    /** _xy_claim_for_load. */
    method ClaimForLoad(w: World, path: Path, bits: nat, e: EntryId) returns (err: Err)
      requires Valid() && e in entries && Published(path, entries[e].image, e)
      requires entries[e].image.claim == Some(bits) && (gates[cur].handler.Some? || gates[cur].required)
      modifies this
      ensures var v := Decide(w, old(View()), path, old(entries[e].image));
              && (v.Refused? ==> err == v.err && err != OK && View() == old(View()))
              && !v.Flat?
              && (v.Granted? ==> err == OK && View() == Rekeyed(old(View()), e, v.id, v.bits))
    {
      if bits == 0 || bits > 64 { return INVALID_ARG; }
      if gates[cur].handler.None? { return EPERM; }
      var granted := w.decide(gates[cur].handler.value, path, bits);
      if granted.None? || granted.value == 0 || granted.value > 64 { return EPERM; }
      var id := RegionAllocSlot(tree.Keys, cur, tree[cur].plen, granted.value);
      if id == RegionIds.INVALID { return TOOBIG; }
      assert NodeOk(tree, cur);
      AllocFresh(tree.Keys, cur, tree[cur].plen, granted.value);
      GrowChild(id, granted.value);
      EnterChild(e, id);
      return OK;
    }

    /** The child record, its place in the tree, and the marks above it. */
    method GrowChild(id: RegionId, bits: nat)
      requires Valid() && Claimable(tree, cur, id, bits)
      modifies this`tree, this`mods, this`caches, this`denies, this`gates
      ensures View() == AddChild(old(View()), id, bits)
    {
      hide MarkDirty, Sprouted, AddChild, IsTree, NodeOk;
      SproutedMarks(View(), id, bits);
      Sprout(id, bits);
      RegionMarkSubtreeDirty(cur);
    }

    method Sprout(id: RegionId, bits: nat)
      requires Claimable(tree, cur, id, bits)
      modifies this`tree, this`mods, this`caches, this`denies, this`gates
      ensures View() == Sprouted(old(View()), id, bits) && cur == old(cur)
    {
      hide AddLeaf, IsTree, NodeOk;
      AddLeafIsTree(tree, cur, id, bits);
      tree := AddLeaf(tree, cur, id, bits);
      mods := mods[id := []];
      caches := caches[id := NEW_CACHE];
      denies := denies[id := NO_DENIES];
      gates := gates[id := NO_GATE];
    }

    /** set_current_region to the child, and module_rekey_for_claim. */
    method EnterChild(e: EntryId, child: RegionId)
      requires e in entries
      modifies this`cur, this`curEntry, this`entries, this`registry, this`ctxs
      ensures View() == Moved(old(View()), e, child)
    {
      hide IsTree, NodeOk;
      RekeyForClaim(e, cur, child);
      cur, curEntry := child, Some(child);
    }

    /** module_rekey_for_claim: the entry's region, its registry key and its context. */
    method RekeyForClaim(e: EntryId, parent: RegionId, child: RegionId)
      requires e in entries
      modifies this`entries, this`registry, this`ctxs
      ensures entries == old(entries)[e := old(entries[e]).(region := child)]
      ensures registry == old(registry)[KeyAt(old(entries[e]).path, child) := e] - {KeyAt(old(entries[e]).path, parent)}
      ensures ctxs == if old(entries[e]).image.hasCtx then old(ctxs)[old(entries[e]).image.id := child] else old(ctxs)
    {
      var n := entries[e];
      entries := entries[e := n.(region := child)];
      registry := registry[KeyAt(n.path, child) := e] - {KeyAt(n.path, parent)};
      if n.image.hasCtx { ctxs := ctxs[n.image.id := child]; }
    }

    /** module_region_append and fn_cache_prewarm. */
    method Link(e: EntryId)
      requires Listed() && e in entries && e in syms && entries[e].region in tree
      modifies this`mods, this`caches, this`entries, this`syms
      ensures View() == Linked(old(View()), e)
    {
      hide MarkDirty, Prewarm, IsTree, NodeOk;
      ModuleRegionAppend(e);
      syms := syms[e := Prewarm(syms[e], entries[e].image.Syms(), hooks)];
    }

    /** module_region_append, on the region's list; ModList.Append does it on the links. */
    method ModuleRegionAppend(e: EntryId)
      requires Listed() && e in entries && entries[e].region in tree
      modifies this`mods, this`caches, this`entries
      ensures var home := old(entries[e].region);
              && mods == old(mods)[home := old(mods)[home] + [e]] && caches == MarkDirty(tree, old(caches), home)
              && entries == old(entries)[e := old(entries[e]).(linked := home)]
    {
      hide MarkDirty;
      var home := entries[e].region;
      entries := entries[e := entries[e].(linked := home)];
      mods := mods[home := mods[home] + [e]];
      RegionMarkSubtreeDirty(home);
    }

    /** mod_load_abort for an entry that was not linked. */
    method Scrap(e: EntryId)
      requires e in entries
      modifies this`entries, this`syms, this`registry
      ensures View() == Scrapped(old(View()), e)
    {
      registry := registry - {KeyOf(entries[e])};
      entries := entries - {e};
      syms := syms - {e};
    }

    /** mod_load_abort for a linked entry. */
    method Abort(e: EntryId)
      requires Core(View()) && e in entries
      modifies this`mods, this`caches, this`entries, this`syms, this`registry
      ensures View() == Withdraw(old(View()), e)
    {
      hide Withdraw, Detached, EntryOk, KeyOk, ModsOk, IsTree, NodeOk;
      WithdrawnIs(View(), e);
      Detach(e);
      Scrap(e);
    }

    /** module_region_detach, on the region's list; ModList.Detach does it on the links. */
    method Detach(e: EntryId)
      requires Listed() && Valid() && e in entries && entries[e].linked in tree
      modifies this`mods, this`caches
      ensures View() == Detached(old(View()), e)
    {
      hide MarkDirty, IsTree, NodeOk;
      mods := mods[entries[e].linked := Without(mods[entries[e].linked], e)];
      RegionMarkSubtreeDirty(entries[e].linked);
    }

    /** xy_load. */
    method ModLoad(w: World, path: Path) returns (err: Err)
      requires Ready(View())
      modifies this
      ensures (View(), err) == Load(w, old(View()), path)
      decreases Room(tree), |Unopened(w, View())|, 1
    {
      hide LoadNew, AregAll, Grows, EntryOk, KeyOk, ModsOk, IsTree;
      if path !in w.images { return NOTFOUND; }
      var image := w.images[path];
      AregAllCore(View(), image.constructs);
      RunConstructors(image.constructs);
      if KeyAt(path, cur) in registry {
        RegisteredLive(View(), KeyAt(path, cur));
        Reuse(registry[KeyAt(path, cur)]);
        return OK;
      }
      err := LoadFresh(w, path, image);
    }

    /** mod_load_try_reuse_existing. */
    method Reuse(e: EntryId)
      requires e in entries
      modifies this`entries
      ensures View() == Retain(old(View()), e)
    {
      entries := entries[e := entries[e].(refcount := entries[e].refcount + 1)];
    }

    /** The transaction of _mod_load, and its abort. */
    method LoadFresh(w: World, path: Path, image: Image) returns (err: Err)
      requires Ready(View()) && path in w.images && image == w.images[path] && KeyAt(path, cur) !in registry
      modifies this
      ensures (View(), err) == LoadNew(w, old(View()), path, image)
      decreases Room(tree), |Unopened(w, View())|, 0
    {
      hide LoadNew, Decide, Admit, Bind, Withdraw, RunScript, Unopened, Grows, EntryOk, KeyOk, ModsOk, IsTree, NodeOk;
      ghost var s, v := View(), Decide(w, View(), path, image);
      LoadNewIs(w, s, path, image);
      var prevRegion, prevEntry := cur, curEntry;
      var e;
      e, err := Stage(w, path, image);
      if err != OK { return; }
      InstallReady(w, s, path, image, v);
      err := InstallOrAbort(w, e, image, prevRegion, prevEntry, Admit(w, s, path, image, v));
    }

    /** The install, the way back to the caller's context, and the abort if there was no install. */
    method InstallOrAbort(w: World, e: EntryId, image: Image, prevRegion: RegionId, prevEntry: Option<RegionId>,
                          ghost a: State)
      returns (err: Err)
      requires Core(a) && e in a.entries && View().(cur := prevRegion, curEntry := prevEntry) == a
      requires Ready(View().(loading := Some(e)))
      modifies this
      ensures image.install.None? ==> err == NOTFOUND && View() == Withdraw(a, e)
      ensures image.install.Some? ==>
                && err == OK
                && View() == RunScript(w, old(View()).(loading := Some(e)), image.install.value)
                             .(cur := prevRegion, curEntry := prevEntry, loading := old(loading))
      decreases Room(tree), |Unopened(w, View())|, if image.install.Some? then |image.install.value| + 3 else 1
    {
      hide RunScript, Withdraw, Core, IsTree, NodeOk;
      err := RunInstall(w, e, image);
      cur, curEntry := prevRegion, prevEntry;
      if err != OK { Abort(e); }
    }

    /** Up to the install: published, claimed and linked, or nothing but the trace of the attempt. */
    method Stage(w: World, path: Path, image: Image) returns (e: EntryId, err: Err)
      requires Ready(View()) && KeyAt(path, cur) !in registry
      modifies this
      ensures e == old(nextEntry)
      ensures var s, v := old(View()), Decide(w, old(View()), path, image);
              && (v.Refused? ==> err == v.err && err != OK && View() == Bind(s, image, s.cur))
              && (!v.Refused? ==> err == OK && View() == Within(Admit(w, s, path, image, v), HomeOf(s, v), s.loading))
    {
      hide Decide, Staged, Drafted, Linked, Scrapped, Admit, Bind, EntryOk, KeyOk, ModsOk, IsTree, NodeOk;
      ghost var s := View();
      var prevEntry := curEntry;
      e, err := PublishAndClaim(w, path, image);
      if err != OK {
        RefusedClaim(w, s, path, image);
        ScrappedIsBind(s, path, image);
        curEntry := prevEntry;
        Scrap(e);
      } else {
        LinkStages(w, s, path, image);
        Link(e);
      }
    }

    method PublishAndClaim(w: World, path: Path, image: Image) returns (e: EntryId, err: Err)
      requires Valid()
      modifies this
      ensures e == old(nextEntry) && View() == Staged(w, old(View()), path, image)
      ensures var v := Decide(w, old(View()), path, image); if v.Refused? then err == v.err && err != OK else err == OK
    {
      hide Decide, Drafted, Rekeyed, IsTree, NodeOk;
      ghost var s := View();
      e := Publish(path, image);
      curEntry := Some(cur);
      PublishedOk(s, path, image);
      DecidedAlike(w, s, path, image);
      err := ClaimIfNeeded(w, path, image, e);
    }

    /** mod_load_run_install and _mod_run: the module is the loader while its xy_install runs. */
    method RunInstall(w: World, e: EntryId, image: Image) returns (err: Err)
      requires Ready(View().(loading := Some(e)))
      modifies this
      ensures image.install.None? ==> err == NOTFOUND && View() == old(View())
      ensures image.install.Some? ==>
                err == OK && View() == RunScript(w, old(View()).(loading := Some(e)),
                  image.install.value).(loading := old(loading))
      decreases Room(tree), |Unopened(w, View())|, if image.install.Some? then |image.install.value| + 2 else 0
    {
      hide RunScript, EntryOk, KeyOk, ModsOk, IsTree;
      if image.install.None? { return NOTFOUND; }
      var prev := loading;
      loading := Some(e);
      Install(w, image.install.value);
      loading := prev;
      return OK;
    }

    /** The calls an xy_install makes. */
    method Install(w: World, acts: seq<Action>)
      requires Ready(View())
      modifies this
      ensures View() == RunScript(w, old(View()), acts)
      decreases Room(tree), |Unopened(w, View())|, |acts| + 1
    {
      hide Load, Setting, Unopened, Grows, EntryOk, KeyOk, ModsOk, IsTree;
      if acts == [] { return; }
      ghost var s := View();
      if acts[0].ALoad? {
        var err := ModLoad(w, acts[0].path);
      } else {
        SettingFacts(s, acts[0]);
        Set(acts[0]);
      }
      ScriptStep(w, s, View());
      Install(w, acts[1..]);
    }

    /** A call other than a load. */
    method Set(act: Action)
      requires Valid() && !act.ALoad?
      modifies this`gates, this`denies, this`caches, this`everDenied
      ensures View() == Setting(old(View()), act)
    {
      hide Require, DenyHook, DenyModule;
      match act
      case ARequire(h) => XyRequireClaim(h);
      case ADenyHook(h) => XyDenyHook(h);
      case ADenyModule(p) => XyDenyModule(p);
    }

    // ---- unloading ----

    /** _mod_unload: one reference less; with none left, the modules it loaded, and then the module itself. */
    method ModUnload(w: World, path: Path, region: RegionId) returns (err: Err)
      requires Core(View()) && IsScan(w.scan)
      modifies this
      ensures KeyAt(path, region) !in old(registry) ==> err == NOTFOUND && View() == old(View())
      ensures KeyAt(path, region) in old(registry) ==>
                && err == OK && old(registry)[KeyAt(path, region)] in old(entries)
                && RegOk(old(View()), old(registry)[KeyAt(path, region)])
                && View() == UnloadEntry(w.scan, old(View()), old(registry)[KeyAt(path, region)])
      decreases if KeyAt(path, region) in registry then nextEntry - registry[KeyAt(path, region)] else 0, 1
    {
      hide UnloadEntry, UnloadAll, Retire, ChildrenOf, Release, EntryOk, KeyOk, ModsOk, IsTree, NodeOk, IsScan,
           Shrinks, Spares, Kids;
      if KeyAt(path, region) !in registry { return NOTFOUND; }
      var e := registry[KeyAt(path, region)];
      RegisteredLive(View(), KeyAt(path, region));
      UnloadEntryIs(w.scan, View(), e);
      DropReference(e);
      if entries[e].refcount > 0 { return OK; }
      var children := CollectChildren(w, e);
      UnloadChildren(w, e, children);
      Teardown(e);
      return OK;
    }

    method DropReference(e: EntryId)
      requires e in entries
      modifies this`entries
      ensures View() == Release(old(View()), e)
    {
      entries := entries[e := entries[e].(refcount := entries[e].refcount - 1)];
    }

    /** The modules of the table whose parent pointer is e, collected before any of them goes. */
    method CollectChildren(w: World, e: EntryId) returns (children: seq<EntryId>)
      requires IsScan(w.scan)
      ensures children == ChildrenOf(w.scan, View(), e)
    {
      ghost var kids := set m | m in entries && m != e && entries[m].parent == Some(e);
      var table := w.scan(registry.Values);
      children := [];
      for i := 0 to |table|
        invariant children == Keep(table[..i], kids)
      {
        var m := table[i];
        assert table[..i + 1] == table[..i] + [m];
        KeepApp(table[..i], [m], kids);
        if m in entries && m != e && entries[m].parent == Some(e) { children := children + [m]; }
      }
      assert table[..|table|] == table;
    }

    /** Children are unloaded by name, so one without a context, which has no name, stays. */
    method UnloadChildren(w: World, p: EntryId, children: seq<EntryId>)
      requires Core(View()) && IsScan(w.scan) && Kids(View(), p, children) && p < nextEntry
      modifies this
      ensures View() == UnloadAll(w.scan, old(View()), p, children)
      decreases nextEntry - p, 0, 1
    {
      hide UnloadEntry, UnloadAll, Core, IsTree, NodeOk, IsScan, Shrinks, Spares, Kids;
      ghost var bound := nextEntry;
      for i := 0 to |children|
        invariant nextEntry == bound && Core(View()) && Kids(View(), p, children[i..])
        invariant UnloadAll(w.scan, View(), p, children[i..]) == old(UnloadAll(w.scan, View(), p, children))
      {
        assert children[i..][0] == children[i] && children[i..][1..] == children[i + 1..];
        ChildStep(w.scan, View(), p, children[i..]);
        UnloadOne(w, p, children[i]);
      }
      assert children[|children|..] == [];
      NoChildren(w.scan, View(), p);
    }

    /** One turn of the loop over the children. */
    method UnloadOne(w: World, p: EntryId, child: EntryId)
      requires Core(View()) && IsScan(w.scan) && p < child < nextEntry && child in entries && RegOk(View(), child)
      modifies this
      ensures View() == if old(entries)[child].image.hasCtx then UnloadEntry(w.scan, old(View()), child)
              else old(View())
      decreases nextEntry - p, 0, 0
    {
      hide UnloadEntry, EntryOk, KeyOk, ModsOk, IsTree, NodeOk, IsScan, Shrinks, Spares;
      if entries[child].image.hasCtx {
        var err := ModUnload(w, entries[child].path, entries[child].region);
      }
    }

    /** Symbol caches, denies, list and tables forget the module. */
    method Teardown(e: EntryId)
      requires Core(View()) && e in entries
      modifies this`mods, this`caches, this`denies, this`entries, this`syms, this`registry
      ensures View() == Retire(old(View()), e)
    {
      hide Detached, Retire, Forgotten, Core, IsTree, NodeOk;
      RetireIs(View(), e);
      ForgetModule(e);
      Detach(e);
      Scrap(e);
    }

    method ForgetModule(e: EntryId)
      requires syms.Keys == entries.Keys && e in entries && entries[e].linked in denies
      modifies this`denies, this`syms
      ensures View() == Forgotten(old(View()), e)
    {
      hide ClearedIn;
      ModuleClearFnCacheForHandle(e);
      ModuleRemoveDenies(e);
    }

    /** The inner loop of module_clear_fn_cache_for_handle; SymbolCache.ForgetImage is that loop. */
    method FnCacheForget(m: EntryId, image: ImageId)
      requires m in syms
      modifies this`syms
      ensures syms == old(syms)[m := Forget(old(syms)[m], image)]
    {
      hide Forget, IsTree, NodeOk;
      syms := syms[m := Forget(syms[m], image)];
    }

    /** module_clear_fn_cache_for_handle, on the other modules of the table. */
    method ModuleClearFnCacheForHandle(e: EntryId)
      requires syms.Keys == entries.Keys && e in entries
      modifies this`syms
      ensures syms == ClearedIn(old(syms), registry.Values - {e}, entries[e].image.id)
    {
      hide ClearedIn, Forget, IsTree, NodeOk;
      var todo := registry.Values - {e};
      ghost var done: set<EntryId> := {};
      NothingCleared(syms, entries[e].image.id);
      while todo != {}
        invariant todo !! done && done + todo == registry.Values - {e} && syms.Keys == entries.Keys
        invariant syms == ClearedIn(old(syms), done, entries[e].image.id)
        decreases |todo|
      {
        var m :| m in todo;
        ClearedStep(old(syms), done, m, entries[e].image.id);
        assert (done + {m}) + (todo - {m}) == done + todo;
        todo, done := todo - {m}, done + {m};
        if m in syms { FnCacheForget(m, entries[e].image.id); }
      }
    }

    /** module_remove_denies on the region the module is linked in. */
    method ModuleRemoveDenies(e: EntryId)
      requires e in entries && entries[e].linked in denies
      modifies this`denies
      ensures var n, d := entries[e], old(denies)[entries[e].linked];
              denies == old(denies)[n.linked := d.(mods := d.mods - {n.path})]
    {
      var n := entries[e];
      denies := denies[n.linked := denies[n.linked].(mods := denies[n.linked].mods - {n.path})];
    }

    /** xy_unload. */
    method XyUnload(w: World, path: Path) returns (err: Err)
      requires Core(View()) && IsScan(w.scan)
      modifies this
      ensures (View(), err) == Unload(w, old(View()), path)
    {
      hide UnloadEntry, EntryOk, KeyOk, ModsOk, IsTree, NodeOk, IsScan;
      err := ModUnload(w, path, cur);
    }

    /** xy_reload: the module found under the key afterwards goes behind its old predecessor. */
    method XyReload(w: World, path: Path) returns (err: Err)
      requires Top(View()) && IsScan(w.scan)
      modifies this
      ensures (View(), err) == Reload(w, old(View()), path)
    {
      hide Top, Core, Ready, UnloadEntry, Load, IsTree, NodeOk, IsScan, Reload, Replace, Before, RegOk, Placeable;
      ReloadCases(w, View(), path);
      if KeyAt(path, cur) !in registry { return NOTFOUND; }
      var existing := registry[KeyAt(path, cur)];
      var re := entries[existing].linked;
      var insertAfter := Before(mods[re], existing);
      err := ModUnload(w, path, cur);
      err := LoadInPlace(w, path, re, insertAfter);
    }

    /** The second half of a reload. */
    method LoadInPlace(w: World, path: Path, re: RegionId, after: Option<EntryId>) returns (err: Err)
      requires Placeable(w, View(), path, re, after)
      modifies this
      ensures (View(), err) == Replace(w, old(View()), path, re, after)
    {
      hide Load, Move, CanMove, EntryOk, KeyOk, ModsOk, IsTree, NodeOk, Grows;
      err := ModLoad(w, path);
      if err != OK || KeyAt(path, cur) !in registry { return; }
      Reinsert(re, registry[KeyAt(path, cur)], after);
    }

    /** module_region_detach and module_region_insert_after. */
    method Reinsert(re: RegionId, n: EntryId, after: Option<EntryId>)
      requires CanMove(View(), re, n, after)
      modifies this`mods, this`caches, this`entries, this`everStray
      ensures View() == Move(old(View()), re, n, after)
    {
      hide Detached, Attached, IsTree, NodeOk;
      DetachedKeeps(View(), n);
      Detach(n);
      ModuleRegionInsertAfter(re, n, after);
    }

    /** module_region_insert_after, into whatever region it is given; ModList.InsertAfter does it on the links. */
    method ModuleRegionInsertAfter(re: RegionId, n: EntryId, after: Option<EntryId>)
      requires Valid() && Listed() && re in tree && n in entries && (after.Some? ==> after.value in mods[re])
      modifies this`mods, this`caches, this`entries, this`everStray
      ensures View() == Attached(old(View()), re, n, after)
    {
      hide MarkDirty, Shape, InsertAfter, IsTree, NodeOk;
      everStray := everStray || entries[n].region != re;
      InsertInto(re, n, after);
    }

    method InsertInto(re: RegionId, n: EntryId, after: Option<EntryId>)
      requires Listed() && re in tree && n in entries && (after.Some? ==> after.value in mods[re])
      modifies this`mods, this`caches, this`entries
      ensures mods == old(mods)[re := InsertAfter(old(mods)[re], n, after)] &&
              caches == MarkDirty(tree, old(caches), re)
      ensures entries == old(entries)[n := old(entries)[n].(linked := re)]
    {
      hide MarkDirty, InsertAfter, IsTree, NodeOk;
      entries := entries[n := entries[n].(linked := re)];
      mods := mods[re := InsertAfter(mods[re], n, after)];
      RegionMarkSubtreeDirty(re);
    }

    // ---- calls and programs ----

    /** xy_call. What each callback does is the next body. */
    method XyCall(name: Hook, bodies: Bodies) returns (code: Err, ghost log: Log)
      requires Top(View()) && PassiveBodies(bodies)
      modifies this
      ensures (View(), log) == ExecCmd(old(View()), DoCall(name, bodies))
      ensures code == CallEvent(old(View()), name).code
      decreases bodies, 1
    {
      hide Top, Prepare, Deliver, LogOk, Legal, Kept, IsTree, NodeOk;
      ghost var s := View();
      TopShape(s);
      PrepareTop(s, name);
      var slots;
      code, slots := PrepareCall(name);
      RefusedRunsNothing(s, name);
      var ran;
      ran, log := RunSlots(slots, bodies, cur);
      if code == OK && ran == 0 { code := NOTFOUND; }
      log := [CallEvent(s, name)] + log;
      CallIs(s, name, bodies);
    }

    /** The loop of xy_call. */
    method RunSlots(slots: seq<Slot>, bodies: Bodies, home: RegionId) returns (ran: nat, ghost log: Log)
      requires Top(View()) && PassiveBodies(bodies) && cur == home
      modifies this
      ensures (View(), log) == Deliver(old(View()), slots, bodies, home)
      ensures ran == |Runnable(old(View()), slots)|
      decreases bodies, 0, 1
    {
      hide Top, Turn, Exec, Deliver, PassiveBodies, LogOk, Kept, Dispatch.Runs, Runnable, IsTree, NodeOk;
      ran, log := 0, [];
      var rest := bodies;
      assert slots[0..] == slots && [] + Deliver(View(), slots, bodies, home).1 ==
        Deliver(View(), slots, bodies, home).1;
      for mi := 0 to |slots|
        invariant Top(View()) && PassiveBodies(rest) && cur == home && (rest == bodies || rest < bodies)
        invariant var all, more := old(Deliver(View(), slots, bodies, home)), Deliver(View(), slots[mi..], rest, home);
                  all.0 == more.0 && all.1 == log + more.1
        invariant ran + |Runnable(View(), slots[mi..])| == old(|Runnable(View(), slots)|)
      {
        assert slots[mi..][0] == slots[mi] && slots[mi..][1..] == slots[mi + 1..];
        TurnStep(View(), slots[mi..], rest, home);
        var did, next, more := RunSlot(slots[mi], rest, home);
        rest := next;
        log := log + more;
        if did { ran := ran + 1; }
      }
      assert slots[|slots|..] == [] && log + [] == log;
      NothingLeft(View(), rest, home);
    }

    /** One turn: the callback runs in its module's region, and the caller's context comes back after it. */
    method RunSlot(slot: Slot, bodies: Bodies, home: RegionId) returns (did: bool, rest: Bodies, ghost log: Log)
      requires Top(View()) && PassiveBodies(bodies) && cur == home
      modifies this
      ensures (View(), rest, log) == Turn(old(View()), slot, bodies, home)
      ensures did <==> Dispatch.Runs(old(View()), slot)
      decreases bodies, 0, 0
    {
      hide Top, Exec, LogOk, Forward, Passive, IsTree, NodeOk;
      did, rest, log := false, bodies, [];
      if slot.me !in entries || !entries[slot.me].image.hasCtx || slot.cb == Empty { return; }
      did := true;
      match bodies
      case Silent =>
      case Body(body, others) =>
        EnterTop(View(), slot, home);
        PassiveLegal(body);
        var image := entries[slot.me].image.id;
        var target := if image in ctxs then ctxs[image] else ROOT;
        var prevEntry := curEntry;
        if target != home { cur, curEntry := target, Some(entries[slot.me].linked); }
        log := Run(body);
        if target != home { cur, curEntry := home, prevEntry; }
        rest := others;
    }

    /** xy_with_region. */
    method XyWithRegion(region: RegionId, body: Prog) returns (err: Err, ghost log: Log)
      requires Top(View()) && Legal(body)
      modifies this
      ensures (View(), log) == ExecCmd(old(View()), DoWith(region, body))
      ensures err == if region in old(tree) then OK else NOTFOUND
      decreases body, 1
    {
      hide Top, Exec, ExecCmd, LogOk, Kept, Legal, IsTree, NodeOk;
      WithIs(View(), region, body);
      if region !in tree { return NOTFOUND, []; }
      var prevRegion, prevEntry := cur, curEntry;
      cur, curEntry := region, Some(region);
      log := Run(body);
      cur, curEntry := prevRegion, prevEntry;
      err := OK;
    }

    /** A program: what an application, or a callback, does with the runtime. */
    method Run(p: Prog) returns (ghost log: Log)
      requires Top(View()) && Legal(p)
      modifies this
      ensures (View(), log) == Exec(old(View()), p)
      decreases p, 0
    {
      hide Top, ExecCmd, LegalCmd, LogOk, Forward, IsTree, NodeOk;
      match p
      case Done => log := [];
      case Then(c, rest) =>
        var first := RunCmd(c);
        var others := Run(rest);
        log := first + others;
    }

    method RunCmd(c: Cmd) returns (ghost log: Log)
      requires Top(View()) && LegalCmd(c)
      modifies this
      ensures (View(), log) == ExecCmd(old(View()), c)
      decreases c, 1
    {
      hide Top, Exec, Deliver, Prepare, LogOk, Kept, Load, Unload, Reload, Areg, DenyHook, DenyModule, Require,
           IsScan, IsTree, NodeOk, Shape, Extends, Core, KeyOf, EntryOk, KeyOk, ModsOk;
      TopReady(View());
      log := [];
      match c
      case DoCall(name, bodies) => var code; code, log := XyCall(name, bodies);
      case DoWith(region, body) => var err; err, log := XyWithRegion(region, body);
      case DoLoad(w, path) => var err := ModLoad(w, path);
      case DoUnload(w, path) => var err := XyUnload(w, path);
      case DoReload(w, path) => var err := XyReload(w, path);
      case _ => Configure(c);
    }

    /** The commands that load and call nothing. */
    method Configure(c: Cmd)
      requires Top(View()) && (c.DoDenyHook? || c.DoDenyModule? || c.DoRequire? || c.DoAreg?)
      modifies this
      ensures (View(), []) == ExecCmd(old(View()), c)
    {
      hide Top, ExecCmd, LogOk, Kept, Areg, DenyHook, DenyModule, Require, IsTree, NodeOk;
      TopShape(View());
      ConfigureIs(View(), c);
      match c
      case DoDenyHook(name) => XyDenyHook(name);
      case DoDenyModule(banned) => XyDenyModule(banned);
      case DoRequire(handler) => XyRequireClaim(handler);
      case DoAreg(name) => var id := XyAreg(name);
    }
  }

  /** Root's flat list with more modules at its end. */
  ghost function Pushed(caches: map<RegionId, RegionCache>, root: RegionId, more: seq<EntryId>): (r: map<RegionId,
                        RegionCache>)
    requires root in caches
    ensures r.Keys == caches.Keys
  {
    caches[root := caches[root].(subtree := caches[root].subtree + more)]
  }

  lemma PushedNothing(caches: map<RegionId, RegionCache>, root: RegionId)
    requires root in caches
    ensures Pushed(caches, root, []) == caches
  {
    assert caches[root].subtree + [] == caches[root].subtree;
    assert caches[root := caches[root]] == caches;
  }

  lemma PushedTwice(caches: map<RegionId, RegionCache>, root: RegionId, a: seq<EntryId>, b: seq<EntryId>)
    requires root in caches
    ensures Pushed(Pushed(caches, root, a), root, b) == Pushed(caches, root, a + b)
  {
    assert (caches[root].subtree + a) + b == caches[root].subtree + (a + b);
  }

  /** Region re's record once its flat list is built and its vectors reach hook h. */
  ghost function UpToDate(s: State, re: RegionId, h: nat): map<RegionId, RegionCache>
    requires Shape(s) && re in s.tree
  {
    s.caches[re := FreshList(s, re).(hooks := GrowHooks(s.caches[re].hooks, h))]
  }

  /** Region re's flat list is built, and its vectors reach hook h. */
  ghost predicate Current(s: State, re: RegionId, h: nat)
    requires Shape(s) && re in s.tree
  {
    !s.caches[re].dirty && h < |s.caches[re].hooks|
  }

  /** Bringing a region up to date does not change what refreshing makes of it. */
  lemma RefreshUpToDate(s: State, re: RegionId, h: nat)
    requires Shape(s) && re in s.tree && h < |s.hooks|
    ensures var u := s.(caches := UpToDate(s, re, h));
            && Shape(u) && Current(u, re, h)
            && Refresh(u, re, h) == Refresh(s, re, h)
            && (u.caches[re].hooks[h].gen == u.caches[re].gen ==> Refresh(s, re, h) == u)
  {
    hide Rebuilt, IsTree, NodeOk;
    RebuiltUpToDate(s, re, h);
    var u := s.(caches := UpToDate(s, re, h));
    SetTwice(s.caches, re, u.caches[re], Rebuilt(s, re, h).0);
  }

  lemma RebuiltUpToDate(s: State, re: RegionId, h: nat)
    requires Shape(s) && re in s.tree && h < |s.hooks|
    ensures var u := s.(caches := UpToDate(s, re, h));
            && Shape(u) && Current(u, re, h)
            && Rebuilt(u, re, h) == Rebuilt(s, re, h)
            && (u.caches[re].hooks[h].gen == u.caches[re].gen ==> Rebuilt(s, re, h) == (u.caches[re], s.syms))
  {
    hide Dfs, Gather, DenyChain, IsTree, NodeOk;
    SameFlags(s, s.(caches := UpToDate(s, re, h)), re);
  }

  /** Refreshing an up-to-date region whose vector is old is a scan and a stamp. */
  lemma RefreshStamps(s: State, re: RegionId, h: nat)
    requires Shape(s) && re in s.tree && h < |s.hooks| && Current(s, re, h) &&
             s.caches[re].hooks[h].gen != s.caches[re].gen
    ensures var c := s.caches[re];
            var g := Gather(s.entries, s.syms, s.denies, DenyChain(s, re), h, s.hooks[h], c.subtree);
            Refresh(s, re, h) == s.(caches := s.caches[re := c.(hooks := c.hooks[h := HookCache(g.0, c.gen,
              BannedBy(s.denies, DenyChain(s, re)))])], syms := g.1)
  {
    hide Gather, DenyChain;
  }

  lemma InDenies(s: State, re: RegionId, chain: array<RegionId>, n: nat)
    requires Shape(s) && re in s.tree && n <= chain.Length && chain[..n] == DenyChain(s, re)
    ensures forall k :: 0 <= k < n ==> chain[k] in s.denies
  {
    assert forall k :: 0 <= k < n ==> chain[k] == chain[..n][k];
  }

  lemma SameFlags(s: State, u: State, re: RegionId)
    requires Shape(s) && Shape(u) && re in s.tree && u.tree == s.tree && u.denies == s.denies
    ensures DenyChain(u, re) == DenyChain(s, re)
  {}

  /** The slots into the image are emptied in these modules. */
  ghost function ClearedIn(syms: map<EntryId, SymTab>, table: set<EntryId>, image: ImageId): map<EntryId, SymTab> {
    map m | m in syms :: if m in table then Forget(syms[m], image) else syms[m]
  }

  lemma NothingCleared(syms: map<EntryId, SymTab>, image: ImageId)
    ensures ClearedIn(syms, {}, image) == syms
  {}

  lemma ClearedStep(syms: map<EntryId, SymTab>, table: set<EntryId>, m: EntryId, image: ImageId)
    requires m !in table
    ensures var c := ClearedIn(syms, table, image);
            && c.Keys == syms.Keys
            && ClearedIn(syms, table + {m}, image) == if m in c then c[m := Forget(c[m], image)] else c
  {
    hide Forget;
  }

  lemma ClearedLess(syms: map<EntryId, SymTab>, table: set<EntryId>, e: EntryId, image: ImageId)
    ensures ClearedIn(syms, table - {e}, image) - {e} == map m | m in syms - {e} ::
            if m in table then Forget(syms[m], image) else syms[m]
  {
    hide Forget;
  }

  lemma NoChildren(scan: set<EntryId> -> seq<EntryId>, s: State, p: EntryId)
    requires Core(s) && IsScan(scan) && Kids(s, p, []) && p < s.nextEntry
    ensures UnloadAll(scan, s, p, []) == s
  {}

  /** The state once the caches and denies have forgotten e. */
  ghost function Forgotten(s: State, e: EntryId): State
    requires e in s.entries && s.entries[e].linked in s.denies
  {
    var n := s.entries[e];
    var d := s.denies[n.linked];
    s.(syms := ClearedIn(s.syms, Tabled(s) - {e}, n.image.id),
      denies := s.denies[n.linked := d.(mods := d.mods - {n.path})])
  }

  /** The steps of a teardown, in the source's order. */
  lemma RetireIs(s: State, e: EntryId)
    requires Core(s) && e in s.entries
    ensures s.entries[e].linked in s.tree && s.entries[e].linked in s.denies && s.syms.Keys == s.entries.Keys
    ensures var f := Forgotten(s, e); Shape(f) && Retire(s, e) == Scrapped(Detached(f, e), e)
  {
    hide MarkDirty, Forget, KeyOk, ModsOk, ClearedIn, Withdraw;
    EntryIsOk(s, e);
    ClearedLess(s.syms, Tabled(s), e, s.entries[e].image.id);
    WithdrawnIs(s, e);
    ForgottenShape(s, e);
  }

  lemma ForgottenShape(s: State, e: EntryId)
    requires Shape(s) && e in s.entries && s.entries[e].linked in s.denies
    ensures Shape(Forgotten(s, e))
  {
    hide Forget;
  }

  /** A reload is an unload and a load in place. */
  lemma ReloadCases(w: World, s: State, path: Path)
    requires Top(s) && IsScan(w.scan)
    ensures Core(s)
    ensures KeyAt(path, s.cur) !in s.registry ==> Reload(w, s, path) == (s, NOTFOUND)
    ensures KeyAt(path, s.cur) in s.registry ==>
              var e := s.registry[KeyAt(path, s.cur)];
              && e in s.entries && RegOk(s, e) && s.entries[e].linked in s.mods && e in s.mods[s.entries[e].linked]
              && var home := s.entries[e].linked;
                 && Placeable(w, UnloadEntry(w.scan, s, e), path, home, Before(s.mods[home], e))
                 && Reload(w, s, path) == Replace(w, UnloadEntry(w.scan, s, e), path, home, Before(s.mods[home], e))
  {
    hide UnloadEntry, Replace, Before, CachesOk, DeniesOk, SymsOk, Settled, EntryOk, KeyOk, ModsOk, Prefixed, CtxsOk,
         IsScan, Counted, RegOk, Placeable;
    if KeyAt(path, s.cur) in s.registry { var e, u, l := ReloadParts(w, s, path); }
  }

  lemma DetachedKeeps(s: State, n: EntryId)
    requires Shape(s) && n in s.entries && s.entries[n].linked in s.tree
    ensures var d := Detached(s, n);
            && d.tree == s.tree && d.entries == s.entries && d.mods.Keys == d.tree.Keys && d.caches.Keys == d.tree.Keys
            && s.mods.Keys == s.tree.Keys && s.caches.Keys == s.tree.Keys
  {}

  /** One turn of the dispatch loop: the state after it, the bodies left, and what was called inside. */
  ghost function Turn(s: State, slot: Slot, bodies: Bodies, home: RegionId): (State, Bodies, Log)
    requires Top(s) && PassiveBodies(bodies) && s.cur == home
  {
    hide Top, Passive;
    if !Dispatch.Runs(s, slot) || bodies.Silent? then (s, bodies, [])
    else
      EnterTop(s, slot, home);
      PassiveLegal(bodies.body);
      var b := Exec(Enter(s, slot, home), bodies.body);
      (b.0.(cur := s.cur, curEntry := s.curEntry), bodies.others, b.1)
  }

  lemma TurnStep(s: State, slots: seq<Slot>, bodies: Bodies, home: RegionId)
    requires Top(s) && PassiveBodies(bodies) && s.cur == home && slots != []
    ensures var t := Turn(s, slots[0], bodies, home);
            && Top(t.0) && t.0.cur == home && PassiveBodies(t.1) && (t.1 == bodies || t.1 < bodies)
            && var d := Deliver(t.0, slots[1..], t.1, home);
            && Deliver(s, slots, bodies, home) == (d.0, t.2 + d.1)
            && |Runnable(s, slots)| == (if Dispatch.Runs(s, slots[0]) then 1 else 0) + |Runnable(t.0, slots[1..])|
  {
    hide Top, Passive, Exec, Enter, LogOk, Forward;
    var t := Turn(s, slots[0], bodies, home);
    if Dispatch.Runs(s, slots[0]) && bodies.Body? {
      EnterTop(s, slots[0], home);
      PassiveLegal(bodies.body);
      var i := Enter(s, slots[0], home);
      ScopeEnds(s, i, Exec(i, bodies.body).0);
      Ledger.PassiveFrame(i, bodies.body);
    } else {
      var d := Deliver(s, slots[1..], bodies, home);
      assert [] + d.1 == d.1;
    }
    RunnableSame(s, t.0, slots[1..]);
  }

  lemma {:induction false} RunnableSame(s: State, t: State, slots: seq<Slot>)
    requires t.entries == s.entries
    ensures Runnable(t, slots) == Runnable(s, slots)
  {
    if slots != [] { RunnableSame(s, t, slots[1..]); }
  }

  lemma NothingLeft(s: State, bodies: Bodies, home: RegionId)
    requires Top(s) && PassiveBodies(bodies) && s.cur == home
    ensures Deliver(s, [], bodies, home) == (s, []) && Runnable(s, []) == []
  {
    hide Top;
  }

  lemma RefusedRunsNothing(s: State, name: Hook)
    requires Shape(s)
    ensures var q := Prepare(s, name);
            CallEvent(s, name).code == if q.1 == OK && |Runnable(q.0, q.2)| == 0 then NOTFOUND else q.1
  {
    hide Prepare, Runnable;
  }

  lemma CallIs(s: State, name: Hook, bodies: Bodies)
    requires Top(s) && PassiveBodies(bodies)
    ensures Shape(s) && Top(Prepare(s, name).0) && Prepare(s, name).0.cur == s.cur
    ensures var d := Deliver(Prepare(s, name).0, Prepare(s, name).2, bodies, s.cur);
            ExecCmd(s, DoCall(name, bodies)) == (d.0, [CallEvent(s, name)] + d.1)
  {
    hide Inv, Counted, Prepare, Deliver, CallEvent, Runnable;
    TopShape(s);
    PrepareTop(s, name);
  }

  /** What the commands that load and call nothing make of the state. */
  ghost function Configured(s: State, c: Cmd): State
    requires Shape(s) && (c.DoDenyHook? || c.DoDenyModule? || c.DoRequire? || c.DoAreg?)
  {
    match c
    case DoDenyHook(name) => DenyHook(s, name)
    case DoDenyModule(banned) => DenyModule(s, banned)
    case DoRequire(handler) => Require(s, handler)
    case DoAreg(name) => Areg(s, name)
  }

  lemma ConfigureIs(s: State, c: Cmd)
    requires Top(s) && (c.DoDenyHook? || c.DoDenyModule? || c.DoRequire? || c.DoAreg?)
    ensures Shape(s) && ExecCmd(s, c) == (Configured(s, c), [])
  {
    hide Inv, Counted, Areg, DenyHook, DenyModule, Require;
    TopShape(s);
  }

  lemma WithIs(s: State, region: RegionId, body: Prog)
    requires Top(s) && Legal(body)
    ensures region !in s.tree ==> ExecCmd(s, DoWith(region, body)) == (s, [])
    ensures region in s.tree ==>
              var inside := s.(cur := region, curEntry := Some(region));
              && Top(inside)
              && var b := Exec(inside, body);
              && b.0.loading == s.loading
              && ExecCmd(s, DoWith(region, body)) == (b.0.(cur := s.cur, curEntry := s.curEntry), b.1)
  {
    hide Inv, Counted, Exec, Legal;
    if region in s.tree { ContextTop(s, region, Some(region)); }
  }

  lemma PublishedOk(s: State, path: Path, image: Image)
    requires Shape(s)
    ensures var d := Entered(Drafted(s, path, image));
            Shape(d) && s.nextEntry in d.entries && d.entries[s.nextEntry].path == path &&
              d.entries[s.nextEntry].image == image
  {}

  lemma RefusedClaim(w: World, s: State, path: Path, image: Image)
    requires Shape(s) && Decide(w, s, path, image).Refused?
    ensures Staged(w, s, path, image) == Entered(Drafted(s, path, image))
  {}

  /** The cases of a load that opens its module. */
  lemma LoadNewIs(w: World, s: State, path: Path, image: Image)
    requires Ready(s) && path in w.images && KeyAt(path, s.cur) !in s.registry
    ensures var v := Decide(w, s, path, image);
            && (v.Refused? ==> v.err != OK && LoadNew(w, s, path, image) == (Bind(s, image, s.cur), v.err))
            && (!v.Refused? && image.install.None? ==>
                  && s.nextEntry in Admit(w, s, path, image, v).entries
                  && LoadNew(w, s, path, image) == (Withdraw(Admit(w, s, path, image, v), s.nextEntry), NOTFOUND))
            && (!v.Refused? && image.install.Some? ==>
                  && Ready(Started(w, s, path, image, v))
                  && LoadNew(w, s, path, image) == (Restore(RunScript(w, Started(w, s, path, image, v),
                    image.install.value), s), OK))
  {
    hide Decide, Admit, Withdraw, RunScript, Bind, EntryOk, KeyOk, ModsOk, Grows, Anc, Started;
    var v := Decide(w, s, path, image);
    if v.Refused? { RefusedNotOk(w, s, path, image); }
    else {
      StartedFacts(w, s, path, image, v);
      WithdrawnFacts(w, s, path, image, v);
    }
  }

  /** The state in which the install is about to run: it can load, and less is left to load than before. */
  lemma InstallReady(w: World, s: State, path: Path, image: Image, v: Verdict)
    requires Ready(s) && path in w.images && !v.Refused? && v == Decide(w, s, path, image) &&
             KeyAt(path, s.cur) !in s.registry
    ensures var a := Admit(w, s, path, image, v);
            var i := Within(a, HomeOf(s, v), s.loading);
            && Core(a) && SameContext(s, a) && s.nextEntry in a.entries
            && Ready(i.(loading := Some(s.nextEntry))) && i.(loading := Some(s.nextEntry)) ==
              Started(w, s, path, image, v)
            && (|| Room(i.tree) < Room(s.tree)
                || (Room(i.tree) == Room(s.tree) && |Unopened(w, i)| < |Unopened(w, s)|))
  {
    hide Decide, Admit, Core, Anc, AddLeaf, IsTree, NodeOk;
    InstallContext(w, s, path, image, v);
    StartedFacts(w, s, path, image, v);
    var i := Within(Admit(w, s, path, image, v), HomeOf(s, v), s.loading);
    assert Unopened(w, i) == Unopened(w, Started(w, s, path, image, v));
  }

  lemma InstallContext(w: World, s: State, path: Path, image: Image, v: Verdict)
    requires Ready(s) && !v.Refused? && v == Decide(w, s, path, image) && KeyAt(path, s.cur) !in s.registry
    ensures var a := Admit(w, s, path, image, v); Core(a) && SameContext(s, a) && s.nextEntry in a.entries
  {
    hide Decide, Admit, Core, Anc, AddLeaf, IsTree, NodeOk;
    AdmitFacts(w, s, path, image, v);
  }

  lemma RootIsTree()
    ensures IsTree(map[ROOT := ROOT_NODE])
  {
    assert NodeOk(map[ROOT := ROOT_NODE], ROOT);
  }

  lemma ChainRoot(t: Tree, d: RegionId, k: nat)
    requires d in t && k <= t[d].depth
    ensures Chain(t, d)[k] in t && (k == 0 ==> t[Chain(t, d)[k]].parent == None)
  {
    assert NodeOk(t, ROOT);
  }

  /** Marking along a chain is marking its foot and then the rest. */
  ghost function SetDirty(t: Tree, caches: map<RegionId, RegionCache>, r: RegionId): map<RegionId, RegionCache>
    requires r in t
  {
    map x | x in caches :: if Anc(t, x, r) then caches[x].(dirty := true) else caches[x]
  }

  lemma SetDirtyStep(t: Tree, c: map<RegionId, RegionCache>, r: RegionId)
    requires r in t && c.Keys == t.Keys
    ensures var c' := c[r := c[r].(dirty := true)];
            && (t[r].parent.Some? ==> t[r].parent.value in t && t[t[r].parent.value].depth < t[r].depth)
            && SetDirty(t, c, r) == if t[r].parent.Some? then SetDirty(t, c', t[r].parent.value) else c'
  {
    assert NodeOk(t, r);
    if t[r].parent.Some? && Anc(t, r, t[r].parent.value) { AncFacts(t, r, t[r].parent.value); }
  }

  lemma FlagDenyStep(t: Tree, d: map<RegionId, Denies>, r: RegionId)
    requires r in t && d.Keys == t.Keys
    ensures var d' := d[r := d[r].(flag := true)];
            && (t[r].parent.Some? ==> t[r].parent.value in t && t[t[r].parent.value].depth < t[r].depth)
            && FlagDeny(t, d, r) == if t[r].parent.Some? then FlagDeny(t, d', t[r].parent.value) else d'
  {
    assert NodeOk(t, r);
    if t[r].parent.Some? && Anc(t, r, t[r].parent.value) { AncFacts(t, r, t[r].parent.value); }
  }

  lemma BumpGensStep(t: Tree, c: map<RegionId, RegionCache>, r: RegionId)
    requires r in t && c.Keys == t.Keys
    ensures var c' := c[r := c[r].(gen := c[r].gen + 1)];
            && (t[r].parent.Some? ==> t[r].parent.value in t && t[t[r].parent.value].depth < t[r].depth)
            && BumpGens(t, c, r) == if t[r].parent.Some? then BumpGens(t, c', t[r].parent.value) else c'
  {
    assert NodeOk(t, r);
    if t[r].parent.Some? && Anc(t, r, t[r].parent.value) { AncFacts(t, r, t[r].parent.value); }
  }
}
