/**
 Where the promises end: the exact conditions under which contexts, registry keys and
 denies mean what they are documented to mean, and how they fail outside them.
 */
module Limits {
  import opened Wrappers
  import opened Bits
  import opened Lists
  import opened Symbols
  import opened Keys
  import opened RegionTree
  import opened RegionIds
  import opened XylemState
  import opened Loading
  import opened Unloading
  import opened Dispatch
  import opened Invariants
  import opened Steps
  import opened Coherence
  import opened Programs
  import opened Reloading

  // ---- registry ----

  /**
   While no two regions share the digits of their keys, as when all prefixes stay within 60
   bits, the registry holds exactly the live modules, each under its own key and once.
   */
  lemma RegistryExact(s: State)
    requires Inv(s) && (Apart(s.tree) || Shallow(s.tree))
    ensures forall k :: k in s.registry ==> s.registry[k] in s.entries && KeyOf(s.entries[s.registry[k]]) == k
    ensures forall e :: e in s.entries ==> KeyOf(s.entries[e]) in s.registry && s.registry[KeyOf(s.entries[e])] == e
    ensures forall d, e :: d in s.entries && e in s.entries && KeyOf(s.entries[d]) == KeyOf(s.entries[e]) ==> d == e
    ensures Tabled(s) == s.entries.Keys
  {
    hide CachesOk, DeniesOk, SymsOk, LineageOk, EntryOk, ModsOk, Shallow, Apart;
    if Shallow(s.tree) { ShallowApart(s.tree); }
    SettledMeans(s);
    TabledIsLive(s);
    forall k | k in s.registry ensures s.registry[k] in s.entries && KeyOf(s.entries[s.registry[k]]) == k {
      RegisteredLive(s, k);
    }
    forall e | e in s.entries ensures KeyOf(s.entries[e]) in s.registry && s.registry[KeyOf(s.entries[e])] == e {
      assert RegOk(s, e);
    }
  }

  /** The byte strings the table stores then tell all live modules apart. */
  lemma RegistryBytesDistinct(s: State, d: EntryId, e: EntryId)
    requires Inv(s) && (Apart(s.tree) || Shallow(s.tree)) && d in s.entries && e in s.entries
    requires Measured(ModKey(s.entries[d].path, s.entries[d].region)) ==
             Measured(ModKey(s.entries[e].path, s.entries[e].region))
    ensures d == e
  {
    hide CachesOk, DeniesOk, SymsOk, Settled, KeyOk, ModsOk, Shallow, Apart;
    var a, b := s.entries[d].region, s.entries[e].region;
    EntryIsOk(s, d);
    EntryIsOk(s, e);
    assert PrefixOk(s.tree, a) && PrefixOk(s.tree, b);
    KeyIsBytes(s.entries[d].path, a, s.entries[e].path, b);
    RegistryExact(s);
  }

  /** Below 60 bits two regions of one tree can share a key: the ids 0 and 8 differ only in a digit that is cut off. */
  lemma DeepKeysCollide(path: Text)
    requires NulFree(path)
    ensures Measured(ModKey(path, 0)) == Measured(ModKey(path, 8))
  {
    KeysEqualIff(path, 0, path, 8);
  }

  /**
   A granted claim moves the new module's key from the caller's region to the new one: put,
   then delete. The module is in the table afterwards exactly when the two keys differ; if
   they are the same bytes, the delete takes out what was just put.
   */
  lemma RekeyKeepsIff(w: World, s: State, path: Path, image: Image, v: Verdict)
    requires Ready(s) && v.Granted? && v == Decide(w, s, path, image) && KeyAt(path, s.cur) !in s.registry
    ensures var a := Admit(w, s, path, image, v);
            && s.nextEntry in a.entries && a.entries[s.nextEntry].region == v.id
            && (s.nextEntry in Tabled(a) <==> v.id / 16 != s.cur / 16)
            && (s.nextEntry in Tabled(a) <==> Measured(ModKey(path, v.id)) != Measured(ModKey(path, s.cur)))
  {
    hide Decide, Admit, AddLeaf, Anc, EntryOk, ModsOk, NodeOk;
    AdmitFacts(w, s, path, image, v);
    assert NodeOk(s.tree, s.cur) && s.cur < TWO64 by { InTree(s.tree, s.cur); }
    KeyIsBytes(path, v.id, path, s.cur);
    PutKeepsIff(s, path, s.cur, v.id, s.nextEntry);
  }

  lemma InTree(t: Tree, r: RegionId)
    requires r in t
    ensures NodeOk(t, r) && r < TWO64
  {}

  lemma PutKeepsIff(s: State, path: Path, from: RegionId, home: RegionId, e: EntryId)
    requires Core(s) && e == s.nextEntry && home != from
    ensures e in Put(s.registry, path, from, home, e).Values <==> home / 16 != from / 16
  {
    hide EntryOk, ModsOk;
    var r := Put(s.registry, path, from, home, e);
    if home / 16 != from / 16 { assert KeyAt(path, home) in r.Keys && r[KeyAt(path, home)] == e; }
    if e in r.Values {
      var k :| k in r && r[k] == e;
      if k in s.registry && s.registry[k] == e { assert KeyOk(s, k); FreshId(s); }
    }
  }

  // ---- contexts ----

  /** Every live module's context names its own region. */
  ghost predicate ContextsAgree(s: State) {
    forall e :: e in s.entries && s.entries[e].image.hasCtx ==>
      s.entries[e].image.id in s.ctxs && s.ctxs[s.entries[e].image.id] == s.entries[e].region
  }

  /**
   An image has one context, whatever number of regions it is loaded in: loading it for
   region `home` leaves the other modules' contexts right exactly when no live module of
   that image lives elsewhere.
   */
  lemma BindAgreesIff(s: State, image: Image, home: RegionId)
    requires ContextsAgree(s) && image.hasCtx
    ensures ContextsAgree(Bind(s, image, home)) <==>
            forall e :: e in s.entries && s.entries[e].image.hasCtx && s.entries[e].image.id == image.id ==>
              s.entries[e].region == home
  {
    var q := Bind(s, image, home);
    if e :| && e in s.entries && s.entries[e].image.hasCtx && s.entries[e].image.id == image.id
            && s.entries[e].region != home
    {
      assert e in q.entries && q.ctxs[q.entries[e].image.id] != q.entries[e].region;
    }
  }

  // ---- denies ----

  /** s as a caller in region r sees it. */
  function At(s: State, r: RegionId): State {
    s.(cur := r, curEntry := Some(r))
  }

  /** Which code a call gets before anything runs. */
  lemma CallCode(s: State, r: RegionId, name: Hook)
    requires Shape(s) && r in s.tree && name in s.hooks
    ensures Prepare(At(s, r), name).1 == if HookDenied(s.denies, DenyChain(s, r), name) then EPERM else OK
  {
    hide Refresh, HookDenied, Chain;
  }

  /**
   A hook denied in the current region is refused there, but a region below it whose flag
   is clear is let through, although the deny covers descendants by its documentation.
   */
  lemma DenyNotInherited(s: State, name: Hook, d: RegionId)
    requires Inv(s) && name in s.hooks && d in s.tree && d != s.cur && Anc(s.tree, s.cur, d) && !s.denies[d].flag
    ensures var q := DenyHook(s, name);
            && Prepare(At(q, s.cur), name).1 == EPERM
            && Prepare(At(q, d), name).1 == OK
            && HookDenied(q.denies, Chain(q.tree, d), name)
  {
    hide CachesOk, DeniesOk, SymsOk, Settled, EntryOk, KeyOk, ModsOk, DenyHook, Prepare, Chain;
    var q := DenyHook(s, name);
    DenySpreadsUp(s, name, d);
    CallCode(q, s.cur, name);
    CallCode(q, d, name);
    ChainFits(s.tree, s.cur);
    AncChain(s.tree, s.cur, d);
  }

  lemma DenySpreadsUp(s: State, name: Hook, d: RegionId)
    requires Shape(s) && d in s.tree && d != s.cur && Anc(s.tree, s.cur, d)
    ensures var q := DenyHook(s, name);
            && Shape(q) && q.tree == s.tree && q.hooks == s.hooks && q.cur == s.cur
            && name in q.denies[s.cur].hooks && q.denies[s.cur].flag && q.denies[d].flag == s.denies[d].flag
  {
    AncSelf(s.tree, s.cur);
    AncFacts(s.tree, s.cur, d);
    if Anc(s.tree, d, s.cur) { AncFacts(s.tree, d, s.cur); }
  }

  /**
   A vector that is current below a region goes on being used after a module deny there:
   the deny enters a new generation only at the region itself and above.
   */
  lemma WarmVectorIgnoresDeny(s: State, banned: Path, d: RegionId, name: Hook)
    requires Shape(s) && d in s.tree && !Anc(s.tree, d, s.cur) && name in s.hooks
    requires var h, c := IndexOf(s.hooks, name), s.caches[d]; !c.dirty && h < |c.hooks| && c.hooks[h].gen == c.gen
    ensures var q := DenyModule(s, banned);
            && Prepare(At(q, d), name).1 == Prepare(At(s, d), name).1
            && Prepare(At(q, d), name).2 == Prepare(At(s, d), name).2
  {
    hide HookDenied, DenyChain, DenyModule, Prepare;
    var q := DenyModule(s, banned);
    OffThePath(s, banned, d);
    HooksOnly(s, banned, DenyChain(s, d), name);
    SameChain(s, q, d);
    WarmCall(s, d, name);
    WarmCall(q, d, name);
  }

  lemma OffThePath(s: State, banned: Path, d: RegionId)
    requires Shape(s) && d in s.tree && !Anc(s.tree, d, s.cur)
    ensures var q := DenyModule(s, banned);
            Shape(q) && q.tree == s.tree && q.hooks == s.hooks && q.caches[d] == s.caches[d] &&
              q.denies[d].flag == s.denies[d].flag
  {}

  lemma SameChain(s: State, q: State, d: RegionId)
    requires Shape(s) && Shape(q) && d in s.tree && q.tree == s.tree && q.denies[d].flag == s.denies[d].flag
    ensures DenyChain(q, d) == DenyChain(s, d)
  {}

  /** A call that finds its vector current uses it as it is. */
  lemma WarmCall(s: State, d: RegionId, name: Hook)
    requires Shape(s) && d in s.tree && name in s.hooks
    requires var h, c := IndexOf(s.hooks, name), s.caches[d]; !c.dirty && h < |c.hooks| && c.hooks[h].gen == c.gen
    ensures var denied := HookDenied(s.denies, DenyChain(s, d), name);
            && Prepare(At(s, d), name).1 == (if denied then EPERM else OK)
            && Prepare(At(s, d), name).2 == if denied then [] else s.caches[d].hooks[IndexOf(s.hooks, name)].slots
  {
    hide Gather, Dfs, HookDenied, Chain;
  }

  lemma HooksOnly(s: State, banned: Path, chain: seq<RegionId>, name: Hook)
    requires Shape(s)
    ensures HookDenied(DenyModule(s, banned).denies, chain, name) <==> HookDenied(s.denies, chain, name)
  {
    var q := DenyModule(s, banned);
    assert forall a :: a in s.denies ==> a in q.denies && q.denies[a].hooks == s.denies[a].hooks;
  }

  // ---- what a vector leaves out, and what it should ----

  /** m would be called for this hook if nothing were denied. */
  predicate Listens(es: Entries, name: Hook, m: EntryId) {
    m in es && es[m].image.hasCtx && name in es[m].image.exports
  }

  lemma {:induction false} InListening(es: Entries, banned: set<Path>, name: Hook, list: seq<EntryId>, m: EntryId)
    ensures (exists slot :: slot in Listening(es, banned, name, list) && slot.me == m)
            <==> m in list && Listens(es, name, m) && es[m].path !in banned
  {
    if list != [] {
      InListening(es, banned, name, list[1..], m);
      var rest := Listening(es, banned, name, list[1..]);
      assert Listening(es, banned, name, list) == rest || Listening(es, banned, name, list)[0].me == list[0];
      assert forall slot :: slot in rest ==> slot in Listening(es, banned, name, list);
      assert m in list <==> m == list[0] || m in list[1..];
    }
  }

  /** Two filters leave the same calls exactly when they treat every listening module alike. */
  lemma {:induction false} ListeningEqIff(es: Entries, a: set<Path>, b: set<Path>, name: Hook, list: seq<EntryId>)
    ensures Listening(es, a, name, list) == Listening(es, b, name, list) <==>
            forall m :: m in list && Listens(es, name, m) ==> (es[m].path in a <==> es[m].path in b)
  {
    if forall m :: m in list && Listens(es, name, m) ==> (es[m].path in a <==> es[m].path in b) {
      ListeningAlike(es, a, b, name, list);
    } else {
      var m :| m in list && Listens(es, name, m) && !(es[m].path in a <==> es[m].path in b);
      InListening(es, a, name, list, m);
      InListening(es, b, name, list, m);
    }
  }

  lemma {:induction false} ListeningAlike(es: Entries, a: set<Path>, b: set<Path>, name: Hook, list: seq<EntryId>)
    requires forall m :: m in list && Listens(es, name, m) ==> (es[m].path in a <==> es[m].path in b)
    ensures Listening(es, a, name, list) == Listening(es, b, name, list)
  {
    if list != [] {
      assert list[0] in list;
      ListeningAlike(es, a, b, name, list[1..]);
    }
  }

  /**
   A deny is documented to cover all descendants of the region it is made in. Any call that
   is not refused, warm or rebuilt, meets that exactly when its filter, recorded or computed,
   treats every listening module of the subtree as the denies of all regions above do.
   */
  lemma CallDocumentedIff(s: State, name: Hook)
    requires Inv(s) && !s.everShared && Prepare(s, name).1 == OK
    ensures var r := CallerRegion(s);
            var list, filter, all := Dfs(s.tree, s.mods, r), Filter(s, r, name), BannedBy(s.denies, Chain(s.tree, r));
            Prepare(s, name).2 == Listening(s.entries, all, name, list)
            <==> forall m :: m in list && Listens(s.entries, name, m) ==>
              (s.entries[m].path in filter <==> s.entries[m].path in all)
  {
    hide Dfs, Listening, Listens, Prepare, Chain, Filter, BannedBy, CachesOk, DeniesOk, SymsOk, Settled, EntryOk,
         KeyOk, ModsOk;
    var r := CallerRegion(s);
    CallIsFiltered(s, name);
    ListeningEqIff(s.entries, Filter(s, r, name), BannedBy(s.denies, Chain(s.tree, r)), name, Dfs(s.tree, s.mods, r));
  }

  /** The vector of this hook is missing, or of an older generation. */
  ghost predicate Outdated(s: State, r: RegionId, name: Hook)
    requires Shape(s) && r in s.tree
  {
    var h, c := IndexOf(s.hooks, name), s.caches[r];
    h < |c.hooks| ==> c.hooks[h].gen != c.gen
  }

  /** While no image was shared, a call that has to rebuild its vector filters by exactly the denies it consults. */
  lemma RebuiltCall(s: State, name: Hook)
    requires Inv(s) && !s.everShared && Prepare(s, name).1 == OK && Outdated(s, CallerRegion(s), name)
    ensures var r := CallerRegion(s);
            Prepare(s, name).2 == Listening(s.entries, BannedBy(s.denies, DenyChain(s, r)), name,
              Dfs(s.tree, s.mods, r))
  {
    hide Dfs, Listening, Prepare, DenyChain, BannedBy, CachesOk, DeniesOk, SymsOk, Settled, EntryOk, KeyOk, ModsOk;
    CallIsFiltered(s, name);
  }

  /**
   For a call that rebuilds, the condition is that its region is flagged, or no listening module
   is banned by a region above alone.
   */
  lemma RebuiltCallDocumentedIff(s: State, name: Hook)
    requires Inv(s) && !s.everShared && Prepare(s, name).1 == OK && Outdated(s, CallerRegion(s), name)
    ensures var r := CallerRegion(s);
            var list := Dfs(s.tree, s.mods, r);
            Prepare(s, name).2 == Listening(s.entries, BannedBy(s.denies, Chain(s.tree, r)), name, list)
            <==> (s.denies[r].flag ||
                  forall m, a :: m in list && Listens(s.entries, name, m) && a in Chain(s.tree, r) && a != r
                                 ==> s.entries[m].path !in s.denies[a].mods)
  {
    hide Dfs, Listening, HookDenied, EntryOk, KeyOk, ModsOk, Settled, SymOk, Prepare, Chain, Listens, IsTree, NodeOk;
    var r := CallerRegion(s);
    CallDocumentedIff(s, name);
    assert DenyOk(s, r);
    assert r in Chain(s.tree, r) by { AncSelf(s.tree, r); AncChain(s.tree, r, r); }
  }

  /**
   So a warm vector goes on calling a module that a region above has just banned: whenever
   the vector of a proper descendant is current and had not left the module out before.
   */
  lemma WarmVectorCallsBanned(s: State, d: RegionId, name: Hook, m: EntryId)
    requires Inv(s) && !s.everShared && d in s.tree && d != s.cur && Anc(s.tree, s.cur, d) && name in s.hooks
    requires var h, c := IndexOf(s.hooks, name), s.caches[d]; h < |c.hooks| && c.hooks[h].gen == c.gen
    requires Prepare(At(s, d), name).1 == OK
    requires m in Dfs(s.tree, s.mods, d) && Listens(s.entries, name, m) && s.entries[m].path !in Filter(s, d, name)
    ensures var q := DenyModule(s, s.entries[m].path);
            && Prepare(At(q, d), name).1 == OK
            && (exists slot :: slot in Prepare(At(q, d), name).2 && slot.me == m)
            && s.entries[m].path in BannedBy(q.denies, Chain(q.tree, d))
  {
    hide Dfs, Listening, Prepare, DenyModule, Filter, BannedBy, CachesOk, DeniesOk, SymsOk, Settled, EntryOk, KeyOk,
         ModsOk, IsTree, NodeOk;
    AncFacts(s.tree, s.cur, d);
    if Anc(s.tree, d, s.cur) { AncFacts(s.tree, d, s.cur); }
    CurrentIsClean(s, d, name);
    WarmVectorIgnoresDeny(s, s.entries[m].path, d, name);
    ContextInv(s, d, name);
    CallIsFiltered(At(s, d), name);
    InListening(s.entries, Filter(s, d, name), name, Dfs(s.tree, s.mods, d), m);
    BannedAbove(s, s.entries[m].path, d);
  }

  lemma CurrentIsClean(s: State, d: RegionId, name: Hook)
    requires Inv(s) && d in s.tree
    requires var h, c := IndexOf(s.hooks, name), s.caches[d]; h < |c.hooks| && c.hooks[h].gen == c.gen
    ensures !s.caches[d].dirty
  {
    hide Dfs, Listening, EntryOk, KeyOk, ModsOk;
    assert CacheOk(s, d);
    assert SlotsOk(s, d, IndexOf(s.hooks, name));
  }

  /** The invariant does not read the execution context, and neither does the filter. */
  lemma ContextInv(s: State, d: RegionId, name: Hook)
    requires Inv(s) && d in s.tree
    ensures Inv(At(s, d)) && Filter(At(s, d), d, name) == Filter(s, d, name)
  {
    hide CachesOk, DeniesOk, SymsOk, Settled, EntryOk, KeyOk, ModsOk, Chain, BannedBy;
    CoreFrame(s, At(s, d));
    FrameInv(s, At(s, d));
  }

  lemma BannedAbove(s: State, banned: Path, d: RegionId)
    requires Shape(s) && d in s.tree && Anc(s.tree, s.cur, d)
    ensures var q := DenyModule(s, banned); d in q.tree && banned in BannedBy(q.denies, Chain(q.tree, d))
  {
    hide BumpGens, Chain;
    AncSelf(s.tree, s.cur);
    AncChain(s.tree, s.cur, d);
    var q := DenyModule(s, banned);
    assert banned in q.denies[s.cur].mods;
  }

  // ---- claim gates ----

  /**
   A region that requires claims never takes in a module itself: whatever a load brings,
   down to the installs it runs, goes into regions below, and a module without a claim is
   turned away.
   */
  lemma GateHolds(w: World, s: State, path: Path)
    requires Ready(s) && s.gates[s.cur].required && KeyAt(path, s.cur) !in s.registry
    ensures var q := Load(w, s, path).0;
            && s.cur in s.mods && s.cur in q.mods && q.mods[s.cur] == s.mods[s.cur]
            && (Apart(q.tree) ==> KeyAt(path, s.cur) !in q.registry)
    ensures path in w.images && w.images[path].claim.None? ==> Load(w, s, path).1 == EPERM
  {
    hide AregAll, LoadNew, Grows, EntryOk, KeyOk, ModsOk, Apart;
    if path in w.images {
      AregAllCore(s, w.images[path].constructs);
      GatedNew(w, AregAll(s, w.images[path].constructs), path, w.images[path]);
    }
  }

  lemma GatedNew(w: World, s: State, path: Path, image: Image)
    requires Ready(s) && s.gates[s.cur].required && path in w.images && KeyAt(path, s.cur) !in s.registry
    ensures var q := LoadNew(w, s, path, image).0;
            && s.cur in s.mods && s.cur in q.mods && q.mods[s.cur] == s.mods[s.cur]
            && (Apart(q.tree) ==> KeyAt(path, s.cur) !in q.registry)
    ensures image.claim.None? ==> LoadNew(w, s, path, image).1 == EPERM
  {
    hide Decide, Admit, Bind, Withdraw, RunScript, Started, Grows, EntryOk, KeyOk, ModsOk, IsTree, NodeOk, Apart;
    var v := Decide(w, s, path, image);
    NeverFlat(w, s, path, image);
    BindKeepsLists(s, image);
    if v.Granted? {
      GrantedAway(s, w, path, image, v);
      if image.install.Some? {
        StartedFacts(w, s, path, image, v);
        var i := Started(w, s, path, image, v);
        InstalledBelow(w, s, path, image, v, RunScript(w, i, image.install.value));
      }
    }
  }

  lemma NeverFlat(w: World, s: State, path: Path, image: Image)
    requires Shape(s) && s.gates[s.cur].required
    ensures var v := Decide(w, s, path, image); !v.Flat? && (image.claim.None? ==> v == Refused(EPERM))
  {}

  lemma BindKeepsLists(s: State, image: Image)
    ensures Bind(s, image, s.cur).mods == s.mods && Bind(s, image, s.cur).registry == s.registry
  {}

  /** A claim that is undone leaves the caller's region as it was. */
  lemma GrantedAway(s: State, w: World, path: Path, image: Image, v: Verdict)
    requires Ready(s) && v.Granted? && v == Decide(w, s, path, image) && KeyAt(path, s.cur) !in s.registry
    ensures s.nextEntry in Admit(w, s, path, image, v).entries
    ensures var q := Withdraw(Admit(w, s, path, image, v), s.nextEntry);
            s.cur in s.mods && s.cur in q.mods && q.mods[s.cur] == s.mods[s.cur] && KeyAt(path, s.cur) !in q.registry
  {
    hide Decide, Admit, Withdraw, AddLeaf, Anc, EntryOk, KeyOk, ModsOk;
    AdmitFacts(w, s, path, image, v);
    WithdrawFacts(s, Admit(w, s, path, image, v), path, image, v);
  }

  /** What an install in a claimed region loads stays out of the claimer's parent. */
  lemma InstalledBelow(w: World, s: State, path: Path, image: Image, v: Verdict, j: State)
    requires Ready(s) && path in w.images && v.Granted? && v == Decide(w, s, path, image) &&
             KeyAt(path, s.cur) !in s.registry
    requires var i := Started(w, s, path, image, v); Ready(j) && Grows(i, j, i.cur, i.loading)
    ensures s.cur in s.mods && s.cur in j.mods && j.mods[s.cur] == s.mods[s.cur]
    ensures Apart(j.tree) ==> KeyAt(path, s.cur) !in j.registry
  {
    hide Decide, Started, Anc, Grows, EntryOk, KeyOk, ModsOk, IsTree, NodeOk, Apart;
    StartedBelow(w, s, path, image, v);
    if Apart(j.tree) {
      ApartIds(Started(w, s, path, image, v), j, s.cur, v.id);
      ClaimLeavesNoKey(w, s, path, image, v, j);
    }
    ListStays(s, Started(w, s, path, image, v), j, v.id);
  }

  lemma ApartIds(i: State, j: State, a: RegionId, b: RegionId)
    requires Grows(i, j, i.cur, i.loading) && Apart(j.tree) && a in i.tree && b in i.tree && a != b
    ensures a / 16 != b / 16
  {
    hide Anc;
  }

  lemma StartedBelow(w: World, s: State, path: Path, image: Image, v: Verdict)
    requires Ready(s) && path in w.images && v.Granted? && v == Decide(w, s, path, image) &&
             KeyAt(path, s.cur) !in s.registry
    ensures var i := Started(w, s, path, image, v);
            && Core(i) && i.cur == v.id && v.id !in s.tree && v.id in i.tree && s.cur in i.tree &&
              Anc(i.tree, s.cur, v.id)
            && s.cur in i.mods && s.cur in s.mods && i.mods[s.cur] == s.mods[s.cur]
  {
    hide Decide, Admit, AddLeaf, Anc, EntryOk, KeyOk, ModsOk, IsTree, NodeOk;
    StartedFacts(w, s, path, image, v);
    AdmitFacts(w, s, path, image, v);
  }

  lemma ListStays(s: State, i: State, j: State, home: RegionId)
    requires Core(s) && Core(i) && Core(j) && home !in s.tree && home in i.tree && s.cur in i.tree &&
             Anc(i.tree, s.cur, home)
    requires s.cur in i.mods && i.mods[s.cur] == s.mods[s.cur] && Grows(i, j, home, i.loading)
    ensures s.cur in j.mods && j.mods[s.cur] == s.mods[s.cur]
  {
    hide KeyOk, EntryOk, Anc, Extends, IsTree, NodeOk;
    assert ListGrown(i, j, s.cur) && ModsOk(j, s.cur);
    if |j.mods[s.cur]| > |i.mods[s.cur]| {
      var x := j.mods[s.cur][|i.mods[s.cur]|];
      assert x in j.mods[s.cur];
      if x in i.entries { EarlierId(i, x); }
      assert NewEntry(i, j, x, home, i.loading);
      ExtendsAnc(i.tree, j.tree, s.cur, home);
      AncFacts(j.tree, home, s.cur);
      AncFacts(j.tree, s.cur, home);
    }
  }
}
