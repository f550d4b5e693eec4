/** Each step of an operation keeps the invariant; then loads and unloads, which are sequences of steps. */
module Steps {
  import opened Lists
  import opened Symbols
  import opened RegionTree
  import opened RegionIds
  import opened Keys
  import opened XylemState
  import opened Loading
  import opened Unloading
  import opened Invariants

  /** Entries may gain or lose references, nothing else. */
  ghost predicate SameButCounts(es: Entries, es': Entries) {
    es'.Keys == es.Keys && forall e :: e in es ==> es'[e] == es[e].(refcount := es'[e].refcount)
  }

  /** Steps that change counts, gates and the execution context. */
  lemma FrameInv(s: State, q: State)
    requires Inv(s) && Core(q) && SameButCounts(s.entries, q.entries)
    requires q.tree == s.tree && q.mods == s.mods && q.caches == s.caches && q.denies == s.denies &&
             q.registry == s.registry
    requires q.syms == s.syms && q.ctxs == s.ctxs && q.hooks == s.hooks
    requires q.everShared == s.everShared && q.everDenied == s.everDenied && q.everStray == s.everStray
    ensures Inv(q)
  {
    hide Settled;
    CachesFrame(s, q);
    forall r | r in q.tree ensures DenyOk(q, r) { assert DenyOk(s, r); }
    forall e | e in q.entries ensures SymOk(q, e) { assert SymOk(s, e); }
    SettledFrame(s, q);
  }

  /** Registration, order and place read registry, lists, tree and loaders. */
  lemma SettledFrame(s: State, q: State)
    requires Core(s) && Settled(s) && Core(q)
    requires q.tree == s.tree && q.mods == s.mods && q.registry == s.registry && SameButCounts(s.entries, q.entries)
    requires q.everStray == s.everStray
    ensures Settled(q)
  {
    hide Apart, LineageOk, EntryOk, KeyOk, ModsOk;
    LineageFrame(s, q);
    if Registered(s) { forall e | e in q.entries ensures RegOk(q, e) { assert RegOk(s, e); } }
  }

  /** Order reads the lists and the loaders. */
  lemma LineageFrame(s: State, q: State)
    requires Core(s) && LineageOk(s) && Core(q)
    requires q.tree == s.tree && q.mods == s.mods && SameButCounts(s.entries, q.entries)
    ensures LineageOk(q)
  {
    hide EntryOk, KeyOk, Desc;
    forall r | r in q.tree ensures Ordered(q.entries, q.mods[r]) {
      assert Ordered(s.entries, s.mods[r]) && ModsOk(s, r);
      OrderedFrame(s.entries, q.entries, s.mods[r]);
    }
  }

  lemma OrderedFrame(es: Entries, es': Entries, list: seq<EntryId>)
    requires Ordered(es, list) && SameButCounts(es, es')
    ensures Ordered(es', list)
  {
    hide Desc;
    forall i, j | 0 <= i < j < |list| && list[i] in es' ensures !Desc(es', list[j], list[i]) {
      DescSame(es, es', list[j], list[i]);
    }
  }

  lemma AregInv(s: State, name: Hook)
    requires Inv(s)
    ensures Inv(Areg(s, name))
  {
    hide Prewarm, CacheOk, DenyOk, Settled, Sound, Agree, EntryOk, KeyOk, ModsOk, Tabled;
    var q := Areg(s, name);
    CoreFrame(s, q);
    CachesFrame(s, q);
    forall r | r in q.tree ensures DenyOk(q, r) { assert DenyOk(s, r); DenyFrame(s, q, r); }
    forall e | e in q.entries ensures SymOk(q, e) {
      assert SymOk(s, e);
      if name !in s.hooks {
        MintSound(s.syms[e], s.entries[e].image.Syms(), s.hooks, name);
        PrewarmSound(s.syms[e], s.entries[e].image.Syms(), q.hooks);
      }
    }
    SettledFrame(s, q);
  }

  lemma DenyFrame(s: State, q: State, r: RegionId)
    requires Shape(s) && Shape(q) && r in s.tree && DenyOk(s, r)
    requires q.tree == s.tree && q.denies == s.denies && q.everDenied == s.everDenied
    ensures DenyOk(q, r)
  {}

  lemma {:induction false} AregAllInv(s: State, names: seq<Hook>)
    requires Inv(s)
    ensures Inv(AregAll(s, names))
    decreases |names|
  {
    hide CachesOk, DeniesOk, SymsOk, Settled, EntryOk, Areg;
    if names != [] {
      AregInv(s, names[0]);
      AregAllInv(Areg(s, names[0]), names[1..]);
    }
  }

  lemma InvShape(s: State)
    requires Inv(s)
    ensures Core(s) && Shape(s)
  {}

  /** A failed load leaves the image's context behind, which no live entry may be using. */
  lemma BindInv(s: State, image: Image, home: RegionId)
    requires Inv(s) && home in s.tree
    ensures Inv(Bind(s, image, home))
  {
    hide CacheOk, DenyOk, Sound, Agree;
    var q := Bind(s, image, home);
    CoreFrame(s, q);
    CachesFrame(s, q);
    forall r | r in q.tree ensures DenyOk(q, r) { assert DenyOk(s, r); DenyFrame(s, q, r); }
    forall e | e in q.entries ensures SymOk(q, e) { assert SymOk(s, e); }
    SettledFrame(s, q);
  }

  lemma AddChildInv(s: State, id: RegionId, bits: nat)
    requires Inv(s) && Claimable(s.tree, s.cur, id, bits)
    requires id == AllocSlot(s.tree.Keys, s.cur, s.tree[s.cur].plen, bits) && id != RegionIds.INVALID
    ensures Inv(AddChild(s, id, bits))
  {
    hide CacheOk, DenyOk, Sound, Agree, Ordered, MarkDirty, AddLeaf, Settled, CachesOk, KeyOk, ModsOk;
    var q := AddChild(s, id, bits);
    AddChildCore(s, id, bits);
    assert Claimed(s, q, id, bits);
    AddLeafIsTree(s.tree, s.cur, id, bits);
    ClaimPrefixed(s.tree, s.cur, bits, q.tree);
    CachesClaimed(s, q, id, bits);
    forall r | r in q.tree ensures DenyOk(q, r) { ClaimedDeny(s, q, id, bits, r); }
    forall e | e in q.entries ensures SymOk(q, e) { assert SymOk(s, e); }
    ClaimedSettled(s, q, id, bits);
  }

  lemma ClaimedDeny(s: State, q: State, id: RegionId, bits: nat, r: RegionId)
    requires Shape(s) && DeniesOk(s) && Shape(q) && Claimed(s, q, id, bits) && r in q.tree
    ensures DenyOk(q, r)
  {
    hide MarkDirty;
    if r != id { assert DenyOk(s, r) && NodeOk(s.tree, r); }
  }

  lemma ClaimedSettled(s: State, q: State, id: RegionId, bits: nat)
    requires Core(s) && Settled(s) && Core(q) && Claimed(s, q, id, bits)
    ensures Settled(q)
  {
    hide LineageOk, EntryOk, KeyOk, ModsOk, MarkDirty, AddLeaf, Registered;
    AddLeafExtends(s.tree, s.cur, id, bits);
    ClaimedLineage(s, q, id, bits);
    RegisteredFrame(s, q);
    if Apart(q.tree) { assert Apart(s.tree); }
  }

  lemma ClaimedLineage(s: State, q: State, id: RegionId, bits: nat)
    requires Core(s) && LineageOk(s) && Core(q) && Claimed(s, q, id, bits)
    ensures LineageOk(q)
  {
    hide MarkDirty, AddLeaf, EntryOk, KeyOk, ModsOk, Ordered, IsTree, NodeOk, Extends;
    AddLeafExtends(s.tree, s.cur, id, bits);
    forall r | r in q.tree ensures Ordered(q.entries, q.mods[r]) {
      if r in s.tree { assert Ordered(s.entries, s.mods[r]); } else { NothingOrdered(q.entries); }
    }
  }

  lemma NothingOrdered(es: Entries)
    ensures Ordered(es, [])
  {}

  // ---- linking and unlinking ----

  /** An enrolled entry is new, so nothing was loaded by it. */
  lemma EnrollInv(s: State, path: Path, image: Image, home: RegionId)
    requires Inv(s) && Ready(s) && home in s.tree && KeyAt(path, s.cur) !in s.registry
    requires home == s.cur || s.mods[home] == []
    ensures Inv(Enroll(s, path, image, home))
  {
    hide CacheOk, DenyOk, Sound, Agree, Ordered, MarkDirty, Prewarm, Settled, CachesOk, DeniesOk, SymsOk, KeyOk, ModsOk;
    var q := Enroll(s, path, image, home);
    EnrollCore(s, path, image, home);
    EnrollAdds(s, path, image, home);
    FreshId(s);
    EnrollCaches(s, path, image, home);
    DeniesFrame(s, q);
    EnrollSyms(s, path, image, home);
    AddedSettled(s, q, s.nextEntry, Entry(path, image, home, home, 1, s.loading));
  }

  lemma DeniesFrame(s: State, q: State)
    requires Shape(s) && DeniesOk(s) && Shape(q)
    requires q.tree == s.tree && q.denies == s.denies && q.everDenied == s.everDenied
    ensures DeniesOk(q)
  {
    forall r | r in q.tree ensures DenyOk(q, r) { assert DenyOk(s, r); DenyFrame(s, q, r); }
  }

  lemma EnrollCaches(s: State, path: Path, image: Image, home: RegionId)
    requires Core(s) && CachesOk(s) && home in s.tree
    ensures CachesOk(Enroll(s, path, image, home))
  {
    hide CachesOk, MarkDirty, Prewarm, IsTree, NodeOk, Extends, Shape, Anc;
    FreshId(s);
    MarkDirtyMarks(s, Enroll(s, path, image, home), home);
    CachesRelinked(s, Enroll(s, path, image, home), home);
  }

  lemma EnrollSyms(s: State, path: Path, image: Image, home: RegionId)
    requires Core(s) && SymsOk(s) && home in s.tree
    ensures SymsOk(Enroll(s, path, image, home))
  {
    hide MarkDirty, Prewarm, Sound, Agree, Shape;
    FreshId(s);
    var q, n := Enroll(s, path, image, home), s.nextEntry;
    assert Sound(NO_SYMS, image.Syms(), s.hooks) && Agree(NO_SYMS) by { NoSymsSound(image, s.hooks); }
    PrewarmSound(NO_SYMS, image.Syms(), s.hooks);
    forall e | e in q.entries ensures SymOk(q, e) { if e != n { assert SymOk(s, e); } }
  }

  lemma NoSymsSound(image: Image, hooks: seq<Hook>)
    ensures Sound(NO_SYMS, image.Syms(), hooks) && Agree(NO_SYMS)
  {}

  lemma AddedSettled(s: State, q: State, e: EntryId, n: Entry)
    requires Core(s) && Settled(s) && Core(q) && Added(s, q, e, n) && e !in s.entries && q.everStray == s.everStray
    requires KeyAt(n.path, s.cur) !in s.registry && (n.region == s.cur || s.mods[n.region] == [])
    ensures Settled(q)
  {
    hide LineageOk, EntryOk, KeyOk, ModsOk, Registered;
    AddedLineage(s, q, e, n);
    if Apart(q.tree) {
      if n.region != s.cur { EmptyHasNoKey(s, n.path, n.region); }
      AddedRegistered(s, q, e, n);
    }
  }

  /** A region without modules has no keys, unless it shares its digits with another, or a module strayed. */
  lemma EmptyHasNoKey(s: State, path: Path, r: RegionId)
    requires Core(s) && Apart(s.tree) && InStep(s.entries) && r in s.tree && s.mods[r] == []
    ensures KeyAt(path, r) !in s.registry
  {
    if KeyAt(path, r) in s.registry {
      assert KeyOk(s, KeyAt(path, r));
      EntryIsOk(s, s.registry[KeyAt(path, r)]);
    }
  }

  lemma AddedLineage(s: State, q: State, e: EntryId, n: Entry)
    requires Core(s) && LineageOk(s) && Core(q) && Added(s, q, e, n) && e !in s.entries
    ensures LineageOk(q)
  {
    hide KeyOk, ModsOk, EntryOk, Ordered;
    forall r | r in q.tree ensures Ordered(q.entries, q.mods[r]) { AddedOrdered(s, q, e, n, r); }
  }

  lemma AddedOrdered(s: State, q: State, e: EntryId, n: Entry, r: RegionId)
    requires Core(s) && LineageOk(s) && Added(s, q, e, n) && e !in s.entries && r in s.tree
    ensures r in q.mods && Ordered(q.entries, q.mods[r])
  {
    hide KeyOk, EntryOk, Desc;
    assert Ordered(s.entries, s.mods[r]) && ModsOk(s, r);
    var list := q.mods[r];
    forall i, j | 0 <= i < j < |list| && list[i] in q.entries ensures !Desc(q.entries, list[j], list[i]) {
      EarlierId(s, list[i]);
      if list[j] == e {
        if Desc(q.entries, e, list[i]) { DescOrder(q.entries, e, list[i]); }
      } else {
        assert list[i] == s.mods[r][i] && list[j] == s.mods[r][j];
        if Desc(q.entries, list[j], list[i]) { DescBefore(s, q.entries, e, list[j], list[i]); }
      }
    }
  }

  /** A newer entry has no part in who descends from whom. */
  lemma {:induction false} DescBefore(s: State, es: Entries, e: EntryId, a: EntryId, m: EntryId)
    requires Core(s) && e == s.nextEntry && e in es && es == s.entries[e := es[e]] && m in s.entries
    requires Desc(es, a, m)
    ensures Desc(s.entries, a, m)
    decreases m
  {
    hide KeyOk, ModsOk, EntryOk;
    EarlierId(s, m);
    if m != a { DescBefore(s, es, e, a, s.entries[m].parent.value); }
  }

  lemma RemovedSettled(s: State, q: State, e: EntryId)
    requires Core(s) && Settled(s) && Core(q) && Removed(s, q, e) && q.everStray == s.everStray
    ensures Settled(q)
  {
    hide Apart, LineageOk, EntryOk, KeyOk, ModsOk;
    RemovedLineage(s, q, e);
    if Apart(q.tree) {
      assert RegOk(s, e);
      RemovedTable(s, q, e);
      forall m | m in q.entries ensures RegOk(q, m) { assert RegOk(s, m); }
    }
  }

  lemma RemovedLineage(s: State, q: State, e: EntryId)
    requires Core(s) && LineageOk(s) && Core(q) && Removed(s, q, e)
    ensures LineageOk(q)
  {
    hide KeyOk, ModsOk, EntryOk, IsTree, NodeOk, Ordered;
    forall r | r in q.tree ensures Ordered(q.entries, q.mods[r]) {
      assert Ordered(s.entries, s.mods[r]);
      if r == s.entries[e].linked { WithoutOrdered(s.entries, s.mods[r], e); }
      OrderedSub(s.entries, q.entries, q.mods[r]);
    }
  }

  lemma OrderedSub(es: Entries, es': Entries, list: seq<EntryId>)
    requires Ordered(es, list) && forall x :: x in es' ==> x in es && es'[x].parent == es[x].parent
    ensures Ordered(es', list)
  {
    hide Desc;
    forall i, j | 0 <= i < j < |list| && list[i] in es' ensures !Desc(es', list[j], list[i]) {
      if Desc(es', list[j], list[i]) { DescFewer(es, es', list[j], list[i]); }
    }
  }

  /** Losing entries makes no new descendants. */
  lemma {:induction false} DescFewer(es: Entries, es': Entries, a: EntryId, m: EntryId)
    requires forall x :: x in es' ==> x in es && es'[x].parent == es[x].parent
    requires m in es' && Desc(es', a, m)
    ensures Desc(es, a, m)
    decreases m
  {
    if m != a { DescFewer(es, es', a, es'[m].parent.value); }
  }

  lemma WithoutOrdered(es: Entries, list: seq<EntryId>, e: EntryId)
    requires Ordered(es, list)
    ensures Ordered(es, Without(list, e))
  {
    hide Desc;
    var k, r := IndexOf(list, e), Without(list, e);
    assert forall i :: 0 <= i < |r| ==> r[i] == list[if i < k then i else i + 1];
  }

  /** q is s without entry e and, perhaps, some module denies of its region; others may have forgotten its image. */
  ghost predicate TornDown(s: State, q: State, e: EntryId)
    requires Shape(s)
  {
    && Removed(s, q, e)
    && var x := s.entries[e].linked;
    && x in s.tree
    && q.caches == MarkDirty(s.tree, s.caches, x)
    && q.hooks == s.hooks && q.ctxs == s.ctxs && q.everDenied == s.everDenied && q.everShared == s.everShared
    && q.everStray == s.everStray
    && FewerDenies(s, q, x)
    && q.syms.Keys == q.entries.Keys
    && forall m :: m in q.entries ==> q.syms[m] == s.syms[m] || q.syms[m] == Forget(s.syms[m], s.entries[e].image.id)
  }

  ghost predicate FewerDenies(s: State, q: State, x: RegionId)
    requires Shape(s) && x in s.tree
  {
    && q.denies.Keys == s.denies.Keys
    && (forall r :: r in s.tree && r != x ==> q.denies[r] == s.denies[r])
    && q.denies[x] == s.denies[x].(mods := q.denies[x].mods) && q.denies[x].mods <= s.denies[x].mods
  }

  /** What unlinking and unregistering an entry keeps, whatever happens to its own region's module denies. */
  lemma RemovedInv(s: State, q: State, e: EntryId)
    requires Inv(s) && Shape(q) && TornDown(s, q, e)
    ensures Inv(q)
  {
    hide CachesOk, DeniesOk, SymsOk, Settled, EntryOk, KeyOk, ModsOk, MarkDirty, Forget, FewerDenies;
    RemovedCore(s, q, e);
    TornCaches(s, q, e);
    TornDenies(s, q, s.entries[e].linked);
    TornSyms(s, q, e);
    RemovedSettled(s, q, e);
  }

  lemma TornCaches(s: State, q: State, e: EntryId)
    requires Core(s) && CachesOk(s) && Shape(q) && TornDown(s, q, e)
    ensures CachesOk(q)
  {
    hide CachesOk, MarkDirty, Forget, IsTree, NodeOk, Shape;
    MarkDirtyMarks(s, q, s.entries[e].linked);
    CachesRelinked(s, q, s.entries[e].linked);
  }

  lemma TornDenies(s: State, q: State, x: RegionId)
    requires Shape(s) && Shape(q) && x in s.tree && DeniesOk(s) && FewerDenies(s, q, x)
    requires q.tree == s.tree && q.everDenied == s.everDenied
    ensures DeniesOk(q)
  {
    forall r | r in q.tree ensures DenyOk(q, r) { assert DenyOk(s, r); }
  }

  lemma TornSyms(s: State, q: State, e: EntryId)
    requires Shape(s) && SymsOk(s) && Shape(q) && TornDown(s, q, e)
    ensures SymsOk(q)
  {
    hide SymOk, MarkDirty, FewerDenies;
    forall x | x in q.entries ensures SymOk(q, x) { RemovedSym(s, q, e, x); }
  }

  lemma RemovedSym(s: State, q: State, e: EntryId, x: EntryId)
    requires Shape(s) && SymsOk(s) && Shape(q) && e in s.entries && x in q.entries && q.entries == s.entries - {e}
    requires q.hooks == s.hooks && q.ctxs == s.ctxs && q.everShared == s.everShared
    requires q.syms[x] == s.syms[x] || q.syms[x] == Forget(s.syms[x], s.entries[e].image.id)
    ensures SymOk(q, x)
  {
    hide Sound, Agree, Forget;
    assert SymOk(s, x);
    ForgetSound(s.syms[x], s.entries[x].image.Syms(), s.hooks, s.entries[e].image.id);
  }

  lemma WithdrawInv(s: State, e: EntryId)
    requires Inv(s) && e in s.entries
    ensures Inv(Withdraw(s, e))
  {
    hide Inv, MarkDirty;
    InvShape(s);
    EntryIsOk(s, e);
    RemovedInv(s, Withdraw(s, e), e);
  }

  lemma RetireInv(s: State, e: EntryId)
    requires Inv(s) && e in s.entries
    ensures Inv(Retire(s, e))
  {
    hide Inv, MarkDirty, Forget;
    InvShape(s);
    EntryIsOk(s, e);
    RetireRemoves(s, e);
    RemovedInv(s, Retire(s, e), e);
  }

  // ---- settings ----

  lemma FlagMeaning(s: State, r: RegionId, d: Denies, x: RegionId)
    requires Shape(s) && r in s.tree && x in s.tree
    ensures var was := if x == r then d else s.denies[x];
            FlagDeny(s.tree, s.denies[r := d], r)[x] == was.(flag := was.flag || Anc(s.tree, x, r))
  {}

  /** Adding a deny flags the region and everything above it. */
  lemma DenyInv(s: State, q: State, d: Denies)
    requires Inv(s) && Core(q)
    requires q.tree == s.tree && q.mods == s.mods && q.entries == s.entries && q.registry == s.registry
    requires q.syms == s.syms && q.ctxs == s.ctxs && q.hooks == s.hooks
    requires q.caches == BumpGens(s.tree, s.caches, s.cur)
    requires q.denies == FlagDeny(s.tree, s.denies[s.cur := d], s.cur)
    requires s.everDenied <= q.everDenied && q.everShared == s.everShared
    requires d.mods != {} ==> s.cur in q.everDenied
    requires q.everStray == s.everStray
    ensures Inv(q)
  {
    hide DenyOk, SymOk, BumpGens, FlagDeny, Settled, CachesOk, EntryOk, KeyOk, ModsOk, IsTree, NodeOk;
    DenyCaches(s, q, d);
    forall r | r in q.tree ensures DenyOk(q, r) { DeniedRegion(s, q, d, r); }
    SymsFrame(s, q);
    SettledFrame(s, q);
  }

  lemma DenyCaches(s: State, q: State, d: Denies)
    requires Core(s) && CachesOk(s) && Shape(q)
    requires q.tree == s.tree && q.mods == s.mods && q.entries == s.entries && q.hooks == s.hooks
    requires q.caches == BumpGens(s.tree, s.caches, s.cur)
    requires q.denies == FlagDeny(s.tree, s.denies[s.cur := d], s.cur)
    requires s.everDenied <= q.everDenied && q.everShared == s.everShared
    ensures CachesOk(q)
  {
    hide BumpGens, FlagDeny, CachesOk, EntryOk, KeyOk, ModsOk, IsTree, NodeOk;
    forall r | r in s.tree && r != s.cur ensures q.denies[r].mods == s.denies[r].mods { FlagMeaning(s, s.cur, d, r); }
    CachesDeny(s, q);
  }

  /** Symbol caches and contexts do not depend on denies, caches or lists. */
  lemma SymsFrame(s: State, q: State)
    requires Shape(s) && Shape(q) && SymsOk(s)
    requires q.entries == s.entries && q.syms == s.syms && q.ctxs == s.ctxs && q.hooks == s.hooks &&
             q.everShared == s.everShared
    ensures SymsOk(q)
  {
    hide Sound, Agree;
    forall e | e in q.entries ensures SymOk(q, e) { assert SymOk(s, e); }
  }

  lemma DeniedRegion(s: State, q: State, d: Denies, r: RegionId)
    requires Shape(s) && DeniesOk(s) && Shape(q) && r in s.tree && q.tree == s.tree
    requires q.denies == FlagDeny(s.tree, s.denies[s.cur := d], s.cur)
    requires s.everDenied <= q.everDenied && (d.mods != {} ==> s.cur in q.everDenied)
    ensures DenyOk(q, r)
  {
    hide FlagDeny;
    FlagMeaning(s, s.cur, d, r);
    assert DenyOk(s, r) && NodeOk(s.tree, r);
    AncSelf(s.tree, s.cur);
    if s.tree[r].parent.Some? { FlagMeaning(s, s.cur, d, s.tree[r].parent.value); }
    if Anc(s.tree, r, s.cur) && s.tree[r].parent.Some? {
      AncSelf(s.tree, s.tree[r].parent.value);
      AncTrans(s.tree, s.tree[r].parent.value, r, s.cur);
    }
  }

  lemma SettingInv(s: State, act: Action)
    requires Inv(s) && Ready(s) && !act.ALoad?
    ensures Inv(Setting(s, act))
  {
    hide Inv, BumpGens, FlagDeny, IsTree, NodeOk, Extends, NoDup;
    SettingFacts(s, act);
    var q := Setting(s, act);
    match act
    case ARequire(h) => FrameInv(s, q);
    case ADenyHook(h) => InvDenied(s); DenyInv(s, q, s.denies[s.cur].(hooks := s.denies[s.cur].hooks + {h}));
    case ADenyModule(p) => DenyInv(s, q, s.denies[s.cur].(mods := s.denies[s.cur].mods + {p}));
  }

  lemma InvDenied(s: State)
    requires Inv(s)
    ensures s.denies[s.cur].mods != {} ==> s.cur in s.everDenied
  {
    assert DenyOk(s, s.cur);
  }

  // ---- loads ----

  lemma AdmitInv(w: World, s: State, path: Path, image: Image, v: Verdict)
    requires Inv(s) && Ready(s)
    requires !v.Refused? && v == Decide(w, s, path, image) && KeyAt(path, s.cur) !in s.registry
    ensures Inv(Admit(w, s, path, image, v))
  {
    hide CachesOk, DeniesOk, SymsOk, Settled, EntryOk, KeyOk, ModsOk, Decide, Enroll, MarkDirty, AddLeaf;
    if v.Flat? {
      EnrollInv(s, path, image, s.cur);
    } else {
      GrantIsSlot(w, s, path, image);
      AddChildInv(s, v.id, v.bits);
      var c := AddChild(s, v.id, v.bits);
      AddLeafExtends(s.tree, s.cur, v.id, v.bits);
      EnrollInv(c, path, image, v.id);
    }
  }

  /** A granted region is the slot the allocator found. */
  lemma GrantIsSlot(w: World, s: State, path: Path, image: Image)
    requires Shape(s)
    ensures var v := Decide(w, s, path, image);
            v.Granted? ==>
              v.id == AllocSlot(s.tree.Keys, s.cur, s.tree[s.cur].plen, v.bits) && v.id != RegionIds.INVALID
  {}

  /** xy_load keeps the invariant. */
  lemma {:induction false} LoadInv(w: World, s: State, path: Path)
    requires Inv(s) && Ready(s)
    ensures Inv(Load(w, s, path).0)
    decreases Room(s.tree), |Unopened(w, s)|, 1
  {
    hide CachesOk, DeniesOk, SymsOk, Settled, EntryOk, KeyOk, ModsOk, LoadNew, AregAll;
    if path in w.images {
      var image := w.images[path];
      var s0 := AregAll(s, image.constructs);
      AregAllInv(s, image.constructs);
      AregAllCore(s, image.constructs);
      assert Unopened(w, s0) == Unopened(w, s);
      if KeyAt(path, s.cur) in s0.registry {
        RegisteredLive(s0, KeyAt(path, s.cur));
        RetainInv(s0, s0.registry[KeyAt(path, s.cur)]);
      } else {
        LoadNewInv(w, s0, path, image);
      }
    }
  }

  lemma RetainInv(s: State, e: EntryId)
    requires Inv(s) && e in s.entries
    ensures Inv(Retain(s, e))
  {
    hide CachesOk, DeniesOk, SymsOk, Settled, EntryOk, KeyOk, ModsOk;
    RetainCore(s, e);
    FrameInv(s, Retain(s, e));
  }

  lemma RegisteredLive(s: State, k: Key)
    requires Core(s) && k in s.registry
    ensures s.registry[k] in s.entries && KeyOf(s.entries[s.registry[k]]) == k && RegOk(s, s.registry[k])
  {
    assert KeyOk(s, k);
  }

  lemma {:induction false} LoadNewInv(w: World, s: State, path: Path, image: Image)
    requires Inv(s) && Ready(s) && path in w.images && KeyAt(path, s.cur) !in s.registry
    ensures Inv(LoadNew(w, s, path, image).0)
    decreases Room(s.tree), |Unopened(w, s)|, 0
  {
    hide CachesOk, DeniesOk, SymsOk, Settled, EntryOk, KeyOk, ModsOk, Decide, Admit, Withdraw, Bind, Grows, RunScript;
    var v := Decide(w, s, path, image);
    if v.Refused? {
      BindInv(s, image, s.cur);
    } else {
      AdmitInv(w, s, path, image, v);
      var a := Admit(w, s, path, image, v);
      if image.install.None? {
        WithdrawnFacts(w, s, path, image, v);
        WithdrawInv(a, s.nextEntry);
      } else {
        var i := Started(w, s, path, image, v);
        StartedFacts(w, s, path, image, v);
        StartedInv(w, s, path, image, v);
        RunScriptInv(w, i, image.install.value);
        var j := RunScript(w, i, image.install.value);
        FinishedFacts(w, s, path, image, v, j);
        FrameInv(j, Restore(j, s));
      }
    }
  }

  lemma StartedInv(w: World, s: State, path: Path, image: Image, v: Verdict)
    requires Ready(s) && !v.Refused? && v == Decide(w, s, path, image) && KeyAt(path, s.cur) !in s.registry
    requires Inv(Admit(w, s, path, image, v))
    ensures Inv(Started(w, s, path, image, v))
  {
    hide CachesOk, DeniesOk, SymsOk, Settled, EntryOk, KeyOk, ModsOk, Decide, Admit, AddLeaf;
    AdmitFacts(w, s, path, image, v);
    var a, i := Admit(w, s, path, image, v), Started(w, s, path, image, v);
    CoreFrame(a, i);
    FrameInv(a, i);
  }

  lemma {:induction false} RunScriptInv(w: World, s: State, acts: seq<Action>)
    requires Inv(s) && Ready(s)
    ensures Inv(RunScript(w, s, acts))
    decreases Room(s.tree), |Unopened(w, s)|, |acts| + 1
  {
    hide CachesOk, DeniesOk, SymsOk, Settled, EntryOk, KeyOk, ModsOk, Load, Setting, Unopened, Grows;
    if acts != [] {
      var s1 := if acts[0].ALoad? then Load(w, s, acts[0].path).0 else Setting(s, acts[0]);
      if acts[0].ALoad? { LoadInv(w, s, acts[0].path); }
      else { SettingInv(s, acts[0]); SettingFacts(s, acts[0]); }
      ScriptStep(w, s, s1);
      RunScriptInv(w, s1, acts[1..]);
    }
  }

  // ---- unloads ----

  lemma {:induction false} UnloadEntryInv(scan: set<EntryId> -> seq<EntryId>, s: State, e: EntryId)
    requires Inv(s) && e in s.entries && RegOk(s, e) && IsScan(scan)
    ensures Inv(UnloadEntry(scan, s, e))
    decreases s.nextEntry - e, 1, 0
  {
    hide CachesOk, DeniesOk, SymsOk, Settled, EntryOk, KeyOk, ModsOk, IsScan, Shrinks, Retire, ChildrenOf, UnloadAll,
         UnloadEntry, Spares, Kids, IsTree, NodeOk;
    UnloadEntryIs(scan, s, e);
    var s1 := Release(s, e);
    FrameInv(s, s1);
    if s1.entries[e].refcount <= 0 {
      var kids := ChildrenOf(scan, s1, e);
      UnloadAllInv(scan, s1, e, kids);
      RetireInv(UnloadAll(scan, s1, e, kids), e);
    }
  }

  lemma {:induction false} UnloadAllInv(scan: set<EntryId> -> seq<EntryId>, s: State, p: EntryId, cs: seq<EntryId>)
    requires Inv(s) && IsScan(scan) && Kids(s, p, cs) && p < s.nextEntry
    ensures Inv(UnloadAll(scan, s, p, cs))
    decreases s.nextEntry - p, 0, |cs|
  {
    hide CachesOk, DeniesOk, SymsOk, Settled, EntryOk, KeyOk, ModsOk, IsScan, Shrinks, UnloadEntry, Spares, Kids,
         IsTree, NodeOk;
    if cs != [] {
      ChildStep(scan, s, p, cs);
      if s.entries[cs[0]].image.hasCtx { UnloadEntryInv(scan, s, cs[0]); }
      UnloadAllInv(scan, if s.entries[cs[0]].image.hasCtx then UnloadEntry(scan, s, cs[0]) else s, p, cs[1..]);
    }
  }
}
