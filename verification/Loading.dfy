/**
 xy_load as a function of the state (src/libxylem-module.c:53-118). It recurs through
 xy_install; it terminates because each load either claims one of finitely many regions, or
 registers its path in the current one before its install runs.
 */
module Loading {
  import opened Wrappers
  import opened Lists
  import opened Symbols
  import opened RegionTree
  import opened Keys
  import opened XylemState

  /** The paths that a load into the current region would still have to open. */
  function Unopened(w: World, s: State): set<Path> {
    set p | p in w.images && KeyAt(p, s.cur) !in s.registry
  }

  ghost predicate EntryKept(s: State, s': State, e: EntryId)
    requires e in s.entries
  {
    e in s'.entries
    && s'.entries[e] == s.entries[e].(refcount := s'.entries[e].refcount)
    && s'.entries[e].refcount >= s.entries[e].refcount
  }

  ghost predicate ListGrown(s: State, s': State, r: RegionId)
    requires r in s.mods
  {
    r in s'.mods && s.mods[r] <= s'.mods[r] && forall i :: |s.mods[r]| <= i < |s'.mods[r]| ==>
      s'.mods[r][i] >= s.nextEntry
  }

  /** A new entry descends from the loader, and lives under the region it was loaded in. */
  ghost predicate NewEntry(s: State, s': State, e: EntryId, home: RegionId, loader: Option<EntryId>)
    requires e in s'.entries
  {
    var n := s'.entries[e];
    && e >= s.nextEntry
    && n.refcount >= 1
    && (n.parent == loader || (n.parent.Some? && n.parent.value >= s.nextEntry && n.parent.value in s'.entries))
    && n.linked == n.region && n.region in s'.tree && Anc(s'.tree, home, n.region)
  }

  /** No key is lost, and every new module has one. */
  ghost predicate KeysGrown(s: State, s': State) {
    && (forall k :: k in s.registry ==> k in s'.registry && s'.registry[k] == s.registry[k])
    && (forall e {:trigger RegOk(s', e)} :: e in s'.entries && e !in s.entries ==> RegOk(s', e))
  }

  /**
   What happens to the table: the keys of regions up to `home` stay, since a claim gives an id above its parent's;
   a key that leads elsewhere leads to a new module; without a new region no key is lost; and unless two regions
   share their keys' digits everything stays registered.
   */
  ghost predicate KeysKept(s: State, s': State, home: RegionId) {
    && (forall k :: k in s.registry && k.high <= home / 16 ==> k in s'.registry && s'.registry[k] == s.registry[k])
    && (forall k :: k in s'.registry ==>
          s'.registry[k] >= s.nextEntry || (k in s.registry && s'.registry[k] == s.registry[k]))
    && (s'.tree.Keys == s.tree.Keys ==> KeysGrown(s, s'))
    && (Registered(s) && Apart(s'.tree) ==> Registered(s'))
  }

  /** What loading into `home` on behalf of `loader` may do to everything but the execution context. */
  ghost predicate Grows(s: State, s': State, home: RegionId, loader: Option<EntryId>) {
    && Extends(s.tree, s'.tree)
    && KeysKept(s, s', home)
    && s.nextEntry <= s'.nextEntry
    && s.hooks <= s'.hooks
    && (s.everShared ==> s'.everShared) && s.everDenied <= s'.everDenied && s'.everStray == s.everStray
    && (forall r {:trigger ListGrown(s, s', r)} :: r in s.mods ==> ListGrown(s, s', r))
    && (forall e {:trigger EntryKept(s, s', e)} :: e in s.entries ==> EntryKept(s, s', e))
    && (forall e {:trigger NewEntry(s, s', e, home, loader)} :: e in s'.entries && e !in s.entries ==>
      NewEntry(s, s', e, home, loader))
  }

  ghost predicate SameContext(s: State, s': State) {
    s'.cur == s.cur && s'.curEntry == s.curEntry && s'.loading == s.loading
  }

  /** Retire nothing, link nothing: only hook names and symbol caches differ. */
  lemma AregAllCore(s: State, names: seq<Hook>)
    requires Core(s)
    ensures Core(AregAll(s, names)) && Grows(s, AregAll(s, names), s.cur, s.loading)
  {
    var r := AregAll(s, names);
    CoreFrame(s, r);
    GrowsFrame(s, r);
  }

  /** Core reads neither hooks, symbols, caches, denies, gates nor contexts. */
  lemma CoreFrame(s: State, r: State)
    requires Core(s) && Shape(r)
    requires r.tree == s.tree && r.mods == s.mods && r.entries == s.entries && r.registry == s.registry &&
             r.nextEntry >= s.nextEntry
    ensures Core(r)
  {
    forall e | e in r.entries ensures EntryOk(r, e) { assert EntryOk(s, e); }
    forall k | k in r.registry ensures KeyOk(r, k) { assert KeyOk(s, k); }
    forall x | x in r.mods ensures ModsOk(r, x) { assert ModsOk(s, x); }
  }

  lemma GrowsFrame(s: State, r: State)
    requires r.tree == s.tree && r.mods == s.mods && r.entries == s.entries && r.registry == s.registry
    requires r.nextEntry >= s.nextEntry && s.hooks <= r.hooks
    requires (s.everShared ==> r.everShared) && s.everDenied <= r.everDenied && r.everStray == s.everStray
    ensures Grows(s, r, s.cur, s.loading)
  {
    RegisteredFrame(s, r);
  }

  /** Registration reads entries and registry. */
  lemma RegisteredFrame(s: State, r: State)
    requires r.entries == s.entries && r.registry == s.registry
    ensures Registered(r) <==> Registered(s)
  {
    if Registered(s) { forall e | e in r.entries ensures RegOk(r, e) { assert RegOk(s, e); } }
    if Registered(r) { forall e | e in s.entries ensures RegOk(s, e) { assert RegOk(r, e); } }
  }

  /** Entries whose reference count alone changed are still registered and linked. */
  lemma CountCore(s: State, r: State, e: EntryId)
    requires Core(s) && e in s.entries
    requires e in r.entries && r == s.(entries := s.entries[e := s.entries[e].(refcount := r.entries[e].refcount)])
    ensures Core(r)
  {
    forall x | x in r.entries ensures EntryOk(r, x) { assert EntryOk(s, x); }
    forall k | k in r.registry ensures KeyOk(r, k) { assert KeyOk(s, k); }
    forall x | x in r.mods ensures ModsOk(r, x) { assert ModsOk(s, x); }
  }

  lemma RetainCore(s: State, e: EntryId)
    requires Core(s) && e in s.entries
    ensures Core(Retain(s, e)) && Grows(s, Retain(s, e), s.cur, s.loading)
  {
    CountCore(s, Retain(s, e), e);
    CountRegistered(s, Retain(s, e), e);
  }

  lemma CountRegistered(s: State, r: State, e: EntryId)
    requires e in s.entries && e in r.entries
    requires r == s.(entries := s.entries[e := s.entries[e].(refcount := r.entries[e].refcount)])
    ensures Registered(s) ==> Registered(r)
  {
    if Registered(s) { forall x | x in r.entries ensures RegOk(r, x) { assert RegOk(s, x); } }
  }

  lemma AddChildCore(s: State, id: RegionId, bits: nat)
    requires Core(s) && Claimable(s.tree, s.cur, id, bits)
    ensures Core(AddChild(s, id, bits))
  {
    var r := AddChild(s, id, bits);
    forall e | e in r.entries ensures EntryOk(r, e) { assert EntryOk(s, e); }
    forall k | k in r.registry ensures KeyOk(r, k) { assert KeyOk(s, k); }
    forall x | x in r.mods ensures ModsOk(r, x) { if x in s.mods { assert ModsOk(s, x); } }
  }

  /** r is s with entry e, a module `n`, at the tail of its region. */
  ghost predicate Added(s: State, r: State, e: EntryId, n: Entry) {
    && r.tree == s.tree && n.linked == n.region && n.region in s.mods
    && r.entries == s.entries[e := n]
    && r.registry == Put(s.registry, n.path, s.cur, n.region, e)
    && r.mods == s.mods[n.region := s.mods[n.region] + [e]]
    && r.nextEntry > s.nextEntry && e == s.nextEntry
  }

  lemma AddedCore(s: State, r: State, e: EntryId, n: Entry)
    requires Core(s) && Shape(r) && Added(s, r, e, n)
    requires n.parent.Some? ==> n.parent.value < e
    ensures Core(r)
  {
    hide Added, EntryOk, KeyOk, ModsOk;
    FreshId(s);
    AddedLists(s, r, e, n);
    forall x | x in r.entries ensures EntryOk(r, x) { AddedEntry(s, r, e, n, x); }
    forall k | k in r.registry ensures KeyOk(r, k) { AddedKey(s, r, e, n, k); }
    forall x | x in r.mods ensures ModsOk(r, x) { AddedMods(s, r, e, n, x); }
  }

  lemma AddedLists(s: State, r: State, e: EntryId, n: Entry)
    requires Added(s, r, e, n)
    ensures r.mods.Keys == s.mods.Keys && e == s.nextEntry
  {}

  lemma AddedEntry(s: State, r: State, e: EntryId, n: Entry, x: EntryId)
    requires Core(s) && Shape(r) && Added(s, r, e, n) && e !in s.entries && x in r.entries
    requires n.parent.Some? ==> n.parent.value < e
    ensures EntryOk(r, x)
  {
    hide KeyOk, ModsOk;
    if x in s.entries { assert EntryOk(s, x); }
  }

  lemma AddedKey(s: State, r: State, e: EntryId, n: Entry, k: Key)
    requires Core(s) && Added(s, r, e, n) && e !in s.entries && k in r.registry
    ensures KeyOk(r, k)
  {
    hide EntryOk, ModsOk;
    if k in s.registry { assert KeyOk(s, k); }
  }

  /** A new module is registered unless it moved between regions that share their keys' digits. */
  lemma AddedRegistered(s: State, r: State, e: EntryId, n: Entry)
    requires Core(s) && Registered(s) && Added(s, r, e, n) && e !in s.entries && KeyAt(n.path, s.cur) !in s.registry
    requires n.region == s.cur || (KeyOf(n) !in s.registry && n.region / 16 != s.cur / 16)
    ensures Registered(r)
  {
    hide EntryOk, KeyOk, ModsOk;
    forall x | x in r.entries ensures RegOk(r, x) { if x in s.entries { assert RegOk(s, x); } }
  }

  lemma AddedMods(s: State, r: State, e: EntryId, n: Entry, x: RegionId)
    requires Core(s) && Added(s, r, e, n) && x in s.mods && e !in s.entries
    ensures ModsOk(r, x)
  {
    assert ModsOk(s, x);
    if x == n.region { AppNoDup(s.mods[x], [e]); }
  }

  lemma FreshId(s: State)
    requires Core(s)
    ensures s.nextEntry !in s.entries
  {
    if s.nextEntry in s.entries { EntryIsOk(s, s.nextEntry); }
  }

  lemma EnrollAdds(s: State, path: Path, image: Image, home: RegionId)
    requires Shape(s) && home in s.tree
    ensures Added(s, Enroll(s, path, image, home), s.nextEntry, Entry(path, image, home, home, 1, s.loading))
  {
    hide MarkDirty, Prewarm, Dlsym;
  }

  lemma EnrollCore(s: State, path: Path, image: Image, home: RegionId)
    requires Ready(s) && home in s.tree
    ensures Core(Enroll(s, path, image, home))
  {
    hide Enroll;
    EnrollAdds(s, path, image, home);
    AddedCore(s, Enroll(s, path, image, home), s.nextEntry, Entry(path, image, home, home, 1, s.loading));
  }

  /** r is s without entry e. */
  ghost predicate Removed(s: State, r: State, e: EntryId) {
    && e in s.entries && s.entries[e].linked in s.mods
    && r.tree == s.tree && r.nextEntry == s.nextEntry
    && r.entries == s.entries - {e}
    && r.registry == s.registry - {KeyOf(s.entries[e])}
    && r.mods == s.mods[s.entries[e].linked := Without(s.mods[s.entries[e].linked], e)]
  }

  lemma RemovedCore(s: State, r: State, e: EntryId)
    requires Core(s) && Shape(r) && Removed(s, r, e)
    ensures Core(r)
  {
    assert EntryOk(s, e);
    forall x | x in r.mods ensures ModsOk(r, x) && forall y :: y in s.mods[x] && y != e ==> y in r.mods[x] {
      RemovedMods(s, r, e, x);
    }
    forall x | x in r.entries ensures EntryOk(r, x) { assert EntryOk(s, x); }
    forall k | k in r.registry ensures KeyOk(r, k) { assert KeyOk(s, k); }
  }

  lemma RemovedMods(s: State, r: State, e: EntryId, x: RegionId)
    requires Core(s) && Removed(s, r, e) && x in s.mods
    ensures ModsOk(r, x) && forall y :: y in s.mods[x] && y != e ==> y in r.mods[x]
  {
    assert ModsOk(s, x) && EntryOk(s, e);
    WithoutFacts(s.mods[x], e);
  }

  lemma WithdrawCore(s: State, e: EntryId)
    requires Core(s) && e in s.entries
    ensures Core(Withdraw(s, e))
  {
    hide MarkDirty, Core;
    assert Core(s) ==> EntryOk(s, e) by { EntryIsOk(s, e); }
    RemovedCore(s, Withdraw(s, e), e);
  }

  lemma EntryIsOk(s: State, e: EntryId)
    requires Core(s) && e in s.entries
    ensures EntryOk(s, e)
  {}

  lemma EarlierId(s: State, e: EntryId)
    requires Core(s) && e in s.entries
    ensures e < s.nextEntry
  {
    EntryIsOk(s, e);
  }

  /** The state in which a new module's xy_install is about to run. */
  function Admit(w: World, s: State, path: Path, image: Image, v: Verdict): (r: State)
    requires Core(s) && !v.Refused? && v == Decide(w, s, path, image)
    requires s.loading.Some? ==> s.loading.value < s.nextEntry
    ensures Core(r)
  {
    hide Decide, Enroll, AddLeaf, MarkDirty;
    if v.Flat? then
      EnrollCore(s, path, image, s.cur);
      Enroll(s, path, image, s.cur)
    else
      AddChildCore(s, v.id, v.bits);
      var c := AddChild(s, v.id, v.bits);
      AddLeafExtends(s.tree, s.cur, v.id, v.bits);
      EnrollCore(c, path, image, v.id);
      Enroll(c, path, image, v.id)
  }

  /** If the key of a region that is not there leads to a module, that module's region shares the key's digits. */
  lemma NoKeyOutsideTree(s: State, t: Tree, path: Path, id: RegionId)
    requires Core(s) && id !in s.tree && id in t && s.tree.Keys <= t.Keys && Apart(t)
    ensures KeyAt(path, id) !in s.registry
  {
    if KeyAt(path, id) in s.registry {
      assert KeyOk(s, KeyAt(path, id));
      EntryIsOk(s, s.registry[KeyAt(path, id)]);
    }
  }

  /** The region a new module runs in: the current one, or the one it claimed. */
  function HomeOf(s: State, v: Verdict): RegionId {
    if v.Granted? then v.id else s.cur
  }

  /** What admission makes of the state, in one place. */
  ghost predicate Admitted(s: State, r: State, path: Path, image: Image, v: Verdict) {
    var e, home := s.nextEntry, HomeOf(s, v);
    && e !in s.entries && KeyAt(path, s.cur) !in s.registry
    && r.nextEntry == e + 1 && r.hooks == s.hooks
    && (s.everShared ==> r.everShared) && r.everDenied == s.everDenied && r.everStray == s.everStray
    && r.entries == s.entries[e := Entry(path, image, home, home, 1, s.loading)]
    && r.registry == Put(s.registry, path, s.cur, home, e)
    && home in r.tree && s.cur in r.tree && Anc(r.tree, s.cur, home)
    && Extends(s.tree, r.tree)
    && SameContext(s, r)
    && (v.Flat? ==> home in s.mods && r.tree == s.tree && r.mods == s.mods[home := s.mods[home] + [e]])
    && (v.Granted? ==> home !in s.tree && s.cur in s.tree && r.tree == AddLeaf(s.tree, s.cur, home, v.bits)
                       && r.mods == s.mods[home := [e]])
  }

  lemma AdmitFacts(w: World, s: State, path: Path, image: Image, v: Verdict)
    requires Ready(s) && !v.Refused? && v == Decide(w, s, path, image)
    requires KeyAt(path, s.cur) !in s.registry
    ensures Admitted(s, Admit(w, s, path, image, v), path, image, v)
  {
    hide MarkDirty, Prewarm, Decide, AddLeaf, Admitted, Enroll;
    if v.Flat? { FlatFacts(s, path, image); }
    else { GrantedFacts(s, path, image, v.id, v.bits); }
  }

  lemma FlatFacts(s: State, path: Path, image: Image)
    requires Ready(s) && KeyAt(path, s.cur) !in s.registry
    ensures Admitted(s, Enroll(s, path, image, s.cur), path, image, Flat)
  {
    hide AddLeaf, Anc, MarkDirty, Prewarm;
    FreshId(s);
    AncSelf(s.tree, s.cur);
    EnrollAdds(s, path, image, s.cur);
  }

  lemma GrantedFacts(s: State, path: Path, image: Image, id: RegionId, bits: nat)
    requires Ready(s) && Claimable(s.tree, s.cur, id, bits) && KeyAt(path, s.cur) !in s.registry
    ensures var c := AddChild(s, id, bits);
            id in c.tree && Admitted(s, Enroll(c, path, image, id), path, image, Granted(id, bits))
  {
    hide Added, Admitted, AddLeaf, Anc, MarkDirty, Enroll, Extends;
    var c := AddChild(s, id, bits);
    AddLeafExtends(s.tree, s.cur, id, bits);
    AddLeafAnc(s.tree, s.cur, id, bits, c.tree, s.cur, id);
    AncSelf(s.tree, s.cur);
    EnrollAdds(c, path, image, id);
    var r := Enroll(c, path, image, id);
    EnrollContext(c, path, image, id);
    AdmittedByGrant(s, c, r, path, image, id, bits);
  }

  lemma EnrollContext(s: State, path: Path, image: Image, home: RegionId)
    requires Shape(s) && home in s.tree
    ensures var r := Enroll(s, path, image, home);
            && SameContext(s, r) && r.hooks == s.hooks && r.nextEntry == s.nextEntry + 1
            && (s.everShared ==> r.everShared) && r.everDenied == s.everDenied && r.everStray == s.everStray
  {
    hide MarkDirty, Prewarm, Dlsym;
  }

  lemma AdmittedByGrant(s: State, c: State, r: State, path: Path, image: Image, id: RegionId, bits: nat)
    requires Ready(s) && id !in s.tree && s.cur in s.tree && KeyAt(path, s.cur) !in s.registry && c.cur == s.cur
    requires c.tree == AddLeaf(s.tree, s.cur, id, bits) && c.mods == s.mods[id := []]
    requires c.entries == s.entries && c.registry == s.registry && c.nextEntry == s.nextEntry
    requires id in c.tree && Anc(c.tree, s.cur, id) && Extends(s.tree, c.tree)
    requires Added(c, r, s.nextEntry, Entry(path, image, id, id, 1, s.loading))
    requires SameContext(s, r) && r.hooks == s.hooks && r.nextEntry == s.nextEntry + 1
    requires (s.everShared ==> r.everShared) && r.everDenied == s.everDenied && r.everStray == s.everStray
    ensures Admitted(s, r, path, image, Granted(id, bits))
  {
    hide AddLeaf, Anc, Core;
    FreshId(s);
    assert c.mods[id] + [s.nextEntry] == [s.nextEntry];
    assert s.mods[id := []][id := [s.nextEntry]] == s.mods[id := [s.nextEntry]];
  }

  lemma AddLeafExtends(t: Tree, p: RegionId, c: RegionId, bits: nat)
    requires p in t && c !in t
    ensures Extends(t, AddLeaf(t, p, c, bits))
    ensures AddLeaf(t, p, c, bits).Keys == t.Keys + {c}
    ensures AddLeaf(t, p, c, bits)[c].depth == t[p].depth + 1
  {}

  lemma AdmitGrows(s: State, r: State, path: Path, image: Image, v: Verdict)
    requires Core(s) && Admitted(s, r, path, image, v) && !v.Refused?
    ensures Grows(s, r, s.cur, s.loading)
  {
    hide AddLeaf, Anc, KeysKept, EntryOk, KeyOk, ModsOk;
    AdmitKeepsKeys(s, r, path, image, v);
  }

  lemma HigherHome(s: State, r: State, path: Path, image: Image, v: Verdict)
    requires Admitted(s, r, path, image, v) && !v.Refused?
    ensures s.cur <= HomeOf(s, v)
  {
    hide AddLeaf;
    AncFacts(r.tree, s.cur, HomeOf(s, v));
  }

  lemma AdmitGrowsKeys(s: State, r: State, path: Path, image: Image, v: Verdict)
    requires Admitted(s, r, path, image, v) && !v.Refused?
    ensures r.tree.Keys == s.tree.Keys ==> KeysGrown(s, r)
  {
    hide Anc, AddLeaf;
    if v.Granted? { AddLeafExtends(s.tree, s.cur, v.id, v.bits); }
  }

  lemma AdmitKeepsKeys(s: State, r: State, path: Path, image: Image, v: Verdict)
    requires Core(s) && Admitted(s, r, path, image, v) && !v.Refused?
    ensures KeysKept(s, r, s.cur)
  {
    hide AddLeaf, Anc, EntryOk, KeyOk, ModsOk, Core, Shape, Registered, Apart, Extends;
    HigherHome(s, r, path, image, v);
    AdmitGrowsKeys(s, r, path, image, v);
    if Registered(s) && Apart(r.tree) { AdmitRegisters(s, r, path, image, v); }
  }

  lemma AdmitRegisters(s: State, r: State, path: Path, image: Image, v: Verdict)
    requires Core(s) && Admitted(s, r, path, image, v) && !v.Refused? && Registered(s) && Apart(r.tree)
    ensures Registered(r)
  {
    hide AddLeaf, Anc, EntryOk, KeyOk, ModsOk, Core, Shape;
    if v.Granted? { NoKeyOutsideTree(s, r.tree, path, v.id); }
    forall x | x in r.entries ensures RegOk(r, x) { if x in s.entries { assert RegOk(s, x); } }
  }

  /** Taking the entry that was just admitted out again leaves at most an empty claimed region. */
  lemma WithdrawFacts(s: State, a: State, path: Path, image: Image, v: Verdict)
    requires Core(s) && Core(a) && Admitted(s, a, path, image, v) && !v.Refused?
    ensures s.nextEntry in a.entries
    ensures var r := Withdraw(a, s.nextEntry);
            && r.entries == s.entries && r.registry == s.registry - {KeyAt(path, HomeOf(s, v))}
            && (v.Flat? ==> r.registry == s.registry)
            && r.nextEntry == s.nextEntry + 1 && r.hooks == s.hooks && r.tree == a.tree
            && SameContext(s, r)
            && (s.everShared ==> r.everShared) && r.everDenied == s.everDenied && r.everStray == s.everStray
            && r.mods == if v.Flat? then s.mods else s.mods[v.id := []]
  {
    hide MarkDirty, Anc, AddLeaf, Core, ModsOk, Extends;
    var e, home := s.nextEntry, HomeOf(s, v);
    UndoEntry(s.entries, e, a.entries[e]);
    PutUndone(s.registry, path, s.cur, home, e);
    if v.Flat? {
      LastOut(s, home, e);
      assert s.mods[home := s.mods[home] + [e]][home := s.mods[home]] == s.mods;
    } else {
      assert s.mods[home := [e]][home := []] == s.mods[home := []];
    }
  }

  /** Deleting what was put last leaves what was there, but for an older module of the same key. */
  lemma PutUndone(reg: map<Key, EntryId>, path: Path, from: RegionId, home: RegionId, e: EntryId)
    requires KeyAt(path, from) !in reg
    ensures Put(reg, path, from, home, e) - {KeyAt(path, home)} == reg - {KeyAt(path, home)}
    ensures home == from ==> Put(reg, path, from, home, e) - {KeyAt(path, home)} == reg
  {}

  lemma UndoEntry<K, V>(m: map<K, V>, k: K, v: V)
    requires k !in m
    ensures m[k := v] - {k} == m
  {}

  lemma LastOut(s: State, home: RegionId, e: EntryId)
    requires Core(s) && home in s.mods && e !in s.entries
    ensures Without(s.mods[home] + [e], e) == s.mods[home]
  {
    assert ModsOk(s, home);
    assert IndexOf(s.mods[home] + [e], e) == |s.mods[home]|;
  }

  lemma KeysTrans(a: State, b: State, c: State, home: RegionId, loader: Option<EntryId>, home': RegionId,
                  loader': Option<EntryId>)
    requires Grows(a, b, home, loader) && Grows(b, c, home', loader') && home <= home'
    ensures KeysKept(a, c, home)
  {
    hide IsTree, NodeOk, Anc, ListGrown, NewEntry, Apart, Registered;
    if c.tree.Keys == a.tree.Keys {
      assert b.tree.Keys == a.tree.Keys;
      forall e | e in c.entries && e !in a.entries ensures RegOk(c, e) {
        if e in b.entries { assert RegOk(b, e) && EntryKept(b, c, e); }
      }
    }
    if Apart(c.tree) { FewerApart(b.tree, c.tree); }
  }

  lemma FewerApart(t: Tree, t': Tree)
    requires Extends(t, t') && Apart(t')
    ensures Apart(t)
  {}

  /** Two growths in a row, the second inside what the first one made. */
  lemma GrowsTrans(a: State, b: State, c: State, home: RegionId, loader: Option<EntryId>, home': RegionId,
                   loader': Option<EntryId>)
    requires Grows(a, b, home, loader) && Grows(b, c, home', loader')
    requires home in b.tree && home' in b.tree && Anc(b.tree, home, home')
    requires loader' == loader || (loader'.Some? && loader'.value >= a.nextEntry && loader'.value in b.entries)
    ensures Grows(a, c, home, loader)
  {
    hide IsTree, NodeOk, EntryOk, KeyOk, ModsOk, MarkDirty, AddLeaf, Shape, Core, KeyOf, NoDup, Anc, KeysKept;
    AncFacts(b.tree, home, home');
    KeysTrans(a, b, c, home, loader, home', loader');
    forall r | r in a.mods ensures ListGrown(a, c, r) {
      assert ListGrown(a, b, r) && ListGrown(b, c, r);
    }
    forall e | e in a.entries ensures EntryKept(a, c, e) {
      assert EntryKept(a, b, e) && EntryKept(b, c, e);
    }
    forall e | e in c.entries && e !in a.entries ensures NewEntry(a, c, e, home, loader) {
      assert forall p :: p in b.entries ==> EntryKept(b, c, p);
      if e in b.entries {
        assert NewEntry(a, b, e, home, loader) && EntryKept(b, c, e);
        ExtendsAnc(b.tree, c.tree, home, b.entries[e].region);
      } else {
        assert NewEntry(b, c, e, home', loader');
        ExtendsAnc(b.tree, c.tree, home, home');
        AncTrans(c.tree, home, home', c.entries[e].region);
      }
    }
  }

  lemma UnopenedShrinks(w: World, s: State, r: State, loader: Option<EntryId>)
    requires Grows(s, r, s.cur, loader) && r.cur == s.cur
    ensures Unopened(w, r) <= Unopened(w, s)
  {
    hide Anc;
  }

  lemma SmallerSet<T>(a: set<T>, b: set<T>)
    requires a <= b
    ensures |a| <= |b|
    ensures a != b ==> |a| < |b|
  {
    assert b == a + (b - a);
  }

  /** The load of a module that is not registered in the current region. */
  function LoadNew(w: World, s: State, path: Path, image: Image): (res: (State, Err))
    requires Ready(s) && path in w.images && KeyAt(path, s.cur) !in s.registry
    ensures Ready(res.0) && SameContext(s, res.0) && Grows(s, res.0, s.cur, s.loading)
    decreases Room(s.tree), |Unopened(w, s)|, 0
  {
    hide Decide, Grows, Admit, Withdraw, Anc;
    var v := Decide(w, s, path, image);
    if v.Refused? then
      RefusedFacts(s, image);
      (Bind(s, image, s.cur), v.err)
    else if image.install.None? then
      WithdrawnFacts(w, s, path, image, v);
      (Withdraw(Admit(w, s, path, image, v), s.nextEntry), NOTFOUND)
    else
      var i := Started(w, s, path, image, v);
      StartedFacts(w, s, path, image, v);
      var j := RunScript(w, i, image.install.value);
      FinishedFacts(w, s, path, image, v, j);
      (Restore(j, s), OK)
  }

  /** xy_load: the new state, and the code it returns. */
  function Load(w: World, s: State, path: Path): (res: (State, Err))
    requires Ready(s)
    ensures Ready(res.0) && SameContext(s, res.0) && Grows(s, res.0, s.cur, s.loading)
    decreases Room(s.tree), |Unopened(w, s)|, 1
  {
    if path !in w.images then
      GrowsFrame(s, s);
      (s, NOTFOUND)
    else
      hide Grows, AregAll, Anc;
      var image := w.images[path];
      AregAllCore(s, image.constructs);
      var s0 := AregAll(s, image.constructs);
      assert Unopened(w, s0) == Unopened(w, s);
      assert Anc(s0.tree, s.cur, s.cur) by { AncSelf(s0.tree, s.cur); }
      if KeyAt(path, s.cur) in s0.registry then
        assert KeyOk(s0, KeyAt(path, s.cur));
        var e := s0.registry[KeyAt(path, s.cur)];
        RetainCore(s0, e);
        GrowsTrans(s, s0, Retain(s0, e), s.cur, s.loading, s.cur, s.loading);
        (Retain(s0, e), OK)
      else
        var res := LoadNew(w, s0, path, image);
        GrowsTrans(s, s0, res.0, s.cur, s.loading, s.cur, s.loading);
        res
  }

  lemma AncSelf(t: Tree, r: RegionId)
    requires r in t
    ensures Anc(t, r, r)
  {}

  /** The new module's xy_install starts: its region is current, and it is the loader. */
  function Started(w: World, s: State, path: Path, image: Image, v: Verdict): State
    requires Ready(s) && !v.Refused? && v == Decide(w, s, path, image) && KeyAt(path, s.cur) !in s.registry
  {
    Within(Admit(w, s, path, image, v), HomeOf(s, v), Some(s.nextEntry))
  }

  lemma RefusedFacts(s: State, image: Image)
    requires Ready(s)
    ensures var r := Bind(s, image, s.cur); Ready(r) && SameContext(s, r) && Grows(s, r, s.cur, s.loading)
  {
    CoreFrame(s, Bind(s, image, s.cur));
    GrowsFrame(s, Bind(s, image, s.cur));
  }

  lemma WithdrawnFacts(w: World, s: State, path: Path, image: Image, v: Verdict)
    requires Ready(s) && !v.Refused? && v == Decide(w, s, path, image) && KeyAt(path, s.cur) !in s.registry
    ensures s.nextEntry in Admit(w, s, path, image, v).entries
    ensures var r := Withdraw(Admit(w, s, path, image, v), s.nextEntry);
            Ready(r) && SameContext(s, r) && Grows(s, r, s.cur, s.loading)
  {
    hide Decide, Admit, Withdraw, Anc, AddLeaf, Core, Extends;
    var a := Admit(w, s, path, image, v);
    AdmitFacts(w, s, path, image, v);
    WithdrawFacts(s, a, path, image, v);
    WithdrawCore(a, s.nextEntry);
    HigherHome(s, a, path, image, v);
    EmptyGrowth(s, Withdraw(a, s.nextEntry), path, v);
  }

  /** At most an empty region more is growth. */
  lemma EmptyGrowth(s: State, r: State, path: Path, v: Verdict)
    requires Core(s) && Extends(s.tree, r.tree) && r.entries == s.entries && s.hooks == r.hooks &&
             s.nextEntry <= r.nextEntry
    requires r.mods == (if v.Granted? then s.mods[v.id := []] else s.mods)
    requires v.Granted? ==> v.id !in s.tree && v.id in r.tree && s.cur <= v.id && KeyAt(path, s.cur) !in s.registry
    requires r.registry == s.registry || (v.Granted? && r.registry == s.registry - {KeyAt(path, v.id)})
    requires (s.everShared ==> r.everShared) && s.everDenied <= r.everDenied && r.everStray == s.everStray
    ensures Grows(s, r, s.cur, s.loading)
  {
    hide EntryOk, KeyOk, ModsOk, IsTree, NodeOk, KeysKept;
    EmptyKeys(s, r, path, v);
  }

  lemma EmptyKeys(s: State, r: State, path: Path, v: Verdict)
    requires Core(s) && Extends(s.tree, r.tree) && r.entries == s.entries
    requires v.Granted? ==> v.id !in s.tree && v.id in r.tree && s.cur <= v.id && KeyAt(path, s.cur) !in s.registry
    requires r.registry == s.registry || (v.Granted? && r.registry == s.registry - {KeyAt(path, v.id)})
    ensures KeysKept(s, r, s.cur)
  {
    hide Apart, EntryOk, KeyOk, ModsOk, IsTree, NodeOk;
    if Registered(s) && Apart(r.tree) {
      if v.Granted? { NoKeyOutsideTree(s, r.tree, path, v.id); }
      assert r.registry == s.registry;
      RegisteredFrame(s, r);
    }
  }

  lemma StartedFacts(w: World, s: State, path: Path, image: Image, v: Verdict)
    requires Ready(s) && path in w.images && !v.Refused? && v == Decide(w, s, path, image) &&
             KeyAt(path, s.cur) !in s.registry
    ensures var i := Started(w, s, path, image, v);
            && Ready(i)
            && (v.Granted? ==> Room(i.tree) < Room(s.tree))
            && (v.Flat? ==> Room(i.tree) == Room(s.tree) && |Unopened(w, i)| < |Unopened(w, s)|)
  {
    hide Decide, Admit, Anc, AddLeaf;
    var a, i := Admit(w, s, path, image, v), Started(w, s, path, image, v);
    AdmitFacts(w, s, path, image, v);
    CoreFrame(a, i);
    if v.Granted? { OneRegionMore(s.tree, i.tree, s.cur, v.id, v.bits); }
    else { OneLessToOpen(w, s, i, path); }
  }

  lemma OneRegionMore(t: Tree, t': Tree, p: RegionId, c: RegionId, bits: nat)
    requires p in t && c !in t && t' == AddLeaf(t, p, c, bits)
    ensures Room(t') < Room(t)
  {
    hide Room;
    AddLeafExtends(t, p, c, bits);
    assert |t'.Keys| == |t.Keys| + 1;
  }

  lemma OneLessToOpen(w: World, s: State, i: State, path: Path)
    requires path in w.images && KeyAt(path, s.cur) !in s.registry
    requires i.cur == s.cur && i.registry == Put(s.registry, path, s.cur, s.cur, s.nextEntry)
    ensures |Unopened(w, i)| < |Unopened(w, s)|
  {
    assert path in Unopened(w, s) && path !in Unopened(w, i);
    SmallerSet(Unopened(w, i), Unopened(w, s));
  }

  lemma FinishedFacts(w: World, s: State, path: Path, image: Image, v: Verdict, j: State)
    requires Ready(s) && !v.Refused? && v == Decide(w, s, path, image) && KeyAt(path, s.cur) !in s.registry
    requires var i := Started(w, s, path, image, v); Ready(j) && SameContext(i, j) && Grows(i, j, i.cur, i.loading)
    ensures Ready(Restore(j, s)) && SameContext(s, Restore(j, s)) && Grows(s, Restore(j, s), s.cur, s.loading)
  {
    hide Decide, Admit, Anc, Grows, IsTree, NodeOk, Extends, Shape, EntryOk, KeyOk, ModsOk, KeyOf;
    var a, i := Admit(w, s, path, image, v), Started(w, s, path, image, v);
    AdmitFacts(w, s, path, image, v);
    AdmitGrows(s, a, path, image, v);
    GrowsSame(i, j, a, j, i.cur, i.loading);
    GrowsTrans(s, a, j, s.cur, s.loading, i.cur, i.loading);
    GrowsSame(s, j, s, Restore(j, s), s.cur, s.loading);
    ReadyRestore(s, a, i, j);
  }

  lemma ReadyRestore(s: State, a: State, i: State, j: State)
    requires Ready(s) && Ready(j) && Grows(s, j, s.cur, s.loading)
    ensures Ready(Restore(j, s))
  {
    CoreFrame(j, Restore(j, s));
  }

  /** Loader and context are such that a load can start. */
  ghost predicate Ready(s: State) {
    && Core(s)
    && (s.loading.Some? ==> s.loading.value < s.nextEntry)
  }

  /** Growth does not read the execution context. */
  lemma GrowsSame(a: State, b: State, a': State, b': State, home: RegionId, loader: Option<EntryId>)
    requires Grows(a, b, home, loader)
    requires a' == a.(cur := a'.cur, curEntry := a'.curEntry, loading := a'.loading)
    requires b' == b.(cur := b'.cur, curEntry := b'.curEntry, loading := b'.loading)
    ensures Grows(a', b', home, loader)
  {
    RegisteredFrame(a, a');
    RegisteredFrame(b, b');
    if KeysGrown(a, b) { forall e | e in b'.entries && e !in a'.entries ensures RegOk(b', e) { assert RegOk(b, e); } }
    forall r | r in a'.mods ensures ListGrown(a', b', r) { assert ListGrown(a, b, r); }
    forall e | e in a'.entries ensures EntryKept(a', b', e) { assert EntryKept(a, b, e); }
    forall e | e in b'.entries && e !in a'.entries ensures NewEntry(a', b', e, home, loader) {
      assert NewEntry(a, b, e, home, loader);
    }
  }

  /** One call of an install script other than a load. */
  function Setting(s: State, act: Action): (r: State)
    requires Shape(s) && !act.ALoad?
    ensures Shape(r) && SameContext(s, r)
  {
    match act
    case ARequire(h) => Require(s, h)
    case ADenyHook(h) => DenyHook(s, h)
    case ADenyModule(p) => DenyModule(s, p)
  }

  lemma SettingFacts(s: State, act: Action)
    requires Ready(s) && !act.ALoad?
    ensures Ready(Setting(s, act)) && Grows(s, Setting(s, act), s.cur, s.loading)
  {
    hide BumpGens, FlagDeny, EntryOk, KeyOk, ModsOk, Grows, Setting;
    SettingFrame(s, act);
    CoreFrame(s, Setting(s, act));
    GrowsFrame(s, Setting(s, act));
  }

  lemma SettingFrame(s: State, act: Action)
    requires Shape(s) && !act.ALoad?
    ensures var r := Setting(s, act);
            && r.tree == s.tree && r.mods == s.mods && r.entries == s.entries && r.registry == s.registry
            && r.nextEntry == s.nextEntry && r.hooks == s.hooks && r.everShared == s.everShared &&
              s.everDenied <= r.everDenied && r.everStray == s.everStray
  {
    hide BumpGens, FlagDeny;
  }

  /** xy_install. */
  function RunScript(w: World, s: State, acts: seq<Action>): (r: State)
    requires Ready(s)
    ensures Ready(r) && SameContext(s, r) && Grows(s, r, s.cur, s.loading)
    decreases Room(s.tree), |Unopened(w, s)|, |acts| + 1
  {
    if acts == [] then
      GrowsFrame(s, s);
      s
    else if acts[0].ALoad? then
      var s1 := Load(w, s, acts[0].path).0;
      hide Grows, Anc, Setting, Unopened;
      ScriptStep(w, s, s1);
      var r := RunScript(w, s1, acts[1..]);
      GrowsTrans(s, s1, r, s.cur, s.loading, s.cur, s.loading);
      r
    else
      var s1 := Setting(s, acts[0]);
      hide Grows, Anc, Setting, Unopened;
      SettingFacts(s, acts[0]);
      ScriptStep(w, s, s1);
      var r := RunScript(w, s1, acts[1..]);
      GrowsTrans(s, s1, r, s.cur, s.loading, s.cur, s.loading);
      r
  }

  /** Along a script the tree grows, or what is left to open does not. */
  lemma ScriptStep(w: World, s: State, s1: State)
    requires Ready(s) && Ready(s1) && SameContext(s, s1) && Grows(s, s1, s.cur, s.loading)
    ensures Room(s1.tree) <= Room(s.tree)
    ensures Room(s1.tree) == Room(s.tree) ==> |Unopened(w, s1)| <= |Unopened(w, s)|
    ensures s.cur in s1.tree && Anc(s1.tree, s.cur, s.cur)
  {
    hide Anc, KeysKept, EntryOk, KeyOk, ModsOk, Room;
    TreeGrows(s.tree, s1.tree);
    if Room(s1.tree) == Room(s.tree) {
      UnopenedShrinks(w, s, s1, s.loading);
      SmallerSet(Unopened(w, s1), Unopened(w, s));
    }
    AncSelf(s1.tree, s.cur);
  }

  lemma TreeGrows(t: Tree, t': Tree)
    requires Extends(t, t')
    ensures Room(t') <= Room(t)
    ensures Room(t') == Room(t) ==> t'.Keys == t.Keys
  {
    hide Room;
    assert t.Keys <= t'.Keys;
    SmallerSet(t.Keys, t'.Keys);
  }
}
