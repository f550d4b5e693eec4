/**
 The runtime's state and what each operation makes of it. A C struct's fields are maps
 from the identity of the struct to the field's value: a region is its id, a module
 entry a number that is never used twice. The imperative code that computes these
 functions is class Runtime.
 */
module XylemState {
  import opened Wrappers
  import opened Lists
  import opened Symbols
  import opened RegionTree
  import opened RegionIds
  import opened Keys

  type HandlerId = nat

  datatype Err = OK | NOTFOUND | INVALID_ARG | TOOBIG | EPERM

  /** What a module's xy_install does, one call after the other. */
  datatype Action =
    | ALoad(path: Path)
    | ARequire(handler: Option<HandlerId>)
    | ADenyHook(hook: Hook)
    | ADenyModule(path: Path)

  /**
   A shared object: the hooks its constructors register, the hooks it exports, whether
   it hands out a context, its xy_claim byte, and its xy_install, if it has them.
   */
  datatype Image = Image(id: ImageId, constructs: seq<Hook>, exports: set<Hook>, hasCtx: bool,
                         claim: Option<nat>, install: Option<seq<Action>>)
  {
    function Syms(): Exports { Exports(id, exports) }
  }

  /**
   What the runtime asks of its environment: the object a path resolves to, a claim
   handler's verdict (the granted width, or refusal), and the order in which the module
   table is iterated for each set of entries.
   */
  datatype World = World(images: map<Path, Image>,
                         decide: (HandlerId, Path, nat) -> Option<nat>,
                         scan: set<EntryId> -> seq<EntryId>)

  datatype Slot = Slot(me: EntryId, cb: FnSlot)
  /** A slot vector and the generation it was built in; `filter` records, as history, the paths the rebuild left out. */
  datatype HookCache = HookCache(slots: seq<Slot>, gen: nat, filter: set<Path>)
  datatype RegionCache = RegionCache(gen: nat, dirty: bool, subtree: seq<EntryId>, hooks: seq<HookCache>)
  datatype Denies = Denies(hooks: set<Hook>, mods: set<Path>, flag: bool)
  datatype ClaimGate = ClaimGate(handler: Option<HandlerId>, required: bool)
  /**
   `region` is the id that the key and the context were made from, `linked` the region whose
   list holds the module.
   */
  datatype Entry = Entry(path: Path, image: Image, region: RegionId, linked: RegionId, refcount: int,
                         parent: Option<EntryId>)

  const NEW_CACHE := RegionCache(1, false, [], [])
  const NO_DENIES := Denies({}, {}, false)
  const NO_GATE := ClaimGate(None, false)
  const NO_HOOK_CACHE := HookCache([], 0, {})

  /**
   Regions: tree, module lists, caches, denies, claim gates. Modules: entries, symbol
   caches, the registry, and the region id in each image's context. Hook ids are positions
   in `hooks`. The last three fields record history: whether an image was ever bound while
   another live entry had it, which regions ever held a module deny, and whether a module
   was ever linked into a region that is not its own.
   */
  datatype State = State(
    tree: Tree,
    mods: map<RegionId, seq<EntryId>>,
    caches: map<RegionId, RegionCache>,
    denies: map<RegionId, Denies>,
    gates: map<RegionId, ClaimGate>,
    entries: map<EntryId, Entry>,
    syms: map<EntryId, SymTab>,
    registry: map<Key, EntryId>,
    ctxs: map<ImageId, RegionId>,
    hooks: seq<Hook>,
    cur: RegionId,
    curEntry: Option<RegionId>,
    loading: Option<EntryId>,
    nextEntry: EntryId,
    everShared: bool,
    everDenied: set<RegionId>,
    everStray: bool)

  function KeyOf(n: Entry): Key { KeyAt(n.path, n.region) }

  /** The field maps have matching domains, and the current region exists. */
  ghost predicate Shape(s: State) {
    && s.mods.Keys == s.tree.Keys
    && s.caches.Keys == s.tree.Keys
    && s.denies.Keys == s.tree.Keys
    && s.gates.Keys == s.tree.Keys
    && s.syms.Keys == s.entries.Keys
    && s.cur in s.tree
    && (s.curEntry.Some? ==> s.curEntry.value in s.tree)
  }

  /** A live entry is linked in its region, and if its key leads elsewhere, then to a younger entry. */
  ghost predicate EntryOk(s: State, e: EntryId)
    requires e in s.entries
  {
    var n := s.entries[e];
    && e < s.nextEntry
    && n.region in s.tree && n.linked in s.tree && n.linked in s.mods && e in s.mods[n.linked]
    && (n.parent.Some? ==> n.parent.value < e)
    && (KeyOf(n) in s.registry ==> s.registry[KeyOf(n)] >= e)
  }

  ghost predicate KeyOk(s: State, k: Key)
    requires k in s.registry
  {
    s.registry[k] in s.entries && KeyOf(s.entries[s.registry[k]]) == k
  }

  ghost predicate ModsOk(s: State, r: RegionId)
    requires r in s.mods
  {
    NoDup(s.mods[r]) && forall e :: e in s.mods[r] ==> e in s.entries && s.entries[e].linked == r
  }

  /** What is registered is live, and module lists hold the live modules. */
  ghost predicate Core(s: State) {
    && Shape(s)
    && (forall e {:trigger EntryOk(s, e)} :: e in s.entries ==> EntryOk(s, e))
    && (forall k {:trigger KeyOk(s, k)} :: k in s.registry ==> KeyOk(s, k))
    && (forall r {:trigger ModsOk(s, r)} :: r in s.mods ==> ModsOk(s, r))
  }

  /** Every live module is registered under its own key. */
  ghost predicate Registered(s: State) {
    forall e {:trigger RegOk(s, e)} :: e in s.entries ==> RegOk(s, e)
  }

  ghost predicate RegOk(s: State, e: EntryId)
    requires e in s.entries
  {
    KeyOf(s.entries[e]) in s.registry && s.registry[KeyOf(s.entries[e])] == e
  }

  /** The modules that an iteration over the module table meets. */
  function Tabled(s: State): set<EntryId> {
    s.registry.Values
  }

  const INIT := State(map[ROOT := ROOT_NODE], map[ROOT := []], map[ROOT := NEW_CACHE], map[ROOT := NO_DENIES],
                      map[ROOT := NO_GATE], map[], map[], map[], map[], [], ROOT, Some(ROOT), None, 0, false, {}, false)

  // ---- steps along a parent chain ----

  /** region_dispatch_gen_bump, all at once: r and its ancestors enter a new generation. */
  function BumpGens(t: Tree, caches: map<RegionId, RegionCache>, r: RegionId): (c: map<RegionId, RegionCache>)
    requires r in t
    ensures c.Keys == caches.Keys
  {
    map x | x in caches :: if Anc(t, x, r) then caches[x].(gen := caches[x].gen + 1) else caches[x]
  }

  /** region_mark_subtree_dirty: a new generation, and the flat module list is out of date. */
  function MarkDirty(t: Tree, caches: map<RegionId, RegionCache>, r: RegionId): (c: map<RegionId, RegionCache>)
    requires r in t
    ensures c.Keys == caches.Keys
  {
    map x | x in caches :: if Anc(t, x, r) then caches[x].(gen := caches[x].gen + 1, dirty := true) else caches[x]
  }

  /** region_propagate_deny. */
  function FlagDeny(t: Tree, denies: map<RegionId, Denies>, r: RegionId): (d: map<RegionId, Denies>)
    requires r in t
    ensures d.Keys == denies.Keys
  {
    map x | x in denies :: if Anc(t, x, r) then denies[x].(flag := true) else denies[x]
  }

  // ---- hooks ----

  /** The symbol caches, those of the modules in the table prewarmed for the known hooks. */
  function WarmAll(table: set<EntryId>, es: map<EntryId, Entry>, syms: map<EntryId, SymTab>,
                   hooks: seq<Hook>): (r: map<EntryId, SymTab>)
    requires syms.Keys == es.Keys
    ensures r.Keys == syms.Keys
  {
    map e | e in syms :: if e in table then Prewarm(syms[e], es[e].image.Syms(), hooks) else syms[e]
  }

  /** xy_areg: a new name gets the next id and is resolved in every module of the table. */
  function Areg(s: State, name: Hook): (r: State)
    requires s.syms.Keys == s.entries.Keys
    ensures r == s.(hooks := r.hooks, syms := r.syms) && r.syms.Keys == s.syms.Keys && s.hooks <= r.hooks
  {
    hide WarmAll;
    if name in s.hooks then s
    else s.(hooks := s.hooks + [name], syms := WarmAll(Tabled(s), s.entries, s.syms, s.hooks + [name]))
  }

  /** The constructors dlopen runs. */
  function AregAll(s: State, names: seq<Hook>): (r: State)
    requires s.syms.Keys == s.entries.Keys
    ensures r == s.(hooks := r.hooks, syms := r.syms) && r.syms.Keys == s.syms.Keys && s.hooks <= r.hooks
    decreases |names|
  {
    hide Areg;
    if names == [] then s else AregAll(Areg(s, names[0]), names[1..])
  }

  // ---- region settings ----

  /** xy_require_claim on the current region. */
  function Require(s: State, h: Option<HandlerId>): State {
    s.(gates := s.gates[s.cur := ClaimGate(h, h.Some?)])
  }

  function DenyHook(s: State, h: Hook): State
    requires Shape(s)
  {
    s.(denies := FlagDeny(s.tree, s.denies[s.cur := s.denies[s.cur].(hooks := s.denies[s.cur].hooks + {h})], s.cur),
       caches := BumpGens(s.tree, s.caches, s.cur))
  }

  function DenyModule(s: State, p: Path): State
    requires Shape(s)
  {
    s.(denies := FlagDeny(s.tree, s.denies[s.cur := s.denies[s.cur].(mods := s.denies[s.cur].mods + {p})], s.cur),
       caches := BumpGens(s.tree, s.caches, s.cur),
       everDenied := s.everDenied + {s.cur})
  }

  // ---- loading ----

  datatype Verdict = Refused(err: Err) | Flat | Granted(id: RegionId, bits: nat)

  /** mod_load_claim_if_needed and _xy_claim_for_load up to the allocation, for the current region. */
  function Decide(w: World, s: State, path: Path, image: Image): (v: Verdict)
    requires Shape(s)
    ensures v.Granted? ==> Claimable(s.tree, s.cur, v.id, v.bits)
  {
    var gate := s.gates[s.cur];
    if gate.required && image.claim.None? then Refused(EPERM)
    else if image.claim.None? || (gate.handler.None? && !gate.required) then Flat
    else
      var bits := image.claim.value;
      if bits == 0 || bits > 64 then Refused(INVALID_ARG)
      else if gate.handler.None? then Refused(EPERM)
      else
        var granted := w.decide(gate.handler.value, path, bits);
        if granted.None? || granted.value == 0 || granted.value > 64 then Refused(EPERM)
        else
          var id := AllocSlot(s.tree.Keys, s.cur, s.tree[s.cur].plen, granted.value);
          if id == RegionIds.INVALID then Refused(TOOBIG)
          else
            assert NodeOk(s.tree, s.cur);
            AllocFresh(s.tree.Keys, s.cur, s.tree[s.cur].plen, granted.value);
            Granted(id, granted.value)
  }

  /** The region a granted claim creates under the current one. */
  function AddChild(s: State, id: RegionId, bits: nat): (r: State)
    requires Shape(s) && Claimable(s.tree, s.cur, id, bits)
    ensures Shape(r)
  {
    AddLeafIsTree(s.tree, s.cur, id, bits);
    s.(tree := AddLeaf(s.tree, s.cur, id, bits),
       mods := s.mods[id := []],
       caches := MarkDirty(s.tree, s.caches, s.cur)[id := NEW_CACHE],
       denies := s.denies[id := NO_DENIES],
       gates := s.gates[id := NO_GATE])
  }

  /** Some live entry was loaded from this image. */
  predicate InUse(es: map<EntryId, Entry>, image: ImageId) {
    exists m :: m in es && es[m].image.id == image
  }

  /** The trace a load leaves even when it fails: an identity, and the image's context. */
  function Bind(s: State, image: Image, home: RegionId): State {
    s.(nextEntry := s.nextEntry + 1,
       ctxs := if image.hasCtx then s.ctxs[image.id := home] else s.ctxs,
       everShared := s.everShared || InUse(s.entries, image.id))
  }

  /** A new entry is put under `from`, and if it lives in another region, put there and deleted from `from`. */
  function Put(reg: map<Key, EntryId>, path: Path, from: RegionId, home: RegionId, e: EntryId): map<Key, EntryId> {
    if home == from then reg[KeyAt(path, home) := e]
    else reg[KeyAt(path, from) := e][KeyAt(path, home) := e] - {KeyAt(path, from)}
  }

  /** A new entry, registered, linked at the tail of its region, and resolved. */
  function Enroll(s: State, path: Path, image: Image, home: RegionId): (r: State)
    requires Shape(s) && home in s.tree
    ensures Shape(r)
  {
    var e := s.nextEntry;
    Bind(s, image, home).(
      entries := s.entries[e := Entry(path, image, home, home, 1, s.loading)],
      syms := s.syms[e := Prewarm(NO_SYMS, image.Syms(), s.hooks)],
      registry := Put(s.registry, path, s.cur, home, e),
      mods := s.mods[home := s.mods[home] + [e]],
      caches := MarkDirty(s.tree, s.caches, home))
  }

  /** Unlink, unregister and free: mod_load_abort after linking. */
  function Withdraw(s: State, e: EntryId): (r: State)
    requires Core(s) && e in s.entries
    ensures Shape(r)
  {
    assert EntryOk(s, e);
    var home := s.entries[e].linked;
    s.(mods := s.mods[home := Without(s.mods[home], e)],
       caches := MarkDirty(s.tree, s.caches, home),
       entries := s.entries - {e},
       syms := s.syms - {e},
       registry := s.registry - {KeyOf(s.entries[e])})
  }

  function Within(s: State, region: RegionId, loading: Option<EntryId>): State {
    s.(cur := region, curEntry := Some(region), loading := loading)
  }

  /** Put the execution context of `was` back. */
  function Restore(s: State, was: State): State {
    s.(cur := was.cur, curEntry := was.curEntry, loading := was.loading)
  }

  function Retain(s: State, e: EntryId): State
    requires e in s.entries
  {
    s.(entries := s.entries[e := s.entries[e].(refcount := s.entries[e].refcount + 1)])
  }

  // ---- unlinking and relinking ----

  /** module_region_detach: e leaves the list it is in. */
  function Detached(s: State, e: EntryId): (q: State)
    requires Shape(s) && e in s.entries && s.entries[e].linked in s.tree
    ensures Shape(q)
  {
    var home := s.entries[e].linked;
    s.(mods := s.mods[home := Without(s.mods[home], e)], caches := MarkDirty(s.tree, s.caches, home))
  }

  /** module_region_insert_after: e goes behind `after` in the list of region r, whatever region its id names. */
  function Attached(s: State, r: RegionId, e: EntryId, after: Option<EntryId>): (q: State)
    requires Shape(s) && r in s.tree && e in s.entries && (after.Some? ==> after.value in s.mods[r])
    ensures Shape(q)
  {
    s.(mods := s.mods[r := InsertAfter(s.mods[r], e, after)],
       caches := MarkDirty(s.tree, s.caches, r),
       entries := s.entries[e := s.entries[e].(linked := r)],
       everStray := s.everStray || s.entries[e].region != r)
  }

  // ---- unloading ----

  function Release(s: State, e: EntryId): State
    requires e in s.entries
  {
    s.(entries := s.entries[e := s.entries[e].(refcount := s.entries[e].refcount - 1)])
  }

  /** The teardown at the end of _mod_unload. */
  function Retire(s: State, e: EntryId): (r: State)
    requires Core(s) && e in s.entries
    ensures Shape(r)
  {
    assert EntryOk(s, e);
    var n := s.entries[e];
    var d := s.denies[n.linked];
    Withdraw(s, e).(
      syms := map m | m in s.syms - {e} :: if m in Tabled(s) then Forget(s.syms[m], n.image.id) else s.syms[m],
      denies := s.denies[n.linked := d.(mods := d.mods - {n.path})])
  }

  /** The modules of the table that e loaded, in table order. */
  function ChildrenOf(scan: set<EntryId> -> seq<EntryId>, s: State, e: EntryId): seq<EntryId> {
    Keep(scan(Tabled(s)), set m | m in s.entries && m != e && s.entries[m].parent == Some(e))
  }

  /** The table iteration visits every entry once. */
  ghost predicate IsScan(scan: set<EntryId> -> seq<EntryId>) {
    forall live: set<EntryId> {:trigger scan(live)} :: NoDup(scan(live)) && forall e :: e in scan(live) <==> e in live
  }
}
