/**
 xy_call as a function of the state (src/libxylem-dispatch.c:97-355), and whole programs:
 arbitrarily nested calls, region scopes, loads and unloads. What a program does inside
 each callback is part of the program, so every terminating execution is covered.
 */
module Dispatch {
  import opened Wrappers
  import opened Lists
  import opened Symbols
  import opened RegionTree
  import opened Keys
  import opened XylemState
  import opened Unloading

  // ---- the caches behind a call ----

  /** region_ensure_hook_dispatch_cap. */
  function GrowHooks(hs: seq<HookCache>, h: nat): (r: seq<HookCache>)
    ensures h < |r| && hs <= r
    ensures forall i :: |hs| <= i < |r| ==> r[i] == NO_HOOK_CACHE
  {
    if h < |hs| then hs else hs + seq(h + 16 - |hs|, _ => NO_HOOK_CACHE)
  }

  /** The regions whose module denies filter a rebuild: the whole chain if r is flagged, none otherwise. */
  function DenyChain(s: State, r: RegionId): seq<RegionId>
    requires Shape(s) && r in s.tree
  {
    if s.denies[r].flag then Chain(s.tree, r) else []
  }

  predicate ModDenied(denies: map<RegionId, Denies>, chain: seq<RegionId>, path: Path) {
    exists a :: a in chain && a in denies && path in denies[a].mods
  }

  /** Every path that some region of the chain denies. */
  function BannedBy(denies: map<RegionId, Denies>, chain: seq<RegionId>): (r: set<Path>)
    ensures forall p :: p in r <==> ModDenied(denies, chain, p)
  {
    set a, p | a in chain && a in denies && p in denies[a].mods :: p
  }

  predicate HookDenied(denies: map<RegionId, Denies>, chain: seq<RegionId>, name: Hook) {
    exists a :: a in chain && a in denies && name in denies[a].hooks
  }

  /** The symbol cache of a module after the rebuild has asked it about hook h. */
  function Asked(t: SymTab, x: Exports, h: nat, name: Hook): SymTab {
    if h in t.impl then t else Resolve(t, x, h, name)
  }

  function FnAt(t: SymTab, h: nat): FnSlot {
    if h < |t.fn| then t.fn[h] else Empty
  }

  /** region_rebuild_hook_dispatch's scan of the flat module list. */
  function Gather(es: Entries, syms: map<EntryId, SymTab>, denies: map<RegionId, Denies>, chain: seq<RegionId>,
                  h: nat, name: Hook, list: seq<EntryId>): (r: (seq<Slot>, map<EntryId, SymTab>))
    requires syms.Keys == es.Keys
    ensures r.1.Keys == es.Keys
  {
    if list == [] then ([], syms)
    else
      var m := list[0];
      if m !in es || !es[m].image.hasCtx || ModDenied(denies, chain, es[m].path) then
        Gather(es, syms, denies, chain, h, name, list[1..])
      else
        var t := Asked(syms[m], es[m].image.Syms(), h, name);
        var rest := Gather(es, syms[m := t], denies, chain, h, name, list[1..]);
        (if h in t.impl then [Slot(m, FnAt(t, h))] + rest.0 else rest.0, rest.1)
  }

  /** region_rebuild_subtree_mods, when it is due. */
  function FreshList(s: State, r: RegionId): RegionCache
    requires Shape(s) && r in s.tree
  {
    var c := s.caches[r];
    if c.dirty then c.(dirty := false, subtree := Dfs(s.tree, s.mods, r)) else c
  }

  /** Make region r's vector for hook h current, rebuilding what is out of date. */
  function Refresh(s: State, r: RegionId, h: nat): (q: State)
    requires Shape(s) && r in s.tree && h < |s.hooks|
    ensures Shape(q) && q == s.(caches := q.caches, syms := q.syms)
    ensures h < |q.caches[r].hooks|
  {
    hide Rebuilt;
    var c := Rebuilt(s, r, h);
    s.(caches := s.caches[r := c.0], syms := c.1)
  }

  /** Its record, and the symbol caches, once that is done. */
  function Rebuilt(s: State, r: RegionId, h: nat): (c: (RegionCache, map<EntryId, SymTab>))
    requires Shape(s) && r in s.tree && h < |s.hooks|
    ensures h < |c.0.hooks| && c.1.Keys == s.entries.Keys
  {
    hide Dfs, Gather, BannedBy, DenyChain, IsTree, NodeOk, FreshList;
    var c := FreshList(s, r);
    var hs := GrowHooks(c.hooks, h);
    if hs[h].gen == c.gen then (c.(hooks := hs), s.syms)
    else
      var g := Gather(s.entries, s.syms, s.denies, DenyChain(s, r), h, s.hooks[h], c.subtree);
      (c.(hooks := hs[h := HookCache(g.0, c.gen, BannedBy(s.denies, DenyChain(s, r)))]), g.1)
  }

  /** The region a call dispatches from. */
  function CallerRegion(s: State): RegionId {
    if s.curEntry.Some? then s.curEntry.value else s.cur
  }

  /** xy_call up to the loop: the refreshed state, the code, and the slots to run. */
  function Prepare(s: State, name: Hook): (q: (State, Err, seq<Slot>))
    requires Shape(s)
    ensures Shape(q.0) && q.0 == s.(caches := q.0.caches, syms := q.0.syms)
    ensures q.1 != OK ==> q.2 == [] && q.0 == s
  {
    hide Refresh, HookDenied, DenyChain, IndexOf;
    var h, r := IndexOf(s.hooks, name), CallerRegion(s);
    if h == |s.hooks| then (s, NOTFOUND, [])
    else if HookDenied(s.denies, DenyChain(s, r), name) then (s, EPERM, [])
    else
      var q := Refresh(s, r, h);
      (q, OK, q.caches[r].hooks[h].slots)
  }

  /** The loop skips slots whose module has no context or whose callback is NULL. */
  predicate Runs(s: State, slot: Slot) {
    slot.me in s.entries && s.entries[slot.me].image.hasCtx && slot.cb != Empty
  }

  function Runnable(s: State, slots: seq<Slot>): seq<Slot> {
    if slots == [] then [] else (if Runs(s, slots[0]) then [slots[0]] else []) + Runnable(s, slots[1..])
  }

  /** The region id in the context of a module's image. */
  function CtxRegion(s: State, me: EntryId): RegionId
    requires me in s.entries
  {
    var i := s.entries[me].image.id;
    if i in s.ctxs then s.ctxs[i] else ROOT
  }

  // ---- programs ----

  /** A program is a list of commands; Bodies lists what the callbacks of one call do, in the order they run. */
  datatype Prog = Done | Then(first: Cmd, rest: Prog)
  datatype Bodies = Silent | Body(body: Prog, others: Bodies)
  datatype Cmd =
    | DoCall(hook: Hook, bodies: Bodies)
    | DoWith(region: RegionId, body: Prog)
    | DoLoad(world: World, path: Path)
    | DoUnload(world: World, path: Path)
    | DoReload(world: World, path: Path)
    | DoDenyHook(name: Hook)
    | DoDenyModule(banned: Path)
    | DoRequire(handler: Option<HandlerId>)
    | DoAreg(hookName: Hook)

  /** Callbacks may nest calls and region scopes only; table iterations visit every entry. */
  predicate Passive(p: Prog) {
    p.Done? || ((p.first.DoCall? || p.first.DoWith?) && PassiveCmd(p.first) && Passive(p.rest))
  }

  predicate PassiveCmd(c: Cmd) {
    match c
    case DoCall(_, bodies) => PassiveBodies(bodies)
    case DoWith(_, body) => Passive(body)
    case _ => false
  }

  predicate PassiveBodies(b: Bodies) {
    b.Silent? || (Passive(b.body) && PassiveBodies(b.others))
  }

  ghost predicate Legal(p: Prog) {
    p.Done? || (LegalCmd(p.first) && Legal(p.rest))
  }

  ghost predicate LegalCmd(c: Cmd) {
    match c
    case DoCall(_, bodies) => PassiveBodies(bodies)
    case DoWith(_, body) => Legal(body)
    case DoUnload(w, _) => IsScan(w.scan)
    case DoReload(w, _) => IsScan(w.scan)
    case _ => true
  }

  /** One call as it happened: the state it started from, its code, and the callbacks it ran. */
  datatype Event = Event(at: State, hook: Hook, code: Err, ran: seq<Slot>)

  /** xy_unload in the current region. */
  function Unload(w: World, s: State, path: Path): (res: (State, Err))
    requires Core(s) && IsScan(w.scan)
    ensures Core(res.0)
  {
    if KeyAt(path, s.cur) !in s.registry then (s, NOTFOUND)
    else
      assert KeyOk(s, KeyAt(path, s.cur));
      (UnloadEntry(w.scan, s, s.registry[KeyAt(path, s.cur)]), OK)
  }
}
