/**
 Whole programs from the initial state: every command restores the execution context it
 was given, every reachable state satisfies the invariant, and every call that happens
 along the way, at any nesting depth, is coherent.
 */
module Runs {
  import opened Wrappers
  import opened Lists
  import opened Symbols
  import opened RegionTree
  import opened RegionIds
  import opened Keys
  import opened XylemState
  import opened Loading
  import opened Unloading
  import opened Dispatch
  import opened Invariants
  import opened Steps
  import opened Coherence
  import opened Programs
  import opened Reloading

  type Log = seq<Event>

  /** The record of a call of hook `name` that starts in state s. */
  function CallEvent(s: State, name: Hook): Event
    requires Shape(s)
  {
    var q := Prepare(s, name);
    var ran := Runnable(q.0, q.2);
    Event(s, name, if q.1 != OK then q.1 else if ran == [] then NOTFOUND else OK, ran)
  }

  ghost predicate EventOk(ev: Event) {
    Inv(ev.at) && ev == CallEvent(ev.at, ev.hook)
  }

  ghost predicate LogOk(log: Log) {
    forall ev :: ev in log ==> EventOk(ev)
  }

  /** The state in which a callback runs: its image's context names the region, unless that is the caller's already. */
  function Enter(s: State, slot: Slot, home: RegionId): State
    requires slot.me in s.entries
  {
    var target := CtxRegion(s, slot.me);
    if target != home then s.(cur := target, curEntry := Some(s.entries[slot.me].linked)) else s
  }

  /** Regions are never given up, and the history only grows. */
  ghost predicate Forward(s: State, r: State) {
    s.tree.Keys <= r.tree.Keys && (s.everShared ==> r.everShared) && s.everDenied <= r.everDenied &&
    (s.everStray ==> r.everStray)
  }

  /** What every command and program guarantees. */
  ghost predicate Kept(s: State, r: State) {
    Top(r) && SameContext(s, r) && Forward(s, r)
  }

  /** A program. */
  function Exec(s: State, p: Prog): (r: (State, Log))
    requires Top(s) && Legal(p)
    ensures Kept(s, r.0) && LogOk(r.1)
    decreases p, 0
  {
    hide Top, LegalCmd, LogOk;
    match p
    case Done => NoEvents(); (s, [])
    case Then(c, rest) =>
      var a := ExecCmd(s, c);
      var b := Exec(a.0, rest);
      JoinLogs(a.1, b.1);
      (b.0, a.1 + b.1)
  }

  function ExecCmd(s: State, c: Cmd): (r: (State, Log))
    requires Top(s) && LegalCmd(c)
    ensures Kept(s, r.0) && LogOk(r.1)
    decreases c, 1
  {
    hide Inv, LogOk, Exec, Deliver, Counted, Kept, Load, Unload, Reload, Areg, DenyHook, DenyModule, Require, Prepare,
         CallEvent;
    NoEvents();
    match c
    case DoCall(name, bodies) =>
      TopShape(s);
      PrepareTop(s, name);
      var q := Prepare(s, name);
      var d := Deliver(q.0, q.2, bodies, s.cur);
      KeptTrans(s, q.0, d.0);
      JoinLogs([CallEvent(s, name)], d.1);
      (d.0, [CallEvent(s, name)] + d.1)
    case DoWith(region, body) =>
      if region !in s.tree then KeptSelf(s); (s, [])
      else
        ContextTop(s, region, Some(region));
        var b := Exec(s.(cur := region, curEntry := Some(region)), body);
        ScopeEnds(s, s.(cur := region, curEntry := Some(region)), b.0);
        (b.0.(cur := s.cur, curEntry := s.curEntry), b.1)
    case DoLoad(w, path) => TopReady(s); DoLoadTop(w, s, path); (Load(w, s, path).0, [])
    case DoUnload(w, path) => TopShape(s); DoUnloadTop(w, s, path); (Unload(w, s, path).0, [])
    case DoReload(w, path) => DoReloadTop(w, s, path); (Reload(w, s, path).0, [])
    case DoDenyHook(name) => TopShape(s); SettingTop(s, ADenyHook(name)); (DenyHook(s, name), [])
    case DoDenyModule(banned) => TopShape(s); SettingTop(s, ADenyModule(banned)); (DenyModule(s, banned), [])
    case DoRequire(handler) => TopShape(s); SettingTop(s, ARequire(handler)); (Require(s, handler), [])
    case DoAreg(name) => TopShape(s); AregTop(s, name); (Areg(s, name), [])
  }

  /** The dispatch loop: each slot that runs takes the next body. */
  function Deliver(s: State, slots: seq<Slot>, bodies: Bodies, home: RegionId): (r: (State, Log))
    requires Top(s) && PassiveBodies(bodies) && s.cur == home
    ensures Kept(s, r.0) && LogOk(r.1)
    decreases bodies, 0, |slots|
  {
    hide Top, LogOk, Enter, Passive, Forward;
    if slots == [] then NoEvents(); KeptSelf(s); (s, [])
    else if !Runs(s, slots[0]) then Deliver(s, slots[1..], bodies, home)
    else
      match bodies
      case Silent => Deliver(s, slots[1..], bodies, home)
      case Body(body, others) =>
        EnterTop(s, slots[0], home);
        PassiveLegal(body);
        var b := Exec(Enter(s, slots[0], home), body);
        ScopeEnds(s, Enter(s, slots[0], home), b.0);
        var back := b.0.(cur := s.cur, curEntry := s.curEntry);
        var d := Deliver(back, slots[1..], others, home);
        KeptTrans(s, back, d.0);
        JoinLogs(b.1, d.1);
        (d.0, b.1 + d.1)
  }

  lemma KeptSelf(s: State)
    requires Top(s)
    ensures Kept(s, s)
  {}

  lemma KeptTrans(a: State, b: State, c: State)
    requires Kept(a, b) && Kept(b, c)
    ensures Kept(a, c)
  {
    hide Top;
  }

  /** Leaving a scope puts the caller's context back. */
  lemma ScopeEnds(s: State, inside: State, b: State)
    requires Top(s) && Kept(inside, b) && inside == s.(cur := inside.cur, curEntry := inside.curEntry)
    ensures Kept(s, b.(cur := s.cur, curEntry := s.curEntry))
  {
    hide Inv, Counted;
    TopShape(s);
    ContextTop(b, s.cur, s.curEntry);
  }

  lemma NoEvents()
    ensures LogOk([])
  {}

  lemma JoinLogs(a: Log, b: Log)
    requires LogOk(a) && LogOk(b)
    ensures LogOk(a + b)
  {}

  lemma TopShape(s: State)
    requires Top(s)
    ensures Core(s) && Shape(s) && s.loading == None
  {}

  lemma TopReady(s: State)
    requires Top(s)
    ensures Ready(s)
  {}

  lemma {:induction false} PassiveLegal(p: Prog)
    requires Passive(p)
    ensures Legal(p)
    decreases p
  {
    if p.Then? {
      if p.first.DoWith? { PassiveLegal(p.first.body); }
      PassiveLegal(p.rest);
    }
  }

  lemma PrepareTop(s: State, name: Hook)
    requires Top(s)
    ensures Top(Prepare(s, name).0) && Kept(s, Prepare(s, name).0)
    ensures LogOk([CallEvent(s, name)])
  {
    hide Prepare, CachesOk, DeniesOk, SymsOk, Settled, EntryOk, KeyOk, ModsOk;
    PrepareInv(s, name);
  }

  /** The invariant does not read the execution context. */
  lemma ContextTop(s: State, region: RegionId, entry: Option<RegionId>)
    requires Top(s) && region in s.tree && (entry.Some? ==> entry.value in s.tree)
    ensures Top(s.(cur := region, curEntry := entry))
  {
    hide CachesOk, DeniesOk, SymsOk, Settled, EntryOk, KeyOk, ModsOk;
    var q := s.(cur := region, curEntry := entry);
    CoreFrame(s, q);
    FrameInv(s, q);
  }

  lemma EnterTop(s: State, slot: Slot, home: RegionId)
    requires Top(s) && slot.me in s.entries
    ensures var i := Enter(s, slot, home); Top(i) && i == s.(cur := i.cur, curEntry := i.curEntry)
  {
    hide CachesOk, DeniesOk, SymsOk, Settled, KeyOk, ModsOk;
    EntryIsOk(s, slot.me);
    var target := CtxRegion(s, slot.me);
    if target != home { ContextTop(s, target, Some(s.entries[slot.me].linked)); }
  }

  lemma DoLoadTop(w: World, s: State, path: Path)
    requires Top(s)
    ensures Kept(s, Load(w, s, path).0)
  {
    hide Load, CachesOk, DeniesOk, SymsOk, Settled, EntryOk, KeyOk, ModsOk, Counted;
    LoadTop(w, s, path);
  }

  lemma DoUnloadTop(w: World, s: State, path: Path)
    requires Top(s) && IsScan(w.scan)
    ensures Kept(s, Unload(w, s, path).0)
  {
    hide CachesOk, DeniesOk, SymsOk, Settled, EntryOk, ModsOk, UnloadEntry, Counted, IsScan;
    if KeyAt(path, s.cur) in s.registry {
      RegisteredLive(s, KeyAt(path, s.cur));
      UnloadTop(w.scan, s, s.registry[KeyAt(path, s.cur)]);
    }
  }

  lemma DoReloadTop(w: World, s: State, path: Path)
    requires Top(s) && IsScan(w.scan)
    ensures Kept(s, Reload(w, s, path).0)
  {
    hide Inv, Counted, UnloadEntry, Load, MarkDirty, Before, Without, InsertAfter, IsScan;
    ReloadTop(w, s, path);
    if KeyAt(path, s.cur) in s.registry {
      TopShape(s);
      RegisteredLive(s, KeyAt(path, s.cur));
      TopReady(s);
      UnloadedReady(w.scan, s, s.registry[KeyAt(path, s.cur)]);
    }
  }

  lemma SettingTop(s: State, act: Action)
    requires Top(s) && !act.ALoad?
    ensures Kept(s, Setting(s, act))
  {
    hide CachesOk, DeniesOk, SymsOk, Settled, EntryOk, KeyOk, ModsOk, BumpGens, FlagDeny;
    SettingInv(s, act);
  }

  lemma AregTop(s: State, name: Hook)
    requires Top(s)
    ensures Kept(s, Areg(s, name))
  {
    hide CachesOk, DeniesOk, SymsOk, Settled, EntryOk, KeyOk, ModsOk;
    AregInv(s, name);
  }

  // ---- from the start ----

  lemma InitTop()
    ensures Top(INIT)
  {
    assert NodeOk(INIT.tree, ROOT);
    assert Dfs(INIT.tree, INIT.mods, ROOT) == [];
    assert PrefixOk(INIT.tree, ROOT);
  }

  /**
   Every run ends in a state that satisfies the invariant, in the context it started in, with
   loaders before what they loaded; and if its grants stayed within 60 bits, every live module
   is registered under its own key, and linked in its own region.
   */
  lemma EveryRun(p: Prog)
    requires Legal(p)
    ensures Top(INIT)
    ensures var r := Exec(INIT, p);
            && Inv(r.0) && Counted(r.0.entries) && SameContext(INIT, r.0) && LogOk(r.1)
            && LineageOk(r.0)
            && (Apart(r.0.tree) || Shallow(r.0.tree) ==> Registered(r.0) && !r.0.everStray && InStep(r.0.entries))
  {
    hide Exec, CachesOk, DeniesOk, SymsOk, Settled, EntryOk, KeyOk, ModsOk, Apart, Shallow, Registered, LineageOk,
         InStep;
    InitTop();
    var q := Exec(INIT, p).0;
    if Shallow(q.tree) { ShallowApart(q.tree); }
    SettledMeans(q);
  }

  /**
   Every call of every run, however deeply nested: if the call was not refused and no image
   had been shared, it ran exactly what its filter left of a fresh walk of the caller's
   subtree, in order.
   */
  lemma EveryCallFiltered(p: Prog, ev: Event)
    requires Legal(p) && Top(INIT) && ev in Exec(INIT, p).1
    requires Shape(ev.at) && Prepare(ev.at, ev.hook).1 == OK && !ev.at.everShared
    ensures var s, r := ev.at, CallerRegion(ev.at);
            ev.ran == Listening(s.entries, Filter(s, r, ev.hook), ev.hook, Dfs(s.tree, s.mods, r))
  {
    hide Exec, Prepare, Dfs, Filter;
    assert EventOk(ev);
    CallFiltered(ev.at, ev.hook);
  }

  lemma CallFiltered(s: State, name: Hook)
    requires Inv(s) && Prepare(s, name).1 == OK && !s.everShared
    ensures var r := CallerRegion(s);
            CallEvent(s, name).ran == Listening(s.entries, Filter(s, r, name), name, Dfs(s.tree, s.mods, r))
  {
    hide Prepare, Dfs, Filter, CachesOk, DeniesOk, SymsOk, Settled, EntryOk, KeyOk, ModsOk;
    var r := CallerRegion(s);
    CallIsFiltered(s, name);
    ListenersRun(Prepare(s, name).0, Filter(s, r, name), name, Dfs(s.tree, s.mods, r));
  }

  /**
   If, besides, no proper ancestor of the caller's region had ever held a module deny, the
   filter is the region's own denies: the call is the recomputation.
   */
  lemma EveryCallCoherent(p: Prog, ev: Event)
    requires Legal(p) && Top(INIT) && ev in Exec(INIT, p).1
    requires Shape(ev.at) && Prepare(ev.at, ev.hook).1 == OK && Undisturbed(ev.at, CallerRegion(ev.at))
    ensures var s, r := ev.at, CallerRegion(ev.at);
            ev.ran == Listening(s.entries, s.denies[r].mods, ev.hook, Dfs(s.tree, s.mods, r))
  {
    hide Exec, Prepare, Dfs, NoDenyAbove, Filter;
    assert EventOk(ev);
    CallCoherent(ev.at, ev.hook);
  }

  lemma CallCoherent(s: State, name: Hook)
    requires Inv(s) && Prepare(s, name).1 == OK && Undisturbed(s, CallerRegion(s))
    ensures CallEvent(s, name).ran == Listening(s.entries, s.denies[CallerRegion(s)].mods, name,
            Dfs(s.tree, s.mods, CallerRegion(s)))
  {
    hide Prepare, Dfs, NoDenyAbove, Filter, CachesOk, DeniesOk, SymsOk, Settled, EntryOk, KeyOk, ModsOk;
    CallFiltered(s, name);
    OwnFilter(s, CallerRegion(s), name);
  }

  /**
   Every call of every run, without any condition: what it ran was live, linked in the caller's subtree, and not
   banned by the caller's region.
   */
  lemma EveryCallLive(p: Prog, ev: Event, slot: Slot)
    requires Legal(p) && Top(INIT) && ev in Exec(INIT, p).1 && slot in ev.ran
    ensures Shape(ev.at) && slot.me in ev.at.entries
    ensures var n := ev.at.entries[slot.me];
            && n.linked in ev.at.tree && slot.me in ev.at.mods[n.linked] &&
              Anc(ev.at.tree, CallerRegion(ev.at), n.linked)
            && n.path !in ev.at.denies[CallerRegion(ev.at)].mods
  {
    hide Exec, Prepare, CachesOk, DeniesOk, SymsOk, Settled, EntryOk, KeyOk, ModsOk, IsTree, NodeOk, Extends, Shape;
    assert EventOk(ev);
    RunnableSub(Prepare(ev.at, ev.hook).0, Prepare(ev.at, ev.hook).2, slot);
    var i :| 0 <= i < |Prepare(ev.at, ev.hook).2| && Prepare(ev.at, ev.hook).2[i] == slot;
    NoStaleSlot(ev.at, ev.hook, i);
  }

  lemma {:induction false} RunnableSub(s: State, slots: seq<Slot>, slot: Slot)
    requires slot in Runnable(s, slots)
    ensures slot in slots
  {
    if slot !in (if Runs(s, slots[0]) then [slots[0]] else []) { RunnableSub(s, slots[1..], slot); }
  }

  // ---- each module once ----

  /** A subtree walk meets no module twice. */
  lemma {:induction false} DfsOnce(s: State, r: RegionId)
    requires Core(s) && r in s.tree
    ensures NoDup(Dfs(s.tree, s.mods, r))
    decreases 64 - s.tree[r].depth, 1, 0
  {
    hide EntryOk, KeyOk;
    assert NodeOk(s.tree, r) && ModsOk(s, r);
    var cs := s.tree[r].children;
    DfsAllOnce(s, r, cs);
    forall e | e in s.mods[r] ensures e !in DfsAll(s.tree, s.mods, r, cs) {
      if e in DfsAll(s.tree, s.mods, r, cs) {
        var c := UnderChild(s, r, cs, e);
        ChildNotAbove(s.tree, r, c);
      }
    }
    AppNoDup(s.mods[r], DfsAll(s.tree, s.mods, r, cs));
  }

  lemma ChildNotAbove(t: Tree, r: RegionId, c: RegionId)
    requires r in t && c in t && t[c].parent == Some(r)
    ensures !Anc(t, c, r)
  {
    assert NodeOk(t, c);
    if Anc(t, c, r) { AncFacts(t, c, r); }
  }

  lemma UnderChild(s: State, r: RegionId, cs: seq<RegionId>, e: EntryId) returns (c: RegionId)
    requires Core(s) && r in s.tree && (forall x :: x in cs ==> x in s.tree && s.tree[x].parent == Some(r))
    requires e in DfsAll(s.tree, s.mods, r, cs)
    ensures c in cs && c in s.tree && e in s.entries && s.entries[e].linked in s.tree &&
            Anc(s.tree, c, s.entries[e].linked)
  {
    hide EntryOk, KeyOk;
    DfsAllMember(s.tree, s.mods, r, cs, e);
    var x;
    c, x :| c in cs && x in s.tree && Anc(s.tree, c, x) && e in s.mods[x];
    assert ModsOk(s, x);
  }

  lemma {:induction false} DfsAllOnce(s: State, r: RegionId, cs: seq<RegionId>)
    requires Core(s) && r in s.tree && NoDup(cs) && (forall x :: x in cs ==> x in s.tree && s.tree[x].parent == Some(r))
    ensures NoDup(DfsAll(s.tree, s.mods, r, cs))
    decreases 64 - s.tree[r].depth, 0, |cs|
  {
    hide EntryOk, KeyOk, ModsOk;
    if cs != [] {
      assert NodeOk(s.tree, cs[0]);
      DfsOnce(s, cs[0]);
      DfsAllOnce(s, r, cs[1..]);
      var a, b := Dfs(s.tree, s.mods, cs[0]), DfsAll(s.tree, s.mods, r, cs[1..]);
      forall e | e in a ensures e !in b {
        if e in b {
          DfsLive(s, cs[0], e);
          var c := UnderChild(s, r, cs[1..], e);
          SiblingsIncomparable(s.tree, r, cs[0], c, s.entries[e].linked);
        }
      }
      AppNoDup(a, b);
    }
  }

  lemma SiblingsIncomparable(t: Tree, r: RegionId, a: RegionId, b: RegionId, d: RegionId)
    requires r in t && a in t && b in t && t[a].parent == Some(r) && t[b].parent == Some(r) && d in t
    requires Anc(t, a, d) && Anc(t, b, d)
    ensures a == b
  {
    assert NodeOk(t, a) && NodeOk(t, b);
    AncLinear(t, a, b, d);
    if Anc(t, a, b) { AncFacts(t, a, b); } else { AncFacts(t, b, a); }
  }

  lemma {:induction false} ListeningOnce(es: Entries, banned: set<Path>, name: Hook, list: seq<EntryId>)
    requires NoDup(list)
    ensures forall i, j :: 0 <= i < j < |Listening(es, banned, name, list)| ==>
              Listening(es, banned, name, list)[i].me != Listening(es, banned, name, list)[j].me
    ensures forall i :: 0 <= i < |Listening(es, banned, name, list)| ==> Listening(es, banned, name, list)[i].me in list
  {
    if list != [] {
      assert list == [list[0]] + list[1..];
      NoDupApp([list[0]], list[1..]);
      ListeningOnce(es, banned, name, list[1..]);
    }
  }

  /** Under the same condition, no call of any run invokes a module twice. */
  lemma EveryCallOnce(p: Prog, ev: Event, i: nat, j: nat)
    requires Legal(p) && Top(INIT) && ev in Exec(INIT, p).1 && i < j < |ev.ran|
    requires Shape(ev.at) && Prepare(ev.at, ev.hook).1 == OK && Undisturbed(ev.at, CallerRegion(ev.at))
    ensures ev.ran[i].me != ev.ran[j].me
  {
    hide Exec, Prepare, Dfs, Undisturbed, Listening;
    EveryCallCoherent(p, ev);
    assert EventOk(ev);
    var s, r := ev.at, CallerRegion(ev.at);
    DfsOnce(s, r);
    ListeningOnce(s.entries, s.denies[r].mods, ev.hook, Dfs(s.tree, s.mods, r));
  }

  /**
   The code of a call, from the same recomputation: refused, or NOTFOUND when the name is unknown or nothing
   listens.
   */
  lemma CallCodes(s: State, name: Hook)
    requires Inv(s) && Undisturbed(s, CallerRegion(s))
    ensures var r := CallerRegion(s);
            CallEvent(s, name).code ==
              if name !in s.hooks then NOTFOUND
              else if HookDenied(s.denies, DenyChain(s, r), name) then EPERM
              else if Listening(s.entries, s.denies[r].mods, name, Dfs(s.tree, s.mods, r)) == [] then NOTFOUND
              else OK
  {
    hide Dfs, Undisturbed, CachesOk, DeniesOk, SymsOk, Settled, EntryOk, KeyOk, ModsOk, Refresh, HookDenied,
         DenyChain, Listening, Runnable;
    if Prepare(s, name).1 == OK { CallCoherent(s, name); }
  }

  /**
   Symbol caches after every run: a slot is empty or what dlsym says, and, unless an image was shared, its bit
   says whether it is a function.
   */
  lemma EverySymbolCache(p: Prog, e: EntryId, i: nat)
    requires Legal(p) && Top(INIT) && e in Exec(INIT, p).0.entries && e in Exec(INIT, p).0.syms &&
             i < |Exec(INIT, p).0.syms[e].fn|
    ensures var q := Exec(INIT, p).0;
            var t, x := q.syms[e], q.entries[e].image.Syms();
            && (t.fn[i] != Empty ==> i < |q.hooks| && t.fn[i] == Dlsym(x, q.hooks[i]))
            && (!q.everShared ==> (i in t.impl <==> t.fn[i].Found?))
  {
    hide Exec, CachesOk, DeniesOk, Settled, EntryOk, KeyOk, ModsOk, IsTree, NodeOk;
    assert SymOk(Exec(INIT, p).0, e);
  }

  // ---- region id and region pointer ----

  /** The current region's pointer, once set, is the current region's. */
  ghost predicate InSync(s: State) {
    s.curEntry.Some? ==> s.curEntry.value == s.cur
  }

  ghost predicate AllInSync(log: Log) {
    forall ev :: ev in log ==> InSync(ev.at)
  }

  /**
   If no image is ever shared, and no reload ever links a module into another region, id and pointer agree wherever
   a program makes a call.
   */
  lemma {:induction false} SyncedRun(s: State, p: Prog)
    requires Top(s) && Legal(p) && InSync(s) && !Exec(s, p).0.everShared && !Exec(s, p).0.everStray
    ensures AllInSync(Exec(s, p).1)
    decreases p, 0
  {
    hide Top, LegalCmd, LogOk, ExecCmd, InSync;
    if p.Then? {
      var a := ExecCmd(s, p.first);
      SyncedCmd(s, p.first);
      assert InSync(a.0) by { SameSync(s, a.0); }
      SyncedRun(a.0, p.rest);
    }
  }

  lemma SameSync(s: State, q: State)
    requires SameContext(s, q) && InSync(s)
    ensures InSync(q)
  {}

  lemma {:induction false} SyncedCmd(s: State, c: Cmd)
    requires Top(s) && LegalCmd(c) && InSync(s)
    requires !ExecCmd(s, c).0.everShared && !ExecCmd(s, c).0.everStray
    ensures AllInSync(ExecCmd(s, c).1)
    decreases c, 1
  {
    hide Inv, LogOk, Exec, Deliver, Counted, Load, Unload, Reload, Areg, DenyHook, DenyModule, Require, Prepare;
    match c
    case DoCall(name, bodies) =>
      TopShape(s);
      PrepareTop(s, name);
      var q := Prepare(s, name);
      assert InSync(q.0);
      SyncedDeliver(q.0, q.2, bodies, s.cur);
    case DoWith(region, body) =>
      if region in s.tree {
        ContextTop(s, region, Some(region));
        SyncedRun(s.(cur := region, curEntry := Some(region)), body);
      }
    case _ =>
  }

  lemma {:induction false} SyncedDeliver(s: State, slots: seq<Slot>, bodies: Bodies, home: RegionId)
    requires Top(s) && PassiveBodies(bodies) && s.cur == home && InSync(s)
    requires !Deliver(s, slots, bodies, home).0.everShared && !Deliver(s, slots, bodies, home).0.everStray
    ensures AllInSync(Deliver(s, slots, bodies, home).1)
    decreases bodies, 0, |slots|
  {
    hide Top, LogOk, Enter, Passive, Exec, InSync;
    if slots == [] {
    } else if !Runs(s, slots[0]) || bodies.Silent? {
      SyncedDeliver(s, slots[1..], bodies, home);
    } else {
      var i := Enter(s, slots[0], home);
      EnterTop(s, slots[0], home);
      PassiveLegal(bodies.body);
      var b := Exec(i, bodies.body);
      ScopeEnds(s, i, b.0);
      var back := b.0.(cur := s.cur, curEntry := s.curEntry);
      assert !s.everShared && !b.0.everShared && !s.everStray && !b.0.everStray;
      EnterSync(s, slots[0], home);
      SyncedRun(i, bodies.body);
      assert InSync(back) by { SameSync(s, back); }
      SyncedDeliver(back, slots[1..], bodies.others, home);
    }
  }

  /** Without sharing, a module's context names its own region; without straying, its pointer does as well. */
  lemma EnterSync(s: State, slot: Slot, home: RegionId)
    requires Top(s) && InSync(s) && !s.everShared && !s.everStray && Runs(s, slot)
    ensures InSync(Enter(s, slot, home))
  {
    hide CachesOk, DeniesOk, Settled, EntryOk, KeyOk, ModsOk;
    SettledMeans(s);
    assert SymOk(s, slot.me);
  }

  /**
   Without sharing, a callback runs with its module's own region as the current one. When it has to be entered, the
   pointer is that of the region the module is linked in: the two agree exactly when it is linked in its own.
   */
  lemma CallbackAtHome(s: State, slot: Slot)
    requires Top(s) && InSync(s) && !s.everShared && Dispatch.Runs(s, slot)
    ensures var q, n := Enter(s, slot, s.cur), s.entries[slot.me];
            && q.cur == n.region
            && (InSync(q) <==> n.region == s.cur || n.linked == n.region)
  {
    hide CachesOk, DeniesOk, Settled, EntryOk, KeyOk, ModsOk;
    assert SymOk(s, slot.me);
  }
}
