/**
 Programs in which two regions share their keys' digits: a reload that takes its module for
 another region's, and a cascade that does not find a module it should remove.
 */
module Detours {
  import opened Wrappers
  import opened Lists
  import opened Symbols
  import opened Keys
  import opened RegionTree
  import opened RegionIds
  import opened XylemState
  import opened Loading
  import opened Unloading
  import opened Dispatch
  import opened Invariants
  import opened Programs
  import opened Reloading
  import opened Runs
  import opened Limits
  import opened Witnesses

  type Scan = set<EntryId> -> seq<EntryId>

  // ---- a reload from a region that shares the root's digits ----

  /** An object that claims nothing and whose install does nothing. */
  const PLAIN := Image(1, [], {"h"}, true, None, Some([]))

  function Shelf(scan: Scan): World {
    World(map["n" := PLAIN], (h, p, b) => None, scan)
  }

  /** "m" claims a region below the root, "n" is loaded at the root, and "n" is reloaded in the region. */
  function Detour(bits: nat, scan: Scan): Prog
    requires bits <= 64
  {
    Setup(bits, Then(DoRequire(None), Then(DoLoad(Shelf(scan), "n"),
      Then(DoWith(FirstChild(bits), Then(DoReload(Shelf(scan), "n"), Done)), Done))))
  }

  /** Two regions, and the tree below the root. */
  ghost predicate Pair(s: State, bits: nat)
    requires 1 <= bits <= 64
  {
    var r := FirstChild(bits);
    r != ROOT && s.tree.Keys == {ROOT, r} && s.tree[r].parent == Some(ROOT) && s.tree[r].children == []
  }

  /** Each region holds one module; the root's module is what its key leads to. */
  ghost predicate Both(s: State, bits: nat)
    requires 1 <= bits <= 64
  {
    var r := FirstChild(bits);
    && Shape(s) && Pair(s, bits) && s.loading == None
    && s.mods == map[ROOT := [1], r := [0]]
    && s.entries == map[0 := Entry("m", Claimant(bits), r, r, 1, None), 1 := Entry("n", PLAIN, ROOT, ROOT, 1, None)]
    && s.gates[r] == NO_GATE && s.nextEntry == 2 && !s.everShared && !s.everStray
    && KeyAt("n", ROOT) in s.registry && s.registry[KeyAt("n", ROOT)] == 1
    && (KeyAt("n", r) in s.registry <==> bits > 60)
  }

  lemma UngatedAlone(s: State, bits: nat)
    requires 1 <= bits <= 64 && Alone(s, bits)
    ensures Alone(Require(s, None), bits) && Require(s, None).gates[ROOT] == NO_GATE
  {}

  lemma BothLoaded(s: State, bits: nat, scan: Scan)
    requires 1 <= bits <= 64 && Ready(s) && Alone(s, bits) && s.loading == None && s.nextEntry == 1 && !s.everStray
    requires s.registry == Put(map[], "m", ROOT, FirstChild(bits), 0) && s.gates[ROOT] == NO_GATE
    ensures Both(Load(Shelf(scan), s, "n").0, bits)
  {
    hide Load, Core, FirstChild, Shape, KeyAt, Put, Both;
    OtherKeys(bits, s.registry);
    FlatLoad(Shelf(scan), s, "n");
    LoadShape(Shelf(scan), s, "n");
    BothMade(s, Load(Shelf(scan), s, "n").0, bits);
  }

  lemma BothMade(s: State, l: State, bits: nat)
    requires 1 <= bits <= 64 && Alone(s, bits) && KeyAt("n", FirstChild(bits)) !in s.registry
    requires Shape(l) && l.loading == None && l.nextEntry == 2 && l.tree == s.tree && l.gates == s.gates
    requires l.mods == s.mods[ROOT := s.mods[ROOT] + [1]] && l.registry == s.registry[KeyAt("n", ROOT) := 1]
    requires l.entries == s.entries[1 := Entry("n", PLAIN, ROOT, ROOT, 1, None)] && !l.everStray
    requires l.everShared <==> InUse(s.entries, 1)
    ensures Both(l, bits)
  {
    hide FirstChild, Shape, KeyAt;
    SharedDigits(bits);
    assert [] + [1] == [1];
    assert l.mods == map[ROOT := [1], FirstChild(bits) := [0]];
  }

  lemma SharedDigits(bits: nat)
    requires 1 <= bits <= 64
    ensures KeyAt("n", FirstChild(bits)) == KeyAt("n", ROOT) <==> bits > 60
  {
    FirstSlot(bits);
  }

  lemma OtherKeys(bits: nat, reg: map<Key, EntryId>)
    requires 1 <= bits <= 64 && reg == Put(map[], "m", ROOT, FirstChild(bits), 0)
    ensures KeyAt("n", ROOT) !in reg && KeyAt("n", FirstChild(bits)) !in reg
  {}

  lemma LoadShape(w: World, s: State, path: Path)
    requires Ready(s)
    ensures Shape(Load(w, s, path).0) && Load(w, s, path).0.loading == s.loading
  {
    hide Load;
  }

  /** What the reload leaves when the region shares the root's digits. */
  ghost predicate Astray(q: State, bits: nat)
    requires 1 <= bits <= 64
  {
    var r := FirstChild(bits);
    && q.everStray && !q.everShared
    && q.mods == map[ROOT := [2], r := [0]]
    && 2 in q.entries && q.entries[2] == Entry("n", PLAIN, r, ROOT, 1, None)
  }

  lemma ReloadAstray(s: State, bits: nat, scan: Scan)
    requires 60 < bits <= 64 && IsScan(scan) && Top(s) && Both(s, bits) && s.cur == FirstChild(bits)
    ensures Astray(Reload(Shelf(scan), s, "n").0, bits) && Reload(Shelf(scan), s, "n").0.tree == s.tree
  {
    hide Reload, Replace, UnloadEntry, Load, Top, Both, IsTree, NodeOk, FirstChild, IsScan, Before, Move, CanMove,
         Placeable, RegOk, Core, Shape, KeyAt, Astray;
    FirstSlot(bits);
    var w := Shelf(scan);
    SceneFound(s, bits);
    var e, u, l := ReloadParts(w, s, "n");
    TopShape(s);
    OneLess(s, bits, scan, u);
    LoadedThere(w, u, bits, l);
    ReplaceIs(w, u, "n", ROOT, None);
    PutFirst(l, bits);
  }

  /** What the region's key finds is the root's module, at the head of its list. */
  lemma SceneFound(s: State, bits: nat)
    requires 60 < bits <= 64 && Both(s, bits) && s.cur == FirstChild(bits)
    ensures KeyAt("n", s.cur) == KeyAt("n", ROOT) && KeyAt("n", s.cur) in s.registry &&
            s.registry[KeyAt("n", s.cur)] == 1
    ensures 1 in s.entries && s.entries[1].linked == ROOT && ROOT in s.mods && Before(s.mods[ROOT], 1) == None
    ensures s.gates[s.cur] == NO_GATE && s.loading == None && s.nextEntry == 2
  {
    hide FirstChild, KeyAt;
    SharedDigits(bits);
    assert IndexOf([1], 1) == 0;
  }

  /** The root's module is unloaded. */
  lemma OneLess(s: State, bits: nat, scan: Scan, u: State)
    requires 60 < bits <= 64 && Core(s) && IsScan(scan) && Both(s, bits) && 1 in s.entries && RegOk(s, 1)
    requires u == UnloadEntry(scan, s, 1)
    ensures u.entries.Keys == {0} && u.entries[0].image.id == 0 && KeyAt("n", ROOT) !in u.registry
    ensures u.mods == map[ROOT := [], FirstChild(bits) := [0]]
    ensures u.gates == s.gates && !u.everShared && !u.everStray
  {
    hide UnloadEntry, Core, IsScan, RegOk, Shape, Desc, Visible, Survivors, FirstChild, KeyAt, Pair, Shrinks;
    FirstSlot(bits);
    OnlyOlder(s, scan, u);
    ListsWithout(s, u, FirstChild(bits));
    Thinned(s, u);
  }

  lemma OnlyOlder(s: State, scan: Scan, u: State)
    requires Core(s) && IsScan(scan) && s.entries.Keys == {0, 1} && RegOk(s, 1) && u == UnloadEntry(scan, s, 1)
    requires s.entries[1].refcount == 1
    ensures u.entries.Keys == {0} && u.entries[0] == s.entries[0] && KeyOf(s.entries[1]) !in u.registry
  {
    hide UnloadEntry, Core, IsScan, RegOk, Shape, Desc, Visible, Survivors, KeyAt;
    UnloadFrees(scan, s, 1);
    assert !Desc(Visible(s), 1, 0) by { OlderIsNot(s); }
    UnloadSpares(scan, s, 1, 0);
    forall m | m in u.entries ensures m == 0 { assert Survives(s, u, m); }
  }

  lemma ListsWithout(s: State, u: State, r: RegionId)
    requires Shrinks(s, u) && u.entries.Keys == {0} && r != ROOT && s.mods == map[ROOT := [1], r := [0]]
    ensures u.mods == map[ROOT := [], r := [0]]
  {
    hide IsTree, NodeOk, Extends, Shape, KeyOf, NoDup;
    KeepsNone(u.entries.Keys);
  }

  lemma Thinned(s: State, u: State)
    requires Shrinks(s, u)
    ensures u.gates == s.gates && u.everShared == s.everShared && u.everStray == s.everStray
  {}

  lemma OlderIsNot(s: State)
    requires Core(s) && 0 in s.entries && 1 in s.entries
    ensures !Desc(Visible(s), 1, 0)
  {
    hide Core, Tabled;
    if Desc(Visible(s), 1, 0) { DescOrder(Visible(s), 1, 0); }
  }

  lemma KeepsNone(live: set<EntryId>)
    requires live == {0}
    ensures Keep([1], live) == [] && Keep([0], live) == [0]
  {
    assert Keep([], live) == [];
  }

  /** It is loaded again, now in the region. */
  lemma LoadedThere(w: World, u: State, bits: nat, l: State)
    requires 60 < bits <= 64 && Ready(u) && u.cur == FirstChild(bits) != ROOT && u.loading == None && u.nextEntry == 2
    requires u.mods == map[ROOT := [], FirstChild(bits) := [0]] && u.entries.Keys == {0} && u.entries[0].image.id == 0
    requires KeyAt("n", u.cur) !in u.registry && u.gates[u.cur] == NO_GATE && !u.everShared && !u.everStray
    requires "n" in w.images && w.images["n"] == PLAIN && l == Load(w, u, "n").0
    ensures Load(w, u, "n").1 == OK && KeyAt("n", u.cur) in l.registry && l.registry[KeyAt("n", u.cur)] == 2
    ensures l.mods == map[ROOT := [], FirstChild(bits) := [0, 2]]
    ensures 2 in l.entries && l.entries[2] == Entry("n", PLAIN, u.cur, u.cur, 1, None)
    ensures !l.everShared && !l.everStray && Core(l) && l.tree == u.tree
  {
    hide Load, Core, FirstChild, KeyAt;
    FlatLoad(w, u, "n");
    assert [0] + [2] == [0, 2];
  }

  lemma PutFirst(l: State, bits: nat)
    requires 60 < bits <= 64 && Core(l) && CanMove(l, ROOT, 2, None) && !l.everShared
    requires FirstChild(bits) != ROOT && l.mods == map[ROOT := [], FirstChild(bits) := [0, 2]]
    requires 2 in l.entries && l.entries[2] == Entry("n", PLAIN, FirstChild(bits), FirstChild(bits), 1, None)
    ensures Astray(Move(l, ROOT, 2, None), bits) && Move(l, ROOT, 2, None).tree == l.tree
  {
    hide Core, Move, CanMove, FirstChild, NewList, IsTree, NodeOk, Extends, Shape;
    MovedFields(l, ROOT, 2, None);
    MovedLists(l, ROOT, 2, None);
    assert Without([0, 2], 2) == [0] by { assert IndexOf([0, 2], 2) == 1; }
    FirstOfNone(l, bits);
  }

  lemma FirstOfNone(l: State, bits: nat)
    requires 60 < bits <= 64 && CanMove(l, ROOT, 2, None) && FirstChild(bits) != ROOT
    requires l.mods == map[ROOT := [], FirstChild(bits) := [0, 2]] && l.entries[2].linked == FirstChild(bits)
    ensures NewList(l, ROOT, 2, None) == [2]
  {
    hide MarkDirty, Without, FirstChild;
  }

  lemma ReloadRuns(s: State, w: World, path: Path)
    requires Top(s) && IsScan(w.scan)
    ensures LegalCmd(DoReload(w, path))
    ensures Top(Reload(w, s, path).0) && ExecCmd(s, DoReload(w, path)) == (Reload(w, s, path).0, [])
  {
    hide Inv, Counted, Load, LogOk, Kept, Reload, IsScan;
    DoReloadTop(w, s, path);
    KeptTop(s, Reload(w, s, path).0);
  }

  lemma OneReload(s: State, w: World, r: RegionId, path: Path)
    requires Top(s) && r in s.tree && IsScan(w.scan)
    ensures Top(At(s, r)) && Legal(Then(DoReload(w, path), Done))
    ensures ExecCmd(s, DoWith(r, Then(DoReload(w, path), Done))) ==
            (Reload(w, At(s, r), path).0.(cur := s.cur, curEntry := s.curEntry), [])
  {
    hide Top, LogOk, Kept, ExecCmd, Exec, Reload, IsScan;
    ContextTop(s, r, Some(r));
    ReloadRuns(At(s, r), w, path);
    var q := Reload(w, At(s, r), path).0;
    ThenIs(At(s, r), DoReload(w, path), Done);
    DoneIs(q);
    NoneBefore([]);
    ScopeRuns(s, r, Then(DoReload(w, path), Done));
  }

  lemma StartClean(bits: nat)
    requires Top(INIT) && Ready(Require(INIT, Some(0)))
    ensures !Start(bits).everStray
  {
    hide Load, Anc;
  }

  /** The program up to its reload. */
  lemma DetourUpToReload(bits: nat, scan: Scan) returns (s: State)
    requires 1 <= bits <= 64 && IsScan(scan)
    ensures Top(s) && Both(s, bits) && s.cur == ROOT && s.curEntry == Some(ROOT)
    ensures FirstChild(bits) in s.tree && Top(At(s, FirstChild(bits))) && Legal(Detour(bits, scan)) && Top(INIT)
    ensures Exec(INIT, Detour(bits, scan)).0 ==
            Reload(Shelf(scan), At(s, FirstChild(bits)), "n").0.(cur := ROOT, curEntry := Some(ROOT))
  {
    hide Exec, ExecCmd, Load, Reload, Start, Top, Kept, IsScan, Both, FirstChild, Ready;
    var w, r := Shelf(scan), FirstChild(bits);
    var body := Then(DoReload(w, "n"), Done);
    GatedTop();
    StartClean(bits);
    SetupRuns(bits);
    var s0 := Start(bits);
    SettingsRun(s0, None);
    ThenIs(s0, DoRequire(None), Done);
    var s1 := Require(s0, None);
    LoadRuns(s1, w, "n");
    ToPair(s0, s1, bits, scan);
    s := Load(w, s1, "n").0;
    BothFacts(s, bits);
    OneReload(s, w, r, "n");
    var scoped := Then(DoWith(r, body), Done);
    ThenIs(s, DoWith(r, body), Done);
    DoneIs(ExecCmd(s, DoWith(r, body)).0);
    ThenIs(s1, DoLoad(w, "n"), scoped);
    ThenIs(s0, DoRequire(None), Then(DoLoad(w, "n"), scoped));
    SetupIs(bits, Then(DoRequire(None), Then(DoLoad(w, "n"), scoped)));
  }

  /** The state before the reload has both modules, each in its own region. */
  lemma ToPair(s0: State, s: State, bits: nat, scan: Scan)
    requires 1 <= bits <= 64 && Top(s0) && Alone(s0, bits) && s0.nextEntry == 1 && !s0.everStray
    requires s0.registry == Put(map[], "m", ROOT, FirstChild(bits), 0)
    requires s == Require(s0, None) && Ready(s)
    ensures Both(Load(Shelf(scan), s, "n").0, bits) && SameContext(s0, Load(Shelf(scan), s, "n").0)
  {
    hide Load, Ready, Alone, Both, Put, Inv, Counted;
    UngatedAlone(s0, bits);
    BothLoaded(s, bits, scan);
    LoadContext(Shelf(scan), s, "n");
  }

  lemma LoadContext(w: World, s: State, path: Path)
    requires Ready(s)
    ensures SameContext(s, Load(w, s, path).0)
  {
    hide Load;
  }

  lemma BothFacts(s: State, bits: nat)
    requires 1 <= bits <= 64 && Both(s, bits)
    ensures FirstChild(bits) in s.tree
  {}

  /**
   The reload finds a module in the other region's list exactly when the claim has more than 60
   bits. It then puts the region's new module into the root's list: a call in the region does not
   meet it, a call at the root does, and its callback runs with the region's id and the root's
   record, although no image was shared.
   */
  lemma ReloadStraysIff(bits: nat, scan: Scan)
    requires 1 <= bits <= 64 && IsScan(scan)
    ensures Legal(Detour(bits, scan)) && Top(INIT)
    ensures var q, r := Exec(INIT, Detour(bits, scan)).0, FirstChild(bits);
            && Shape(q) && !q.everShared && (q.everStray <==> bits > 60) && (InStep(q.entries) <==> bits <= 60)
            && r in q.tree && ROOT in q.tree
            && if bits <= 60 then q.mods == map[ROOT := [1], r := [0]]
               else
                 && q.mods == map[ROOT := [2], r := [0]]
                 && 2 in q.entries && q.entries[2] == Entry("n", PLAIN, r, ROOT, 1, None)
                 && Dfs(q.tree, q.mods, r) == [0] && Dfs(q.tree, q.mods, ROOT) == [2, 0]
                 && forall cb :: Enter(q, Slot(2, cb), ROOT) == q.(cur := r, curEntry := Some(ROOT))
  {
    hide Exec, Detour, Both, Top, IsScan, Reload, Astray, FirstChild, Core, InStep;
    var r := FirstChild(bits);
    var s := DetourUpToReload(bits, scan);
    TopShape(s);
    TopShape(At(s, r));
    var t := Reload(Shelf(scan), At(s, r), "n").0;
    ReloadRuns(At(s, r), Shelf(scan), "n");
    TopShape(t);
    BothAt(s, bits, r);
    if bits <= 60 {
      NotFoundThere(At(s, r), bits, scan);
      BothInStep(s, bits);
    } else {
      ReloadAstray(At(s, r), bits, scan);
      AstrayMeans(t, bits);
    }
  }

  lemma BothAt(s: State, bits: nat, r: RegionId)
    requires 1 <= bits <= 64 && Both(s, bits) && r == FirstChild(bits)
    ensures Both(At(s, r), bits) && Pair(s, bits) && Pair(At(s, r), bits)
  {
    hide FirstChild;
  }

  lemma NotFoundThere(s: State, bits: nat, scan: Scan)
    requires 1 <= bits <= 60 && Both(s, bits) && s.cur == FirstChild(bits) && Top(s) && IsScan(scan)
    ensures Reload(Shelf(scan), s, "n").0 == s
  {
    hide Top, IsScan, FirstChild;
  }

  lemma BothInStep(s: State, bits: nat)
    requires 1 <= bits <= 64 && Both(s, bits)
    ensures InStep(s.entries) && !s.everStray && !s.everShared && s.mods == map[ROOT := [1], FirstChild(bits) := [0]]
  {
    hide FirstChild;
  }

  /** Whom calls meet afterwards, and where they run. */
  lemma AstrayMeans(t: State, bits: nat)
    requires 60 < bits <= 64 && Top(t) && Shape(t) && Pair(t, bits) && Astray(t, bits)
    ensures var r := FirstChild(bits);
            && Dfs(t.tree, t.mods, r) == [0] && Dfs(t.tree, t.mods, ROOT) == [2, 0]
            && !InStep(t.entries) && 2 in t.entries && t.entries[2] == Entry("n", PLAIN, r, ROOT, 1, None)
            && t.ctxs.Keys >= {1} && t.ctxs[1] == r && t.everStray && !t.everShared
            && t.mods == map[ROOT := [2], r := [0]]
  {
    hide FirstChild, Counted, CachesOk, DeniesOk, Settled, Core, Shape;
    assert SymOk(t, 2);
    PairWalks(t, bits);
  }

  lemma PairWalks(t: State, bits: nat)
    requires 1 <= bits <= 64 && Shape(t) && Pair(t, bits)
    ensures var r := FirstChild(bits);
            Dfs(t.tree, t.mods, r) == t.mods[r] && Dfs(t.tree, t.mods, ROOT) == t.mods[ROOT] + t.mods[r]
  {
    hide FirstChild;
    var r := FirstChild(bits);
    assert NodeOk(t.tree, ROOT) && NodeOk(t.tree, r);
    var cs := t.tree[ROOT].children;
    assert forall c :: c in cs ==> c == r;
    OnlyOne(cs, r);
    assert [r][1..] == [] && DfsAll(t.tree, t.mods, ROOT, []) == [] && DfsAll(t.tree, t.mods, r, []) == [];
    assert t.mods[r] + [] == t.mods[r];
  }

  lemma OnlyOne(cs: seq<RegionId>, r: RegionId)
    requires NoDup(cs) && r in cs && forall c :: c in cs ==> c == r
    ensures cs == [r]
  {
    IndexAt(cs, 0);
    IndexAt(cs, |cs| - 1);
    assert cs[0] in cs && cs[|cs| - 1] in cs;
  }

  // ---- a cascade that passes a module over ----

  /** An object whose install makes its region require claims, and loads "m". */
  const LOADER := Image(2, [], {}, true, None, Some([ARequire(Some(0)), ALoad("m")]))

  function Nest(bits: nat, scan: Scan): World {
    World(map["p" := LOADER, "m" := Claimant(bits)], (h, p, b) => Some(b), scan)
  }

  /** "p" is loaded, and with it "m", which claims a region; then "p" is unloaded. */
  function Nesting(bits: nat, scan: Scan): Prog {
    Then(DoLoad(Nest(bits, scan), "p"), Then(DoUnload(Nest(bits, scan), "p"), Done))
  }

  /** The loader is there alone, in a root that now requires claims. */
  ghost predicate LoaderOnly(s: State) {
    && Ready(s) && s.cur == ROOT && s.loading == Some(0) && s.nextEntry == 1
    && s.tree.Keys == {ROOT} && s.tree[ROOT].plen == 0 && s.gates[ROOT] == ClaimGate(Some(0), true)
    && s.entries == map[0 := Entry("p", LOADER, ROOT, ROOT, 1, None)]
    && s.registry == map[KeyAt("p", ROOT) := 0]
  }

  /** Its install up to the load. */
  lemma LoaderStarts(w: World, s: State)
    requires Ready(s) && s.cur == ROOT && s.loading == None && s.nextEntry == 0 && s.gates[ROOT] == NO_GATE
    requires s.tree.Keys == {ROOT} && s.tree[ROOT].plen == 0 && s.entries == map[] && s.registry == map[]
    requires "p" in w.images && w.images["p"] == LOADER
    ensures Decide(w, s, "p", LOADER) == Flat
    ensures var i := Started(w, s, "p", LOADER, Flat);
            Ready(i) && Ready(Require(i, Some(0))) && LoaderOnly(Require(i, Some(0)))
  {
    hide Decide, Admit, EntryOk, KeyOk, ModsOk, IsTree, NodeOk, Anc, Extends, MarkDirty, Prewarm, KeyAt;
    assert Decide(w, s, "p", LOADER) == Flat by { UngatedIsFlat(w, s, "p", LOADER); }
    StartedFacts(w, s, "p", LOADER, Flat);
    AdmitFacts(w, s, "p", LOADER, Flat);
    var i := Started(w, s, "p", LOADER, Flat);
    SettingFacts(i, ARequire(Some(0)));
  }

  lemma ScriptIs(w: World, i: State)
    requires Ready(i) && Ready(Require(i, Some(0)))
    ensures RunScript(w, i, [ARequire(Some(0)), ALoad("m")]) == Load(w, Require(i, Some(0)), "m").0
  {
    hide Load, Grows, Anc, Unopened, EntryOk, KeyOk, ModsOk, IsTree, NodeOk;
    var acts := [ARequire(Some(0)), ALoad("m")];
    assert acts[1..] == [ALoad("m")] && [ALoad("m")][1..] == [];
    var s1 := Setting(i, ARequire(Some(0)));
    var s2 := Load(w, s1, "m").0;
    assert RunScript(w, s2, []) == s2;
    assert RunScript(w, s1, [ALoad("m")]) == s2;
  }

  /** The loader and what it loaded. */
  ghost predicate Family(l: State, bits: nat)
    requires 1 <= bits <= 64
  {
    var r := FirstChild(bits);
    && Core(l) && l.entries == map[0 := Entry("p", LOADER, ROOT, ROOT, 1, None),
                                   1 := Entry("m", Claimant(bits), r, r, 1, Some(0))]
    && KeyAt("p", ROOT) in l.registry && l.registry[KeyAt("p", ROOT)] == 0
    && (1 in Tabled(l) <==> bits <= 60)
  }

  lemma NestGrants(bits: nat, scan: Scan, s: State)
    requires 1 <= bits <= 64 && LoaderOnly(s)
    ensures Decide(Nest(bits, scan), s, "m", Claimant(bits)) == Granted(FirstChild(bits), bits)
  {
    hide Core, FirstChild, AllocSlot;
    FirstSlot(bits);
  }

  lemma LoaderLoads(bits: nat, scan: Scan, s: State)
    requires 1 <= bits <= 64 && LoaderOnly(s)
    ensures Family(Load(Nest(bits, scan), s, "m").0, bits)
  {
    hide Load, Decide, Admit, Core, IsTree, NodeOk, Anc, Extends, AddLeaf, KeyAt, Tabled, FirstChild, KeyOf;
    var w, v := Nest(bits, scan), Granted(FirstChild(bits), bits);
    NestGrants(bits, scan, s);
    FirstSlot(bits);
    assert KeyAt("m", ROOT) != KeyAt("p", ROOT) by { OtherPaths(ROOT, ROOT); }
    assert KeyAt("m", v.id) != KeyAt("p", ROOT) by { OtherPaths(v.id, ROOT); }
    QuietLoad(w, s, "m");
    AdmitFacts(w, s, "m", Claimant(bits), v);
    RekeyKeepsIff(w, s, "m", Claimant(bits), v);
  }

  lemma OtherPaths(a: RegionId, b: RegionId)
    ensures KeyAt("m", a) != KeyAt("p", b)
  {}

  lemma NestLoad(bits: nat, scan: Scan)
    requires 1 <= bits <= 64 && Ready(INIT)
    ensures Family(Load(Nest(bits, scan), INIT, "p").0, bits) && Load(Nest(bits, scan), INIT, "p").0.cur == ROOT
  {
    hide Load, LoadNew, RunScript, Decide, Admit, Core, Started, Grows, Bind;
    var w := Nest(bits, scan);
    LoaderStarts(w, INIT);
    var i := Started(w, INIT, "p", LOADER, Flat);
    ScriptIs(w, i);
    LoaderLoads(bits, scan, Require(i, Some(0)));
    FreshLoad(w, INIT, "p");
    InstallIs(w, INIT, "p", LOADER);
    FamilyRestored(Load(w, Require(i, Some(0)), "m").0, bits);
    LoadContext(w, INIT, "p");
  }

  lemma FreshLoad(w: World, s: State, path: Path)
    requires Ready(s) && path in w.images && KeyAt(path, s.cur) !in s.registry && w.images[path].constructs == []
    ensures Load(w, s, path) == LoadNew(w, s, path, w.images[path])
  {
    hide Decide, Grows, LoadNew, Anc, EntryOk, KeyOk, ModsOk, IsTree, NodeOk;
    assert AregAll(s, []) == s;
  }

  lemma InstallIs(w: World, s: State, path: Path, image: Image)
    requires Ready(s) && path in w.images && KeyAt(path, s.cur) !in s.registry && image.install.Some?
    requires Decide(w, s, path, image) == Flat && Ready(Started(w, s, path, image, Flat))
    ensures LoadNew(w, s, path, image).0 ==
            Restore(RunScript(w, Started(w, s, path, image, Flat), image.install.value), s)
  {
    hide RunScript, Decide, Started, Grows, Bind, Admit, Withdraw, Core;
  }

  lemma FamilyRestored(j: State, bits: nat)
    requires 1 <= bits <= 64 && Family(j, bits) && Core(Restore(j, INIT))
    ensures Family(Restore(j, INIT), bits)
  {
    hide Core;
  }

  /** The unload of the loader. */
  lemma NestUnload(l: State, bits: nat, scan: Scan)
    requires 1 <= bits <= 64 && Family(l, bits) && IsScan(scan) && RegOk(l, 0)
    ensures UnloadEntry(scan, l, 0).entries.Keys == if bits > 60 then {1} else {}
    ensures Doomed(l.entries, 0, 0) && Doomed(l.entries, 0, 1)
  {
    hide UnloadEntry, Core, IsScan, RegOk, Tabled, FirstChild;
    var u := UnloadEntry(scan, l, 0);
    UnloadEffect(scan, l, 0, 0);
    UnloadEffect(scan, l, 0, 1);
    assert Doomed(Visible(l), 0, 0);
    assert Hit(Visible(l), 0, 1) <==> bits <= 60;
    forall m | m in u.entries ensures m == 0 || m == 1 { assert Survives(l, u, m); }
  }

  /**
   The child's last reference goes with its loader's, so it should go too. It does exactly when its claim has at
   most 60 bits; with more, the cascade does not meet it in the table, and it stays.
   */
  lemma CascadePassesOverIff(bits: nat, scan: Scan)
    requires 1 <= bits <= 64 && IsScan(scan)
    ensures Legal(Nesting(bits, scan)) && Legal(Then(DoLoad(Nest(bits, scan), "p"), Done)) && Top(INIT)
    ensures var l := Exec(INIT, Then(DoLoad(Nest(bits, scan), "p"), Done)).0.entries;
            && l.Keys == {0, 1} && l[1].path == "m" && l[1].parent == Some(0)
            && Doomed(l, 0, 0) && Doomed(l, 0, 1)
    ensures Exec(INIT, Nesting(bits, scan)).0.entries.Keys == if bits > 60 then {1} else {}
  {
    hide Exec, ExecCmd, Load, UnloadEntry, Top, IsScan, Core, Family, Doomed, Kept;
    var w := Nest(bits, scan);
    GatedTop();
    TopReady(INIT);
    NestLoad(bits, scan);
    LoadRuns(INIT, w, "p");
    var l := Load(w, INIT, "p").0;
    FamilyFacts(l, bits);
    DoneIs(l);
    ThenIs(INIT, DoLoad(w, "p"), Done);
    UnloadRuns(l, w, "p");
    NestUnload(l, bits, scan);
    DoneIs(ExecCmd(l, DoUnload(w, "p")).0);
    ThenIs(l, DoUnload(w, "p"), Done);
    ThenIs(INIT, DoLoad(w, "p"), Then(DoUnload(w, "p"), Done));
  }

  lemma FamilyFacts(l: State, bits: nat)
    requires 1 <= bits <= 64 && Family(l, bits)
    ensures l.entries.Keys == {0, 1} && l.entries[1].path == "m" && l.entries[1].parent == Some(0)
    ensures KeyAt("p", ROOT) in l.registry && l.registry[KeyAt("p", ROOT)] == 0 && RegOk(l, 0)
  {
    hide Core, FirstChild, Tabled;
  }

  lemma UnloadRuns(s: State, w: World, path: Path)
    requires Top(s) && IsScan(w.scan)
    ensures Core(s) && LegalCmd(DoUnload(w, path))
    ensures Top(Unload(w, s, path).0) && ExecCmd(s, DoUnload(w, path)) == (Unload(w, s, path).0, [])
  {
    hide Inv, Counted, LogOk, Kept, Unload, IsScan;
    TopShape(s);
    DoUnloadTop(w, s, path);
    KeptTop(s, Unload(w, s, path).0);
  }
}
