/**
 Programs that reach the limits: concrete inputs for which two live regions share their
 keys' digits, and for which a region's denies do not reach the regions below it.
 */
module Witnesses {
  import opened Wrappers
  import opened Bits
  import opened Lists
  import opened Symbols
  import opened Keys
  import opened RegionTree
  import opened RegionIds
  import opened XylemState
  import opened Loading
  import opened Unloading
  import opened Dispatch
  import opened Invariants
  import opened Steps
  import opened Coherence
  import opened Programs
  import opened Runs
  import opened Limits

  /** A shared object with a context and the hook "h"; it claims a region of this width and its install does nothing. */
  function Claimant(bits: nat): Image {
    Image(0, [], {"h"}, true, Some(bits), Some([]))
  }

  /** One such object under the path "m", and a claim handler that grants what is asked for. */
  function Host(bits: nat): World {
    World(map["m" := Claimant(bits)], (h, p, b) => Some(b), live => [])
  }

  /** The region requires claims and loads the module, which claims. */
  function Setup(bits: nat, rest: Prog): Prog {
    Then(DoRequire(Some(0)), Then(DoLoad(Host(bits), "m"), rest))
  }

  /** The root's first child of this width. */
  function FirstChild(bits: nat): RegionId
    requires bits <= 64
  {
    Pow2(64 - bits)
  }

  lemma FirstSlot(bits: nat)
    requires 1 <= bits <= 64
    ensures AllocSlot({ROOT}, ROOT, 0, bits) == FirstChild(bits)
    ensures 1 <= FirstChild(bits) < INVALID
    ensures FirstChild(bits) / 16 == 0 <==> bits > 60
  {
    var k := 64 - bits;
    Pow2Word();
    Pow2Mono(k, 63);
    assert Pow2(64) == 2 * Pow2(63);
    assert Shl(0, k) == 0 && Shl(1, k) == Pow2(k);
    assert Pow2(1) == 2 && Pow2(4) == 16 && Pow2(3) == 8;
    Pow2Mono(1, bits);
    if bits > 60 { Pow2Mono(k, 3); } else { Pow2Mono(4, k); }
    assert FirstFree({ROOT}, ROOT, bits, 1, SlotCount(bits, bits)) == Pow2(k);
  }

  /** The load of a module whose object registers no hooks and whose install does nothing is its admission. */
  lemma QuietLoad(w: World, s: State, path: Path)
    requires Ready(s) && path in w.images && w.images[path].constructs == [] && w.images[path].install == Some([])
    requires KeyAt(path, s.cur) !in s.registry && !Decide(w, s, path, w.images[path]).Refused?
    ensures Load(w, s, path) == (Admit(w, s, path, w.images[path], Decide(w, s, path, w.images[path])), OK)
  {
    hide Decide, Admit, Grows, Anc, EntryOk, KeyOk, ModsOk, IsTree, NodeOk;
    var image := w.images[path];
    var v := Decide(w, s, path, image);
    AdmitFacts(w, s, path, image, v);
    assert AregAll(s, []) == s;
    var i := Started(w, s, path, image, v);
    StartedFacts(w, s, path, image, v);
    assert RunScript(w, i, []) == i;
  }

  /**
   In a region without a gate, the load of a module that is not found there, registers no hooks
   and installs nothing: one more entry at the end of the region's list.
   */
  lemma FlatLoad(w: World, s: State, path: Path)
    requires Ready(s) && s.gates[s.cur] == NO_GATE && KeyAt(path, s.cur) !in s.registry
    requires path in w.images && w.images[path].constructs == [] && w.images[path].install == Some([])
    ensures Load(w, s, path).1 == OK
    ensures var l, n, image := Load(w, s, path).0, s.nextEntry, w.images[path];
            && Core(l) && l.tree == s.tree && l.gates == s.gates && l.nextEntry == n + 1
            && s.cur in s.mods && l.mods == s.mods[s.cur := s.mods[s.cur] + [n]]
            && l.entries == s.entries[n := Entry(path, image, s.cur, s.cur, 1, s.loading)]
            && l.registry == s.registry[KeyAt(path, s.cur) := n]
            && (l.everShared <==> s.everShared || InUse(s.entries, image.id)) && l.everStray == s.everStray
  {
    hide Load, Decide, Admit, EntryOk, KeyOk, ModsOk, IsTree, NodeOk, Anc, Extends, MarkDirty, Prewarm, KeyAt;
    var image := w.images[path];
    assert Decide(w, s, path, image) == Flat by { UngatedIsFlat(w, s, path, image); }
    QuietLoad(w, s, path);
    AdmitFacts(w, s, path, image, Flat);
    FlatRest(w, s, path, image);
  }

  lemma UngatedIsFlat(w: World, s: State, path: Path, image: Image)
    requires Shape(s) && s.gates[s.cur] == NO_GATE
    ensures Decide(w, s, path, image) == Flat
  {}

  /** What a flat admission does to gates and history. */
  lemma FlatRest(w: World, s: State, path: Path, image: Image)
    requires Ready(s) && Decide(w, s, path, image) == Flat
    ensures var a := Admit(w, s, path, image, Flat);
            && a.gates == s.gates && (a.everShared <==> s.everShared || InUse(s.entries, image.id))
            && a.everStray == s.everStray
  {
    hide Decide, MarkDirty, Prewarm, Core, IsTree, NodeOk;
  }

  /** What the region record of a claimed region starts with. */
  lemma AdmitLeaf(w: World, s: State, path: Path, image: Image, v: Verdict)
    requires Ready(s) && v.Granted? && v == Decide(w, s, path, image)
    ensures var a := Admit(w, s, path, image, v);
            && v.id in a.tree && a.denies == s.denies[v.id := NO_DENIES] && a.gates[v.id] == NO_GATE &&
              a.caches[v.id].hooks == []
            && (a.everShared <==> s.everShared || InUse(s.entries, image.id))
  {
    hide Decide, AddLeaf, Prewarm, EntryOk, KeyOk, ModsOk, IsTree, NodeOk, Extends, Shape, Core;
    AddLeafExtends(s.tree, s.cur, v.id, v.bits);
  }

  /** The module is alone, in its own region, which nothing has been done to. */
  ghost predicate Alone(s: State, bits: nat)
    requires 1 <= bits <= 64
  {
    var r := FirstChild(bits);
    && Shape(s) && s.cur == ROOT && s.curEntry == Some(ROOT)
    && r != ROOT && s.tree.Keys == {ROOT, r} && s.tree[r].parent == Some(ROOT) && s.tree[r].children == []
    && s.mods == map[ROOT := [], r := [0]]
    && s.entries == map[0 := Entry("m", Claimant(bits), r, r, 1, None)]
    && !s.everShared
    && s.denies == map[ROOT := NO_DENIES, r := NO_DENIES] && s.gates[r] == NO_GATE && s.caches[r].hooks == []
  }

  lemma GrantsFirst(bits: nat)
    requires 1 <= bits <= 64
    ensures Shape(Require(INIT, Some(0)))
    ensures Decide(Host(bits), Require(INIT, Some(0)), "m", Claimant(bits)) == Granted(FirstChild(bits), bits)
  {
    FirstSlot(bits);
    assert INIT.tree.Keys == {ROOT};
  }

  lemma GatedTop()
    ensures Top(INIT) && Top(Require(INIT, Some(0))) && Ready(Require(INIT, Some(0)))
  {
    hide Kept;
    InitTop();
    assert Setting(INIT, ARequire(Some(0))) == Require(INIT, Some(0));
    SettingTop(INIT, ARequire(Some(0)));
    KeptTop(INIT, Require(INIT, Some(0)));
  }

  lemma KeptTop(s: State, r: State)
    requires Kept(s, r)
    ensures Top(r) && Ready(r) && SameContext(s, r)
  {}

  lemma FirstAdmitted(bits: nat)
    requires 1 <= bits <= 64 && Ready(Require(INIT, Some(0)))
    ensures var s, v := Require(INIT, Some(0)), Granted(FirstChild(bits), bits);
            && v == Decide(Host(bits), s, "m", Claimant(bits))
            && var a := Admit(Host(bits), s, "m", Claimant(bits), v);
               Alone(a, bits) && a.registry == Put(map[], "m", ROOT, FirstChild(bits), 0) && a.nextEntry == 1 &&
                 a.hooks == []
  {
    hide Decide, Admit, Put, EntryOk, KeyOk, ModsOk, IsTree, NodeOk, Anc, Extends, MarkDirty, Prewarm;
    GrantsFirst(bits);
    FirstSlot(bits);
    var s, w, image, v := Require(INIT, Some(0)), Host(bits), Claimant(bits), Granted(FirstChild(bits), bits);
    AdmitFacts(w, s, "m", image, v);
    AdmitLeaf(w, s, "m", image, v);
  }

  /** The state after Setup. */
  function Start(bits: nat): State
    requires Ready(Require(INIT, Some(0)))
  {
    Load(Host(bits), Require(INIT, Some(0)), "m").0
  }

  lemma SetupIs(bits: nat, rest: Prog)
    requires Legal(rest)
    ensures Legal(Setup(bits, rest)) && Top(INIT) && Ready(Require(INIT, Some(0)))
    ensures Top(Start(bits)) && Exec(INIT, Setup(bits, rest)) == Exec(Start(bits), rest)
  {
    hide Exec, ExecCmd, Top, Load, Require, Ready, Core, Kept;
    GatedTop();
    var s := Require(INIT, Some(0));
    var p := Then(DoLoad(Host(bits), "m"), rest);
    SettingsRun(INIT, Some(0));
    LoadRuns(s, Host(bits), "m");
    ThenIs(s, DoLoad(Host(bits), "m"), rest);
    ThenIs(INIT, DoRequire(Some(0)), p);
    assert Setup(bits, rest) == Then(DoRequire(Some(0)), p);
    NoneBefore(Exec(Start(bits), rest).1);
  }

  lemma NoneBefore(log: Log)
    ensures [] + log == log
  {}

  lemma SettingsRun(s: State, h: Option<HandlerId>)
    requires Top(s)
    ensures ExecCmd(s, DoRequire(h)) == (Require(s, h), [])
  {
    hide Top, Require;
  }

  lemma LoadRuns(s: State, w: World, path: Path)
    requires Top(s)
    ensures Ready(s) && Top(Load(w, s, path).0) && ExecCmd(s, DoLoad(w, path)) == (Load(w, s, path).0, [])
  {
    hide Inv, Counted, Load, LogOk, Kept;
    TopReady(s);
    DoLoadTop(w, s, path);
    KeptTop(s, Load(w, s, path).0);
  }

  // ---- commands one after the other ----

  lemma DoneIs(s: State)
    requires Top(s)
    ensures Exec(s, Done) == (s, [])
  {
    hide Top, LogOk;
  }

  lemma ThenIs(s: State, c: Cmd, rest: Prog)
    requires Top(s) && LegalCmd(c) && Legal(rest)
    ensures Legal(Then(c, rest)) && Top(ExecCmd(s, c).0)
    ensures var a := ExecCmd(s, c);
            Exec(s, Then(c, rest)) == (Exec(a.0, rest).0, a.1 + Exec(a.0, rest).1)
  {
    hide Top, LegalCmd, LogOk, ExecCmd, Kept;
    KeptTop(s, ExecCmd(s, c).0);
  }

  lemma SetupRuns(bits: nat)
    requires 1 <= bits <= 64
    ensures Ready(Require(INIT, Some(0)))
    ensures var q := Start(bits);
            && Top(q) && Alone(q, bits)
            && q.registry == Put(map[], "m", ROOT, FirstChild(bits), 0) && q.nextEntry == 1 && q.hooks == []
  {
    hide Exec, Load, Decide, Admit, Put, Top, Core, Alone, Kept;
    GatedTop();
    SetupIs(bits, Done);
    FirstAdmitted(bits);
    QuietLoad(Host(bits), Require(INIT, Some(0)), "m");
  }

  // ---- a claim past 60 bits ----

  /** The module that Setup leaves live is in the table exactly when its region has at most 60 bits. */
  lemma SetupTabled(bits: nat, q: State)
    requires 1 <= bits <= 64 && Alone(q, bits) && q.registry == Put(map[], "m", ROOT, FirstChild(bits), 0)
    ensures KeyAt("m", FirstChild(bits)) in q.registry <==> bits <= 60
    ensures bits <= 60 ==> q.registry[KeyAt("m", FirstChild(bits))] == 0
    ensures 0 in Tabled(q) <==> bits <= 60
  {
    hide Alone;
    FirstSlot(bits);
    var key := KeyAt("m", FirstChild(bits));
    assert q.registry == if bits <= 60 then map[key := 0] else map[];
    if bits <= 60 { assert key in q.registry.Keys && q.registry[key] == 0; }
  }

  /**
   A claim of more than 60 bits loses the module, because its region and the root then share
   the bytes of its key: it is live and linked in its region, but the table does not hold it,
   an unload there finds nothing, a new hook is not looked up in it, and a second load there
   makes a second live module of the same path and region, where a narrower claim is found again.
   */
  lemma ClaimIsLostIff(bits: nat, w: World)
    requires 1 <= bits <= 64 && IsScan(w.scan)
    ensures Legal(Setup(bits, Done)) && Top(INIT)
    ensures var q, r := Exec(INIT, Setup(bits, Done)).0, FirstChild(bits);
            && r in q.tree && Ready(At(q, r))
            && r in q.mods && 0 in q.mods[r] && 0 in q.entries && q.entries[0].path == "m" && q.entries[0].region == r
            && (Measured(ModKey("m", r)) == Measured(ModKey("m", ROOT)) <==> bits > 60)
            && (0 !in Tabled(q) <==> bits > 60)
            && (Unload(w, At(q, r), "m").1 == NOTFOUND <==> bits > 60)
            && q.hooks == [] && 0 in Areg(q, "h").syms && (0 !in Areg(q, "h").syms[0].impl <==> bits > 60)
            && var l := Load(Host(bits), At(q, r), "m").0.entries;
               if bits > 60 then l.Keys == {0, 1} && l[1].path == "m" && l[1].region == r && l[0] == q.entries[0]
               else l == q.entries[0 := q.entries[0].(refcount := 2)]
  {
    hide Exec, Load, Top, UnloadEntry, Put, IsScan, Setup, Start;
    SetupRuns(bits);
    SetupIs(bits, Done);
    var q, r := Start(bits), FirstChild(bits);
    DoneIs(q);
    SetupTabled(bits, q);
    FirstSlot(bits);
    KeyIsBytes("m", r, "m", ROOT);
    InRegion(q, r);
    SecondLoad(bits, At(q, r));
    MintReaches(bits, q);
  }

  /** A hook the module exports is marked for it at once if it is in the table. */
  lemma MintReaches(bits: nat, q: State)
    requires 1 <= bits <= 64 && Top(q) && Alone(q, bits) && q.hooks == []
    ensures 0 in Areg(q, "h").syms && (0 in Areg(q, "h").syms[0].impl <==> 0 in Tabled(q))
  {
    hide Tabled, Counted, CachesOk, DeniesOk, Settled, EntryOk, KeyOk, ModsOk, IsTree, NodeOk;
    var x := Claimant(bits).Syms();
    assert SymOk(q, 0);
    MintSound(q.syms[0], x, [], "h");
    PrewarmSound(q.syms[0], x, ["h"]);
    assert q.hooks + ["h"] == ["h"];
  }

  lemma InRegion(s: State, r: RegionId)
    requires Top(s) && r in s.tree
    ensures Top(At(s, r)) && Ready(At(s, r))
  {
    hide Inv, Counted;
    ContextTop(s, r, Some(r));
    TopReady(At(s, r));
  }

  lemma SecondLoad(bits: nat, s: State)
    requires 1 <= bits <= 64 && Ready(s) && s.cur == FirstChild(bits) && s.gates[s.cur] == NO_GATE && s.nextEntry == 1
    requires s.entries == map[0 := Entry("m", Claimant(bits), s.cur, s.cur, 1, None)]
    requires KeyAt("m", s.cur) in s.registry ==> s.registry[KeyAt("m", s.cur)] == 0
    ensures var l := Load(Host(bits), s, "m").0.entries;
            if KeyAt("m", s.cur) !in s.registry
            then l.Keys == {0, 1} && l[1].path == "m" && l[1].region == s.cur && l[0] == s.entries[0]
            else l == s.entries[0 := s.entries[0].(refcount := 2)]
  {
    hide Load, Ready, Core, KeyAt, FirstChild, IsTree, NodeOk, InUse, Shape;
    if KeyAt("m", s.cur) !in s.registry { FlatLoad(Host(bits), s, "m"); }
    else { LoadAgain(Host(bits), s, "m"); }
  }

  /** Loading what is registered takes one reference more. */
  lemma LoadAgain(w: World, s: State, path: Path)
    requires Ready(s) && path in w.images && w.images[path].constructs == [] && KeyAt(path, s.cur) in s.registry
    ensures s.registry[KeyAt(path, s.cur)] in s.entries
    ensures Load(w, s, path) == (Retain(s, s.registry[KeyAt(path, s.cur)]), OK)
  {
    hide LoadNew, Grows, EntryOk, ModsOk, IsTree, NodeOk;
    assert AregAll(s, []) == s;
    RegisteredLive(s, KeyAt(path, s.cur));
  }

  // ---- denies above a region ----

  const CALL: Prog := Then(DoCall("h", Silent), Done)

  /** The hook is known, and the module alone in its region. */
  ghost predicate Scene(s: State, bits: nat)
    requires 1 <= bits <= 64
  {
    var r := FirstChild(bits);
    && Top(s) && s.cur == ROOT && s.curEntry == Some(ROOT) && s.hooks == ["h"] && !s.everShared
    && r != ROOT && r in s.tree && s.tree[r].parent == Some(ROOT) && s.tree[r].children == []
    && r in s.mods && s.mods[r] == [0] && s.entries == map[0 := Entry("m", Claimant(bits), r, r, 1, None)]
  }

  lemma SceneWalk(s: State, bits: nat)
    requires 1 <= bits <= 64 && Scene(s, bits)
    ensures var r := FirstChild(bits);
            Dfs(s.tree, s.mods, r) == [0] && Chain(s.tree, r) == [ROOT, r] && !Anc(s.tree, r, ROOT)
  {
    hide Inv, Counted;
    var r := FirstChild(bits);
    assert NodeOk(s.tree, r) && NodeOk(s.tree, ROOT);
  }

  /**
   A call of the hook in the region runs the module, unless the denies consulted refuse it or
   the filter leaves it out.
   */
  lemma SceneCall(s: State, bits: nat)
    requires 1 <= bits <= 64 && Scene(s, bits)
    requires var r := FirstChild(bits); !HookDenied(s.denies, DenyChain(s, r), "h") && "m" !in Filter(s, r, "h")
    ensures var r := FirstChild(bits); CallEvent(At(s, r), "h") == Event(At(s, r), "h", OK, [Slot(0, Found(0, "h"))])
  {
    hide HookDenied, DenyChain, Filter, Dfs, CachesOk, DeniesOk, SymsOk, Settled, Counted, EntryOk, KeyOk, ModsOk,
         Prepare, Chain;
    var r := FirstChild(bits);
    SceneWalk(s, bits);
    CallCode(s, r, "h");
    ContextInv(s, r, "h");
    CallFiltered(At(s, r), "h");
    OneListens(s.entries, Filter(s, r, "h"), bits);
  }

  lemma OneListens(es: Entries, banned: set<Path>, bits: nat)
    requires 1 <= bits <= 64 && "m" !in banned
    requires var r := FirstChild(bits); es == map[0 := Entry("m", Claimant(bits), r, r, 1, None)]
    ensures Listening(es, banned, "h", [0]) == [Slot(0, Found(0, "h"))]
  {
    assert Listening(es, banned, "h", []) == [];
  }

  /** A call in the scope of a region: its event, and what it leaves. */
  lemma ScopedCall(s: State, r: RegionId)
    requires Top(s) && r in s.tree
    ensures LegalCmd(DoWith(r, CALL)) && Top(At(s, r))
    ensures ExecCmd(s, DoWith(r, CALL)) ==
              (Prepare(At(s, r), "h").0.(cur := s.cur, curEntry := s.curEntry), [CallEvent(At(s, r), "h")])
  {
    hide Top, Prepare, LogOk, CallEvent, Kept, ExecCmd, Exec;
    ContextTop(s, r, Some(r));
    TopShape(At(s, r));
    CallRuns(At(s, r));
    var q := Prepare(At(s, r), "h").0;
    ThenIs(At(s, r), DoCall("h", Silent), Done);
    DoneIs(q);
    assert [CallEvent(At(s, r), "h")] + [] == [CallEvent(At(s, r), "h")];
    ScopeRuns(s, r, CALL);
  }

  lemma ScopeRuns(s: State, r: RegionId, body: Prog)
    requires Top(s) && r in s.tree && Legal(body) && Top(At(s, r))
    ensures ExecCmd(s, DoWith(r, body)) == (Exec(At(s, r), body).0.(cur := s.cur, curEntry := s.curEntry),
            Exec(At(s, r), body).1)
  {
    hide Top, LogOk, Kept, Exec;
  }

  lemma CallRuns(s: State)
    requires Top(s)
    ensures Top(Prepare(s, "h").0) && ExecCmd(s, DoCall("h", Silent)) == (Prepare(s, "h").0, [CallEvent(s, "h")])
  {
    hide Inv, Counted, LogOk, CallEvent, Kept, Prepare;
    TopShape(s);
    PrepareTop(s, "h");
    SilentDelivers(Prepare(s, "h").0, Prepare(s, "h").2, s.cur);
    assert [CallEvent(s, "h")] + [] == [CallEvent(s, "h")];
  }

  /** Callbacks that do nothing change nothing. */
  lemma {:induction false} SilentDelivers(s: State, slots: seq<Slot>, home: RegionId)
    requires Top(s) && s.cur == home
    ensures Deliver(s, slots, Silent, home) == (s, [])
  {
    hide Top, LogOk, Kept, Enter, Exec;
    if slots != [] { SilentDelivers(s, slots[1..], home); }
  }

  lemma AregRuns(s: State)
    requires Top(s)
    ensures Top(Areg(s, "h")) && ExecCmd(s, DoAreg("h")) == (Areg(s, "h"), [])
  {
    hide Inv, Counted, Areg, LogOk, Kept;
    TopShape(s);
    AregTop(s, "h");
    KeptTop(s, Areg(s, "h"));
  }

  lemma DenyRuns(s: State, name: Hook)
    requires Top(s)
    ensures Top(DenyHook(s, name)) && SameContext(s, DenyHook(s, name)) &&
            ExecCmd(s, DoDenyHook(name)) == (DenyHook(s, name), [])
  {
    hide Inv, Counted, DenyHook, LogOk, Kept;
    TopShape(s);
    SettingTop(s, ADenyHook(name));
    KeptTop(s, DenyHook(s, name));
  }

  lemma BanRuns(s: State, banned: Path)
    requires Top(s)
    ensures Top(DenyModule(s, banned)) && SameContext(s, DenyModule(s, banned))
    ensures ExecCmd(s, DoDenyModule(banned)) == (DenyModule(s, banned), [])
  {
    hide Inv, Counted, DenyModule, LogOk, Kept;
    TopShape(s);
    SettingTop(s, ADenyModule(banned));
    KeptTop(s, DenyModule(s, banned));
  }

  lemma SceneSet(bits: nat)
    requires 1 <= bits <= 64 && Ready(Require(INIT, Some(0)))
    ensures var s, r := Areg(Start(bits), "h"), FirstChild(bits);
            Scene(s, bits) && s.denies == map[ROOT := NO_DENIES, r := NO_DENIES] && s.caches[r].hooks == []
  {
    hide Start, Top, WarmAll, Put;
    SetupRuns(bits);
    AregRuns(Start(bits));
  }

  /** Modules, tree and hooks as before. */
  lemma DenyScene(s: State, q: State, bits: nat)
    requires 1 <= bits <= 64 && Scene(s, bits) && Top(q) && q.cur == ROOT && q.curEntry == Some(ROOT)
    requires q.tree == s.tree && q.mods == s.mods && q.entries == s.entries && q.hooks == s.hooks &&
             q.everShared == s.everShared
    ensures Scene(q, bits)
  {
    hide Top;
  }

  /** A deny at the root flags and bumps the root alone. */
  lemma RootDenies(s: State, q: State, bits: nat, d: Denies)
    requires 1 <= bits <= 64 && Scene(s, bits)
    requires q.denies == FlagDeny(s.tree, s.denies[ROOT := d], ROOT) && q.caches == BumpGens(s.tree, s.caches, ROOT)
    ensures var r := FirstChild(bits);
            && ROOT in q.denies && q.denies[ROOT] == d.(flag := true)
            && r in q.denies && q.denies[r] == s.denies[r] && r in q.caches && q.caches[r] == s.caches[r]
  {
    hide Inv, Counted;
    TopShape(s);
    SceneWalk(s, bits);
    AncSelf(s.tree, ROOT);
  }

  /** The hook and the module are denied at the root, and the hook is called below and there. */
  function Unheard(bits: nat): Prog
    requires bits <= 64
  {
    Setup(bits, Then(DoAreg("h"), Then(DoDenyHook("h"), Then(DoDenyModule("m"),
      Then(DoWith(FirstChild(bits), CALL), CALL)))))
  }

  /** The state in which Unheard makes its calls. */
  ghost predicate Denied(s: State, bits: nat)
    requires 1 <= bits <= 64
  {
    var r := FirstChild(bits);
    && Scene(s, bits) && ROOT in s.denies && r in s.denies && r in s.caches
    && s.denies[ROOT] == Denies({"h"}, {"m"}, true) && s.denies[r] == NO_DENIES && s.caches[r].hooks == []
  }

  lemma UnheardUpToCalls(bits: nat) returns (s: State)
    requires 1 <= bits <= 64
    ensures Denied(s, bits) && Legal(Unheard(bits)) && Top(INIT)
    ensures Top(s) && Legal(Then(DoWith(FirstChild(bits), CALL), CALL))
    ensures Exec(INIT, Unheard(bits)) == Exec(s, Then(DoWith(FirstChild(bits), CALL), CALL))
  {
    hide Exec, ExecCmd, Areg, DenyHook, DenyModule, Start, Top, Kept;
    var calls := Then(DoWith(FirstChild(bits), CALL), CALL);
    assert Legal(CALL) && LegalCmd(DoDenyModule("m")) && LegalCmd(DoDenyHook("h"));
    assert Legal(calls);
    assert Legal(Then(DoDenyModule("m"), calls));
    GatedTop();
    SetupIs(bits, Then(DoAreg("h"), Then(DoDenyHook("h"), Then(DoDenyModule("m"), calls))));
    TopShape(Start(bits));
    SceneSet(bits);
    AregRuns(Start(bits));
    var s1 := Areg(Start(bits), "h");
    TopShape(s1);
    ThenIs(Start(bits), DoAreg("h"), Then(DoDenyHook("h"), Then(DoDenyModule("m"), calls)));
    DenyRuns(s1, "h");
    var s2 := DenyHook(s1, "h");
    TopShape(s2);
    ThenIs(s1, DoDenyHook("h"), Then(DoDenyModule("m"), calls));
    s := DenyModule(s2, "m");
    BanRuns(s2, "m");
    ThenIs(s2, DoDenyModule("m"), calls);
    NoneBefore(Exec(s, calls).1);
    BothDenied(s1, bits);
  }

  lemma BothDenied(s: State, bits: nat)
    requires 1 <= bits <= 64 && Scene(s, bits) && Shape(s) && Top(DenyHook(s, "h")) &&
             Top(DenyModule(DenyHook(s, "h"), "m"))
    requires var r := FirstChild(bits); s.denies == map[ROOT := NO_DENIES, r := NO_DENIES] && s.caches[r].hooks == []
    ensures Denied(DenyModule(DenyHook(s, "h"), "m"), bits)
  {
    hide Top, BumpGens, FlagDeny;
    var a := DenyHook(s, "h");
    var b := DenyModule(a, "m");
    assert NO_DENIES.hooks + {"h"} == {"h"};
    DenyScene(s, a, bits);
    RootDenies(s, a, bits, Denies({"h"}, {}, false));
    DenyScene(a, b, bits);
    var none: set<Path> := {};
    assert none + {"m"} == {"m"};
    RootDenies(a, b, bits, Denies({"h"}, {"m"}, true));
  }

  /**
   A deny is documented to cover the regions below. Here both the hook and the module are
   denied at the root, and the region below, where no deny was ever made, still calls the
   module through the hook, while the same call at the root is refused.
   */
  lemma DenyUnheard(bits: nat)
    requires 1 <= bits <= 64
    ensures Legal(Unheard(bits)) && Top(INIT)
    ensures var log, r := Exec(INIT, Unheard(bits)).1, FirstChild(bits);
            && |log| == 2
            && log[0].at.cur == r && log[0].code == OK && log[0].ran == [Slot(0, Found(0, "h"))]
            && r in log[0].at.tree && HookDenied(log[0].at.denies, Chain(log[0].at.tree, r), "h")
            && "m" in BannedBy(log[0].at.denies, Chain(log[0].at.tree, r))
            && log[1].at.cur == ROOT && log[1].code == EPERM && log[1].ran == []
  {
    hide Exec, ExecCmd, Unheard, Top, CallEvent, Prepare;
    var s := UnheardUpToCalls(bits);
    var r := FirstChild(bits);
    TopShape(s);
    ScopedCall(s, r);
    ThenIs(s, DoWith(r, CALL), CALL);
    var q := ExecCmd(s, DoWith(r, CALL)).0;
    TopShape(At(s, r));
    TopShape(q);
    CallRuns(q);
    ThenIs(q, DoCall("h", Silent), Done);
    DoneIs(Prepare(q, "h").0);
    UnheardCalls(s, bits);
    UnheardRefusal(s, q, bits);
    assert Exec(INIT, Unheard(bits)).1 == [CallEvent(At(s, r), "h")] + ([CallEvent(q, "h")] + []);
  }

  lemma UnheardCalls(s: State, bits: nat)
    requires 1 <= bits <= 64 && Denied(s, bits) && Shape(s)
    ensures var r := FirstChild(bits);
            && Shape(At(s, r)) && CallEvent(At(s, r), "h") == Event(At(s, r), "h", OK, [Slot(0, Found(0, "h"))])
            && HookDenied(s.denies, Chain(s.tree, r), "h") && "m" in BannedBy(s.denies, Chain(s.tree, r))
  {
    hide Top, CallEvent;
    SceneWalk(s, bits);
    SceneCall(s, bits);
  }

  lemma UnheardRefusal(s: State, q: State, bits: nat)
    requires 1 <= bits <= 64 && Denied(s, bits) && Shape(q) && q.cur == ROOT && q.curEntry == Some(ROOT)
    requires q.denies == s.denies && q.hooks == s.hooks && q.tree == s.tree
    ensures CallEvent(q, "h").code == EPERM && CallEvent(q, "h").ran == [] && CallEvent(q, "h").at == q
  {
    hide Top, Prepare;
    assert At(q, ROOT) == q;
    CallCode(q, ROOT, "h");
    assert NodeOk(q.tree, ROOT);
    assert Chain(q.tree, ROOT) == [ROOT];
  }

  /** The region denies some hook and calls, the module is denied at the root, and the region calls again. */
  function Overtaken(bits: nat): Prog
    requires bits <= 64
  {
    var r := FirstChild(bits);
    Setup(bits, Then(DoAreg("h"), Then(DoWith(r, Then(DoDenyHook("x"), CALL)),
      Then(DoDenyModule("m"), Then(DoWith(r, CALL), Done)))))
  }

  /** The region has denied some other hook, so it is flagged, and the root has denied the modules in `banned`. */
  ghost predicate Flagged(s: State, bits: nat, banned: set<Path>)
    requires 1 <= bits <= 64
  {
    var r := FirstChild(bits);
    && Scene(s, bits) && s.denies.Keys == {ROOT, r} && r in s.caches
    && s.denies[ROOT] == Denies({}, banned, true) && s.denies[r] == Denies({"x"}, {}, true)
  }

  /** The region's vector of the hook is current and left nothing out. */
  ghost predicate Warm(s: State, r: RegionId) {
    r in s.caches && |s.caches[r].hooks| > 0 && s.caches[r].hooks[0].gen == s.caches[r].gen &&
      "m" !in s.caches[r].hooks[0].filter
  }

  lemma FlaggedCall(s: State, bits: nat, banned: set<Path>)
    requires 1 <= bits <= 64 && Flagged(s, bits, banned) && Shape(s)
    requires var r := FirstChild(bits); Warm(s, r) || (r in s.caches && s.caches[r].hooks == [] && "m" !in banned)
    ensures var r := FirstChild(bits);
            && r in s.tree && r in s.denies && s.denies[r].flag && "m" !in Filter(s, r, "h")
            && CallEvent(At(s, r), "h") == Event(At(s, r), "h", OK, [Slot(0, Found(0, "h"))])
            && ("m" in banned ==> "m" in BannedBy(s.denies, DenyChain(s, r)))
  {
    hide Top, CallEvent;
    SceneWalk(s, bits);
    SceneCall(s, bits);
  }

  /** A call leaves its vector current, with the filter it used. */
  lemma CallWarms(s: State, bits: nat)
    requires 1 <= bits <= 64 && Top(s) && Shape(s) && CallerRegion(s) == FirstChild(bits) && s.hooks == ["h"]
    requires Prepare(s, "h").1 == OK && "m" !in Filter(s, FirstChild(bits), "h")
    ensures Warm(Prepare(s, "h").0, FirstChild(bits))
  {
    hide Refresh, HookDenied, DenyChain, BannedBy, Gather, Dfs, SlotsOk, DeniesOk, SymsOk, Settled, Counted, EntryOk,
         KeyOk, ModsOk, IsTree, NodeOk;
    var r := FirstChild(bits);
    assert CacheOk(s, r);
    assert IndexOf(s.hooks, "h") == 0;
    RefreshRecord(s, r, 0);
  }

  /** A deny in the region itself. */
  lemma ChildDenies(s: State, bits: nat)
    requires 1 <= bits <= 64 && Scene(s, bits) && Shape(s) && Shape(At(s, FirstChild(bits)))
    requires var r := FirstChild(bits); s.denies == map[ROOT := NO_DENIES, r := NO_DENIES] && s.caches[r].hooks == []
    requires Top(DenyHook(At(s, FirstChild(bits)), "x").(cur := ROOT, curEntry := Some(ROOT)))
    ensures var r := FirstChild(bits);
            var q := DenyHook(At(s, r), "x").(cur := ROOT, curEntry := Some(ROOT));
            Flagged(q, bits, {}) && q.caches[r].hooks == []
  {
    hide Top;
    var r := FirstChild(bits);
    SceneWalk(s, bits);
    assert NO_DENIES.hooks + {"x"} == {"x"};
    assert Anc(s.tree, r, r) && Anc(s.tree, ROOT, r);
    DenyScene(s, DenyHook(At(s, r), "x").(cur := ROOT, curEntry := Some(ROOT)), bits);
  }

  /** The root denies the module: the region's vector stays as it is. */
  lemma RootBans(s: State, bits: nat)
    requires 1 <= bits <= 64 && Flagged(s, bits, {}) && Shape(s) && Warm(s, FirstChild(bits)) && Top(DenyModule(s, "m"))
    ensures Flagged(DenyModule(s, "m"), bits, {"m"}) && Warm(DenyModule(s, "m"), FirstChild(bits))
  {
    hide Top, BumpGens, FlagDeny;
    var q := DenyModule(s, "m");
    var none: set<Path> := {};
    assert none + {"m"} == {"m"};
    DenyScene(s, q, bits);
    RootDenies(s, q, bits, Denies({}, {"m"}, true));
  }

  lemma OvertakenUpToBan(bits: nat) returns (h: State, s: State)
    requires 1 <= bits <= 64
    ensures Flagged(h, bits, {}) && Shape(h) && h.caches[FirstChild(bits)].hooks == [] && Shape(At(h, FirstChild(bits)))
    ensures Flagged(s, bits, {}) && Warm(s, FirstChild(bits))
    ensures Legal(Overtaken(bits)) && Top(INIT)
    ensures var rest := Then(DoDenyModule("m"), Then(DoWith(FirstChild(bits), CALL), Done));
            Legal(rest) && Exec(INIT, Overtaken(bits)).1 == [CallEvent(At(h, FirstChild(bits)), "h")] + Exec(s, rest).1
  {
    hide Exec, ExecCmd, Areg, DenyHook, DenyModule, Start, Top, Kept, CallEvent, Prepare, Filter, Flagged, Warm;
    var r := FirstChild(bits);
    var rest := Then(DoDenyModule("m"), Then(DoWith(r, CALL), Done));
    var body := Then(DoDenyHook("x"), CALL);
    assert Legal(CALL) && LegalCmd(DoDenyModule("m")) && LegalCmd(DoDenyHook("x"));
    assert LegalCmd(DoWith(r, CALL)) && Legal(body) && LegalCmd(DoWith(r, body));
    assert Legal(rest);
    GatedTop();
    SetupIs(bits, Then(DoAreg("h"), Then(DoWith(r, body), rest)));
    TopShape(Start(bits));
    SceneSet(bits);
    AregRuns(Start(bits));
    var s1 := Areg(Start(bits), "h");
    ThenIs(Start(bits), DoAreg("h"), Then(DoWith(r, body), rest));
    h, s := FlaggedScope(s1, bits);
    ThenIs(s1, DoWith(r, body), rest);
    NoneBefore(Exec(s1, Then(DoWith(r, body), rest)).1);
  }

  /** In its scope, the region denies another hook and calls. */
  lemma FlaggedScope(s: State, bits: nat) returns (h: State, q: State)
    requires 1 <= bits <= 64 && Scene(s, bits)
    requires var r := FirstChild(bits);
             s.denies == map[ROOT := NO_DENIES, r := NO_DENIES] && r in s.caches && s.caches[r].hooks == []
    ensures Flagged(h, bits, {}) && Shape(h) && h.caches[FirstChild(bits)].hooks == [] && Shape(At(h, FirstChild(bits)))
    ensures Flagged(q, bits, {}) && Warm(q, FirstChild(bits))
    ensures var c := DoWith(FirstChild(bits), Then(DoDenyHook("x"), CALL));
            LegalCmd(c) && ExecCmd(s, c) == (q, [CallEvent(At(h, FirstChild(bits)), "h")])
  {
    hide Exec, ExecCmd, DenyHook, Top, Kept, CallEvent, Prepare, Filter, Warm, Flagged;
    var r := FirstChild(bits);
    assert Legal(CALL) && LegalCmd(DoDenyHook("x"));
    TopShape(s);
    ContextTop(s, r, Some(r));
    TopShape(At(s, r));
    var i := DenyHook(At(s, r), "x");
    DenyRuns(At(s, r), "x");
    ThenIs(At(s, r), DoDenyHook("x"), CALL);
    TopShape(i);
    CallRuns(i);
    ThenIs(i, DoCall("h", Silent), Done);
    DoneIs(Prepare(i, "h").0);
    ScopeRuns(s, r, Then(DoDenyHook("x"), CALL));
    h := i.(cur := ROOT, curEntry := Some(ROOT));
    q := Prepare(i, "h").0.(cur := ROOT, curEntry := Some(ROOT));
    assert [] + ([CallEvent(i, "h")] + []) == [CallEvent(i, "h")];
    ScopeFacts(s, bits, i, h, q);
  }

  lemma ScopeFacts(s: State, bits: nat, i: State, h: State, q: State)
    requires 1 <= bits <= 64 && Scene(s, bits) && Shape(s) && Shape(At(s, FirstChild(bits))) && Top(i) && Shape(i)
    requires var r := FirstChild(bits); s.denies == map[ROOT := NO_DENIES, r := NO_DENIES] && s.caches[r].hooks == []
    requires i == DenyHook(At(s, FirstChild(bits)), "x") && SameContext(At(s, FirstChild(bits)), i) &&
             Top(Prepare(i, "h").0)
    requires h == i.(cur := ROOT, curEntry := Some(ROOT)) && q ==
             Prepare(i, "h").0.(cur := ROOT, curEntry := Some(ROOT))
    ensures Flagged(h, bits, {}) && Shape(h) && h.caches[FirstChild(bits)].hooks == [] && i == At(h, FirstChild(bits))
    ensures Flagged(q, bits, {}) && Warm(q, FirstChild(bits))
  {
    hide DenyHook, Prepare, Filter, CallEvent, Inv, Counted, FirstChild;
    var r := FirstChild(bits);
    ContextTop(i, ROOT, Some(ROOT));
    ChildDenies(s, bits);
    TopShape(h);
    ContextInv(h, r, "h");
    FlaggedCall(h, bits, {});
    CallCodeIs(i);
    CallWarms(i, bits);
    ContextTop(Prepare(i, "h").0, ROOT, Some(ROOT));
    DenyScene(h, q, bits);
  }

  lemma CallCodeIs(s: State)
    requires Shape(s) && CallEvent(s, "h").code == OK
    ensures Prepare(s, "h").1 == OK
  {
    hide Prepare;
  }

  /**
   The region is flagged, so its calls consult all regions above, and its vector is current.
   The module is then denied at the root, and the region's next call runs it all the same.
   */
  lemma DenyOvertaken(bits: nat)
    requires 1 <= bits <= 64
    ensures Legal(Overtaken(bits)) && Top(INIT)
    ensures var log, r := Exec(INIT, Overtaken(bits)).1, FirstChild(bits);
            && |log| == 2
            && (forall i :: 0 <= i < 2 ==>
              log[i].at.cur == r && log[i].code == OK && log[i].ran == [Slot(0, Found(0, "h"))])
            && Shape(log[1].at) && r in log[1].at.tree && log[1].at.denies[r].flag
            && "m" in BannedBy(log[1].at.denies, DenyChain(log[1].at, r))
  {
    hide Exec, ExecCmd, Overtaken, Top, CallEvent, Prepare, DenyChain, BannedBy, DenyModule, Flagged, Warm, Kept,
         Filter, LogOk, FirstChild;
    var r := FirstChild(bits);
    var h, s := OvertakenUpToBan(bits);
    FlaggedCall(h, bits, {});
    FlaggedTop(s, bits, {});
    BanRuns(s, "m");
    var q := DenyModule(s, "m");
    RootBans(s, bits);
    TopShape(q);
    FlaggedCall(q, bits, {"m"});
    ScopedCall(q, r);
    var z := ExecCmd(q, DoWith(r, CALL)).0;
    ThenIs(q, DoWith(r, CALL), Done);
    ThenIs(s, DoDenyModule("m"), Then(DoWith(r, CALL), Done));
    DoneIs(z);
    assert Exec(INIT, Overtaken(bits)).1 == [CallEvent(At(h, r), "h")] + ([] + ([CallEvent(At(q, r), "h")] + []));
    ChainSame(q, r);
  }

  lemma FlaggedTop(s: State, bits: nat, banned: set<Path>)
    requires 1 <= bits <= 64 && Flagged(s, bits, banned)
    ensures Top(s) && Shape(s)
  {
    TopShape(s);
  }

  lemma ChainSame(s: State, r: RegionId)
    requires Shape(s) && r in s.tree
    ensures Shape(At(s, r)) && DenyChain(At(s, r), r) == DenyChain(s, r)
  {}
}
