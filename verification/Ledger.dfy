/**
 Where reference counts come from: every live module has one reference, plus one for every
 load that found it, less one for every unload that reached it.
 */
module Ledger {
  import opened Wrappers
  import opened Lists
  import opened RegionTree
  import opened Keys
  import opened XylemState
  import opened Loading
  import opened Unloading
  import opened Dispatch
  import opened Invariants
  import opened Steps
  import opened Programs
  import opened Reloading
  import opened Runs

  type Bag = multiset<EntryId>

  const NOTHING: Bag := multiset{}

  /** The references a module starts out with in a step from s. */
  ghost function Base(s: State, e: EntryId): int {
    if e in s.entries then s.entries[e].refcount else 1
  }

  /** q's counts are s's, plus what was gained, less what was lost; identities are never reused. */
  ghost predicate Tallied(s: State, q: State, gain: Bag, loss: Bag) {
    && s.nextEntry <= q.nextEntry
    && (forall e :: e in q.entries ==> q.entries[e].refcount == Base(s, e) + gain[e] - loss[e])
    && (forall e :: e in q.entries && e !in s.entries ==> e >= s.nextEntry)
    && (forall e :: e in gain || e in loss ==> e < q.nextEntry)
  }

  lemma TalliedTrans(s: State, a: State, b: State, g1: Bag, l1: Bag, g2: Bag, l2: Bag)
    requires Core(s) && Tallied(s, a, g1, l1) && Tallied(a, b, g2, l2)
    ensures Tallied(s, b, g1 + g2, l1 + l2)
  {
    forall e | e in b.entries
      ensures b.entries[e].refcount == Base(s, e) + (g1 + g2)[e] - (l1 + l2)[e] &&
              (e !in s.entries ==> e >= s.nextEntry)
    {
      if e !in a.entries {
        assert g1[e] == 0 && l1[e] == 0;
        if e in s.entries { EarlierId(s, e); }
      }
    }
  }

  /** Steps that change no count. */
  lemma NoTally(s: State, q: State)
    requires q.entries == s.entries && s.nextEntry <= q.nextEntry
    ensures Tallied(s, q, NOTHING, NOTHING)
  {}

  lemma TallyFrom(s: State, s0: State, q: State, q0: State, gain: Bag, loss: Bag)
    requires s0.entries == s.entries && s0.nextEntry == s.nextEntry && q0.entries == q.entries &&
             q0.nextEntry == q.nextEntry
    requires Tallied(s0, q0, gain, loss)
    ensures Tallied(s, q, gain, loss)
  {}

  // ---- loads ----

  /** The modules that the loads inside one xy_load find, each as often as it is found. */
  ghost function Reused(w: World, s: State, path: Path): Bag
    requires Ready(s)
    decreases Room(s.tree), |Unopened(w, s)|, 1
  {
    hide Grows, AregAll;
    if path !in w.images then NOTHING
    else
      var s0 := AregAll(s, w.images[path].constructs);
      AregAllCore(s, w.images[path].constructs);
      assert Unopened(w, s0) == Unopened(w, s);
      if KeyAt(path, s.cur) in s0.registry then multiset{s0.registry[KeyAt(path, s.cur)]}
      else ReusedNew(w, s0, path, w.images[path])
  }

  ghost function ReusedNew(w: World, s: State, path: Path, image: Image): Bag
    requires Ready(s) && path in w.images && KeyAt(path, s.cur) !in s.registry
    decreases Room(s.tree), |Unopened(w, s)|, 0
  {
    hide Decide;
    var v := Decide(w, s, path, image);
    if v.Refused? || image.install.None? then NOTHING
    else
      StartedFacts(w, s, path, image, v);
      ReusedByScript(w, Started(w, s, path, image, v), image.install.value)
  }

  ghost function ReusedByScript(w: World, s: State, acts: seq<Action>): Bag
    requires Ready(s)
    decreases Room(s.tree), |Unopened(w, s)|, |acts| + 1
  {
    hide Grows, Setting, Unopened;
    if acts == [] then NOTHING
    else if acts[0].ALoad? then
      var s1 := Load(w, s, acts[0].path).0;
      ScriptStep(w, s, s1);
      Reused(w, s, acts[0].path) + ReusedByScript(w, s1, acts[1..])
    else
      var s1 := Setting(s, acts[0]);
      SettingFacts(s, acts[0]);
      ScriptStep(w, s, s1);
      ReusedByScript(w, s1, acts[1..])
  }

  lemma {:induction false} LoadTallied(w: World, s: State, path: Path)
    requires Ready(s)
    ensures Tallied(s, Load(w, s, path).0, Reused(w, s, path), NOTHING)
    decreases Room(s.tree), |Unopened(w, s)|, 1
  {
    hide LoadNew, ReusedNew, AregAll, Grows, Tallied, EntryOk, KeyOk, ModsOk;
    if path !in w.images { NoTally(s, s); }
    else {
      var s0 := AregAll(s, w.images[path].constructs);
      AregAllCore(s, w.images[path].constructs);
      assert Unopened(w, s0) == Unopened(w, s);
      if KeyAt(path, s.cur) in s0.registry {
        RegisteredLive(s0, KeyAt(path, s.cur));
        RetainTallied(s0, s0.registry[KeyAt(path, s.cur)]);
      } else {
        NewTallied(w, s0, path, w.images[path]);
      }
      TallyFrom(s, s0, Load(w, s, path).0, Load(w, s, path).0, Reused(w, s, path), NOTHING);
    }
  }

  lemma RetainTallied(s: State, e: EntryId)
    requires Core(s) && e in s.entries
    ensures Tallied(s, Retain(s, e), multiset{e}, NOTHING)
  {
    EntryIsOk(s, e);
  }

  lemma {:induction false} NewTallied(w: World, s: State, path: Path, image: Image)
    requires Ready(s) && path in w.images && KeyAt(path, s.cur) !in s.registry
    ensures Tallied(s, LoadNew(w, s, path, image).0, ReusedNew(w, s, path, image), NOTHING)
    decreases Room(s.tree), |Unopened(w, s)|, 0
  {
    hide Tallied, Grows, EntryOk, KeyOk, ModsOk, Decide, Admit, Withdraw, RunScript, Anc, ReusedByScript;
    var v := Decide(w, s, path, image);
    if v.Refused? {
      NoTally(s, Bind(s, image, s.cur));
    } else if image.install.None? {
      WithdrawTallied(w, s, path, image, v);
    } else {
      StartedFacts(w, s, path, image, v);
      ScriptTallied(w, Started(w, s, path, image, v), image.install.value);
      InstallTallied(w, s, path, image, v);
    }
  }

  lemma WithdrawTallied(w: World, s: State, path: Path, image: Image, v: Verdict)
    requires Ready(s) && !v.Refused? && v == Decide(w, s, path, image) && KeyAt(path, s.cur) !in s.registry
    ensures var a := Admit(w, s, path, image, v);
            s.nextEntry in a.entries && Tallied(s, Withdraw(a, s.nextEntry), NOTHING, NOTHING)
  {
    hide Decide, Admit, Withdraw, Anc, AddLeaf, Core, Admitted, Tallied;
    AdmitFacts(w, s, path, image, v);
    WithdrawFacts(s, Admit(w, s, path, image, v), path, image, v);
    NoTally(s, Withdraw(Admit(w, s, path, image, v), s.nextEntry));
  }

  lemma InstallTallied(w: World, s: State, path: Path, image: Image, v: Verdict)
    requires Ready(s) && path in w.images && KeyAt(path, s.cur) !in s.registry
    requires !v.Refused? && v == Decide(w, s, path, image) && image.install.Some? &&
             Ready(Started(w, s, path, image, v))
    requires var i := Started(w, s, path, image, v);
             Tallied(i, RunScript(w, i, image.install.value), ReusedByScript(w, i, image.install.value), NOTHING)
    ensures var i := Started(w, s, path, image, v);
            Tallied(s, Restore(RunScript(w, i, image.install.value), s), ReusedByScript(w, i, image.install.value),
              NOTHING)
  {
    hide Tallied, Grows, Core, Decide, Admit, RunScript, ReusedByScript, Anc, AddLeaf;
    var i := Started(w, s, path, image, v);
    var j, found := RunScript(w, i, image.install.value), ReusedByScript(w, i, image.install.value);
    AdmitFacts(w, s, path, image, v);
    AdmitTallied(s, i);
    TalliedTrans(s, i, j, NOTHING, NOTHING, found, NOTHING);
    assert NOTHING + found == found;
    assert NOTHING + NOTHING == NOTHING;
    TallyFrom(s, s, Restore(j, s), j, found, NOTHING);
  }

  lemma AdmitTallied(s: State, i: State)
    requires s.nextEntry in i.entries && i.entries == s.entries[s.nextEntry := i.entries[s.nextEntry]]
    requires s.nextEntry !in s.entries && i.entries[s.nextEntry].refcount == 1 && i.nextEntry == s.nextEntry + 1
    ensures Tallied(s, i, NOTHING, NOTHING)
  {}

  lemma {:induction false} ScriptTallied(w: World, s: State, acts: seq<Action>)
    requires Ready(s)
    ensures Tallied(s, RunScript(w, s, acts), ReusedByScript(w, s, acts), NOTHING)
    decreases Room(s.tree), |Unopened(w, s)|, |acts| + 1
  {
    hide Tallied, Grows, EntryOk, KeyOk, ModsOk, Load, Reused, Setting, Unopened;
    if acts == [] {
      NoTally(s, s);
    } else if acts[0].ALoad? {
      var s1 := Load(w, s, acts[0].path).0;
      ScriptStep(w, s, s1);
      LoadTallied(w, s, acts[0].path);
      ScriptTallied(w, s1, acts[1..]);
      TalliedTrans(s, s1, RunScript(w, s1, acts[1..]), Reused(w, s, acts[0].path), NOTHING,
        ReusedByScript(w, s1, acts[1..]), NOTHING);
      assert NOTHING + NOTHING == NOTHING;
    } else {
      var s1 := Setting(s, acts[0]);
      SettingFacts(s, acts[0]);
      ScriptStep(w, s, s1);
      ScriptTallied(w, s1, acts[1..]);
      SettingCounts(s, acts[0]);
      TallyFrom(s, s1, RunScript(w, s1, acts[1..]), RunScript(w, s1, acts[1..]), ReusedByScript(w, s1, acts[1..]),
        NOTHING);
    }
  }

  lemma SettingCounts(s: State, act: Action)
    requires Shape(s) && !act.ALoad?
    ensures Setting(s, act).entries == s.entries && Setting(s, act).nextEntry == s.nextEntry
  {}

  // ---- unloads ----

  /** The modules one unload of e reaches, through what the table holds. */
  ghost function Reached(s: State, e: EntryId): Bag {
    multiset(set m | m in s.entries && Hit(Visible(s), e, m))
  }

  lemma UnloadTallied(scan: set<EntryId> -> seq<EntryId>, s: State, e: EntryId)
    requires Core(s) && e in s.entries && RegOk(s, e) && IsScan(scan)
    ensures Tallied(s, UnloadEntry(scan, s, e), NOTHING, Reached(s, e))
  {
    hide UnloadEntry, Hit, Core, IsScan, Reached, RegOk;
    var q := UnloadEntry(scan, s, e);
    forall m | m in q.entries
      ensures m in s.entries && q.entries[m].refcount == s.entries[m].refcount - Reached(s, e)[m]
    {
      assert Survives(s, q, m);
      LostAt(scan, s, e, m);
    }
    ReachedLive(s, e);
  }

  lemma LostAt(scan: set<EntryId> -> seq<EntryId>, s: State, e: EntryId, m: EntryId)
    requires Core(s) && e in s.entries && RegOk(s, e) && IsScan(scan) && m in s.entries &&
             m in UnloadEntry(scan, s, e).entries
    ensures UnloadEntry(scan, s, e).entries[m].refcount == s.entries[m].refcount - Reached(s, e)[m]
  {
    hide UnloadEntry, Hit, Core, IsScan, RegOk, Visible;
    UnloadEffect(scan, s, e, m);
  }

  lemma ReachedLive(s: State, e: EntryId)
    requires Core(s)
    ensures forall m :: m in Reached(s, e) ==> m < s.nextEntry
  {
    forall m | m in Reached(s, e) ensures m < s.nextEntry { EarlierId(s, m); }
  }

  // ---- programs ----

  datatype Tally = Tally(gain: Bag, loss: Bag)

  const NONE := Tally(NOTHING, NOTHING)

  /** The loads and unloads of a program, as the references they give and take. */
  ghost function ProgTally(s: State, p: Prog): Tally
    requires Top(s) && Legal(p)
    decreases p, 0
  {
    hide Top, LegalCmd, CmdTally;
    match p
    case Done => NONE
    case Then(c, rest) =>
      var a, b := CmdTally(s, c), ProgTally(ExecCmd(s, c).0, rest);
      Tally(a.gain + b.gain, a.loss + b.loss)
  }

  ghost function CmdTally(s: State, c: Cmd): Tally
    requires Top(s) && LegalCmd(c)
    decreases c, 1
  {
    hide Inv, Counted, IsScan;
    match c
    case DoWith(region, body) =>
      if region !in s.tree then NONE
      else
        ContextTop(s, region, Some(region));
        ProgTally(s.(cur := region, curEntry := Some(region)), body)
    case DoLoad(w, path) => TopReady(s); Tally(Reused(w, s, path), NOTHING)
    case DoUnload(w, path) =>
      if KeyAt(path, s.cur) !in s.registry then NONE else Tally(NOTHING, Reached(s, s.registry[KeyAt(path, s.cur)]))
    case DoReload(w, path) =>
      if KeyAt(path, s.cur) !in s.registry then NONE
      else
        TopShape(s);
        TopReady(s);
        var e := s.registry[KeyAt(path, s.cur)];
        RegisteredLive(s, KeyAt(path, s.cur));
        UnloadedReady(w.scan, s, e);
        Tally(Reused(w, UnloadEntry(w.scan, s, e), path), Reached(s, e))
    case _ => NONE
  }

  /** Callbacks give and take no references. */
  lemma {:induction false} PassiveFrame(s: State, p: Prog)
    requires Top(s) && Passive(p) && Legal(p)
    ensures Exec(s, p).0.entries == s.entries && Exec(s, p).0.nextEntry == s.nextEntry
    decreases p, 0
  {
    hide Top, LogOk, ExecCmd, Prepare;
    if p.Then? {
      PassiveCmdFrame(s, p.first);
      PassiveFrame(ExecCmd(s, p.first).0, p.rest);
    }
  }

  lemma {:induction false} PassiveCmdFrame(s: State, c: Cmd)
    requires Top(s) && LegalCmd(c) && (c.DoCall? || (c.DoWith? && PassiveCmd(c)))
    ensures ExecCmd(s, c).0.entries == s.entries && ExecCmd(s, c).0.nextEntry == s.nextEntry
    decreases c, 1
  {
    hide Inv, LogOk, Exec, Deliver, Counted, Kept, Load, Unload, Reload, Areg, DenyHook, DenyModule, Require, Prepare;
    match c
    case DoCall(name, bodies) =>
      TopShape(s);
      PrepareTop(s, name);
      DeliverFrame(Prepare(s, name).0, Prepare(s, name).2, bodies, s.cur);
    case DoWith(region, body) =>
      if region in s.tree {
        ContextTop(s, region, Some(region));
        PassiveFrame(s.(cur := region, curEntry := Some(region)), body);
      }
  }

  lemma {:induction false} DeliverFrame(s: State, slots: seq<Slot>, bodies: Bodies, home: RegionId)
    requires Top(s) && PassiveBodies(bodies) && s.cur == home
    ensures var q := Deliver(s, slots, bodies, home).0; q.entries == s.entries && q.nextEntry == s.nextEntry
    decreases bodies, 0, |slots|
  {
    hide Top, LogOk, Enter, Passive, Exec;
    if slots == [] {
    } else if !Dispatch.Runs(s, slots[0]) || bodies.Silent? {
      DeliverFrame(s, slots[1..], bodies, home);
    } else {
      var i := Enter(s, slots[0], home);
      EnterTop(s, slots[0], home);
      PassiveLegal(bodies.body);
      var b := Exec(i, bodies.body);
      ScopeEnds(s, i, b.0);
      PassiveFrame(i, bodies.body);
      DeliverFrame(b.0.(cur := s.cur, curEntry := s.curEntry), slots[1..], bodies.others, home);
    }
  }

  /** The counts after a program are those before it, plus what its loads found, less what its unloads reached. */
  lemma {:induction false} RunTallied(s: State, p: Prog)
    requires Top(s) && Legal(p)
    ensures Tallied(s, Exec(s, p).0, ProgTally(s, p).gain, ProgTally(s, p).loss)
    decreases p, 0
  {
    hide Top, LegalCmd, LogOk, ExecCmd, CmdTally, Tallied;
    match p
    case Done => NoTally(s, s);
    case Then(c, rest) =>
      var a := ExecCmd(s, c).0;
      CmdTallied(s, c);
      RunTallied(a, rest);
      TopShape(s);
      TalliedTrans(s, a, Exec(a, rest).0, CmdTally(s, c).gain, CmdTally(s, c).loss, ProgTally(a, rest).gain,
        ProgTally(a, rest).loss);
  }

  lemma {:induction false} CmdTallied(s: State, c: Cmd)
    requires Top(s) && LegalCmd(c)
    ensures Tallied(s, ExecCmd(s, c).0, CmdTally(s, c).gain, CmdTally(s, c).loss)
    decreases c, 1
  {
    hide Inv, LogOk, Exec, ProgTally, Deliver, Counted, Kept, Load, Reload, Prepare, Tallied, Reused, Reached,
         UnloadEntry, BumpGens, FlagDeny, IsScan, Areg, KeyOf, RegOk, IsTree, NodeOk, Extends, Shape, Core, Anc;
    TopShape(s);
    match c
    case DoCall(name, bodies) =>
      PassiveCmdFrame(s, c);
      NoTally(s, ExecCmd(s, c).0);
    case DoWith(region, body) =>
      if region !in s.tree { NoTally(s, s); }
      else {
        var inside := s.(cur := region, curEntry := Some(region));
        ContextTop(s, region, Some(region));
        RunTallied(inside, body);
        TallyFrom(s, inside, ExecCmd(s, c).0, Exec(inside, body).0, ProgTally(inside, body).gain,
          ProgTally(inside, body).loss);
      }
    case DoLoad(w, path) => TopReady(s); LoadTallied(w, s, path);
    case DoUnload(w, path) =>
      if KeyAt(path, s.cur) !in s.registry { NoTally(s, s); }
      else { RegisteredLive(s, KeyAt(path, s.cur)); UnloadTallied(w.scan, s, s.registry[KeyAt(path, s.cur)]); }
    case DoReload(w, path) =>
      if KeyAt(path, s.cur) !in s.registry { NotReloaded(w, s, path); NoTally(s, s); }
      else {
        var e, u := ReloadUnloads(w, s, path);
        ReloadTallied(w, s, path, e, u);
      }
    case _ => NoTally(s, ExecCmd(s, c).0);
  }

  lemma ReloadTallied(w: World, s: State, path: Path, e: EntryId, u: State)
    requires Top(s) && IsScan(w.scan) && KeyAt(path, s.cur) in s.registry && s.registry[KeyAt(path, s.cur)] == e
    requires Core(s) && e in s.entries && RegOk(s, e) && u == UnloadEntry(w.scan, s, e) && Ready(u)
    ensures Tallied(s, Reload(w, s, path).0, Reused(w, u, path), Reached(s, e))
  {
    hide Top, Load, Tallied, Reused, Reached, UnloadEntry, Core, IsScan, Reload, RegOk;
    UnloadThenLoad(w, s, path, e, u);
    MovedCounts(w, s, path, e, u, Load(w, u, path).0);
    TallyCounts(s, Load(w, u, path).0, Reload(w, s, path).0, Reused(w, u, path), Reached(s, e));
  }

  lemma NotReloaded(w: World, s: State, path: Path)
    requires Top(s) && IsScan(w.scan) && KeyAt(path, s.cur) !in s.registry
    ensures Reload(w, s, path).0 == s
  {}

  lemma ReloadUnloads(w: World, s: State, path: Path) returns (e: EntryId, u: State)
    requires Top(s) && IsScan(w.scan) && KeyAt(path, s.cur) in s.registry
    ensures Core(s) && e == s.registry[KeyAt(path, s.cur)] && e in s.entries && RegOk(s, e) &&
            u == UnloadEntry(w.scan, s, e) && Ready(u)
  {
    hide UnloadEntry, IsScan, Counted, RegOk;
    e := s.registry[KeyAt(path, s.cur)];
    RegisteredLive(s, KeyAt(path, s.cur));
    UnloadedReady(w.scan, s, e);
    u := UnloadEntry(w.scan, s, e);
  }

  lemma UnloadThenLoad(w: World, s: State, path: Path, e: EntryId, u: State)
    requires Core(s) && IsScan(w.scan) && e in s.entries && RegOk(s, e) && u == UnloadEntry(w.scan, s, e) && Ready(u)
    ensures Tallied(s, Load(w, u, path).0, Reused(w, u, path), Reached(s, e))
  {
    hide Load, Tallied, Reused, Reached, UnloadEntry, Core, IsScan, RegOk;
    UnloadTallied(w.scan, s, e);
    LoadTallied(w, u, path);
    TalliedTrans(s, u, Load(w, u, path).0, NOTHING, Reached(s, e), Reused(w, u, path), NOTHING);
    assert NOTHING + Reused(w, u, path) == Reused(w, u, path) && Reached(s, e) + NOTHING == Reached(s, e);
  }

  /** Relinking a module touches no count. */
  lemma MovedCounts(w: World, s: State, path: Path, e: EntryId, u: State, l: State)
    requires Top(s) && IsScan(w.scan) && KeyAt(path, s.cur) in s.registry && s.registry[KeyAt(path, s.cur)] == e
    requires e in s.entries && RegOk(s, e) && u == UnloadEntry(w.scan, s, e) && Ready(u) && l == Load(w, u, path).0
    ensures SameCounts(l, Reload(w, s, path).0)
  {
    hide Inv, Counted, Load, UnloadEntry, Core, IsScan, Before, RegOk, Move, CanMove, Extends;
    var e', u', l' := ReloadParts(w, s, path);
    var home := s.entries[e].linked;
    if Load(w, u, path).1 == OK && KeyAt(path, s.cur) in l.registry {
      MovedFields(l, home, l.registry[KeyAt(path, s.cur)], Before(s.mods[home], e));
    }
  }

  ghost predicate SameCounts(a: State, b: State) {
    && b.nextEntry == a.nextEntry && b.entries.Keys == a.entries.Keys
    && forall e :: e in a.entries ==> b.entries[e].refcount == a.entries[e].refcount
  }

  lemma TallyCounts(s: State, a: State, b: State, gain: Bag, loss: Bag)
    requires Tallied(s, a, gain, loss) && SameCounts(a, b)
    ensures Tallied(s, b, gain, loss)
  {}

  /**
   Conservation over every run: each live module's count is one, plus the loads that found
   it, less the unloads that reached it, and at least one.
   */
  lemma EveryCount(p: Prog, e: EntryId)
    requires Legal(p) && Top(INIT) && e in Exec(INIT, p).0.entries
    ensures var n, t := Exec(INIT, p).0.entries[e], ProgTally(INIT, p);
            n.refcount + t.loss[e] == 1 + t.gain[e] && n.refcount >= 1
  {
    hide Exec, ProgTally, CachesOk, DeniesOk, SymsOk, Settled, EntryOk, KeyOk, ModsOk;
    RunTallied(INIT, p);
  }
}
