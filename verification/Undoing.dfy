/**
 What a load leaves behind: a failed load nothing but an empty region, and a load that
 reused nothing nothing at all once it is unloaded (src/libxylem-module.c:53-118, 141-216).
 */
module Undoing {
  import opened Wrappers
  import opened Lists
  import opened Symbols
  import opened RegionTree
  import opened Keys
  import opened XylemState
  import opened Loading
  import opened Unloading
  import opened Dispatch
  import opened Steps
  import opened Reloading
  import opened LoadOrder

  // ---- failed loads ----

  /** An empty new leaf is invisible to every subtree walk. */
  lemma {:induction false} EmptyLeafDfs(t: Tree, m: map<RegionId, seq<EntryId>>, p: RegionId, c: RegionId, bits: nat,
                                        t': Tree, r: RegionId)
    requires p in t && c !in t && t' == AddLeaf(t, p, c, bits) && m.Keys == t.Keys && r in t
    ensures Dfs(t', m[c := []], r) == Dfs(t, m, r)
    decreases 64 - t[r].depth, 1, 0
  {
    assert NodeOk(t, r) && NodeOk(t', r) && NodeOk(t', c);
    EmptyLeafDfsAll(t, m, p, c, bits, t', r, t[r].children);
    if r == p {
      assert t'[r].children[1..] == t[r].children;
      assert Dfs(t', m[c := []], c) == [];
    }
  }

  lemma {:induction false} EmptyLeafDfsAll(t: Tree, m: map<RegionId, seq<EntryId>>, p: RegionId, c: RegionId, bits: nat,
                                           t': Tree, r: RegionId,
                                           cs: seq<RegionId>)
    requires p in t && c !in t && t' == AddLeaf(t, p, c, bits) && m.Keys == t.Keys && r in t
    requires forall x :: x in cs ==> x in t && t[x].parent == Some(r)
    ensures forall x :: x in cs ==> x in t' && t'[x].parent == Some(r)
    ensures DfsAll(t', m[c := []], r, cs) == DfsAll(t, m, r, cs)
    decreases 64 - t[r].depth, 0, |cs|
  {
    if cs != [] {
      assert NodeOk(t, cs[0]);
      EmptyLeafDfs(t, m, p, c, bits, t', cs[0]);
      EmptyLeafDfsAll(t, m, p, c, bits, t', r, cs[1..]);
    }
  }

  /** Region r has its modules, its settings and its walk as before. */
  ghost predicate RegionUnmoved(s: State, q: State, r: RegionId)
    requires Shape(s) && Shape(q) && r in s.tree
  {
    && r in q.tree && q.mods[r] == s.mods[r] && q.denies[r] == s.denies[r] && q.gates[r] == s.gates[r]
    && Dfs(q.tree, q.mods, r) == Dfs(s.tree, s.mods, r)
  }

  /**
   At most one region more, an empty one under the current region. With a region that was
   claimed and given up goes what was registered under the path's key there.
   */
  ghost predicate OneLeafMore(s: State, q: State, path: Path)
    requires Shape(s)
  {
    || (q.tree == s.tree && q.mods == s.mods && q.registry == s.registry)
    || exists id, bits: nat {:trigger AddLeaf(s.tree, s.cur, id, bits)} ::
         && id !in s.tree && q.tree == AddLeaf(s.tree, s.cur, id, bits) && q.mods == s.mods[id := []]
         && q.registry == s.registry - {KeyAt(path, id)}
  }

  /**
   q has the modules, settings and execution context of s, at most one more region, an empty
   one, and, unless that one shares its key's digits with another, the registrations of s.
   */
  ghost predicate Unmoved(s: State, q: State, path: Path)
    requires Shape(s) && Shape(q)
  {
    && q.entries == s.entries && SameContext(s, q)
    && (Apart(q.tree) ==> q.registry == s.registry)
    && q.everDenied == s.everDenied
    && OneLeafMore(s, q, path)
    && forall r {:trigger RegionUnmoved(s, q, r)} :: r in s.tree ==> RegionUnmoved(s, q, r)
  }

  /** Whichever stage fails, the load is a frame. */
  lemma FailedLoadIsFrame(w: World, s: State, path: Path)
    requires Ready(s) && Load(w, s, path).1 != OK
    ensures Unmoved(s, Load(w, s, path).0, path)
  {
    hide AregAll, LoadNew, Grows, Unmoved, EntryOk, KeyOk, ModsOk;
    if path in w.images {
      AregAllCore(s, w.images[path].constructs);
      var s0 := AregAll(s, w.images[path].constructs);
      FailedNew(w, s0, path, w.images[path]);
      UnmovedFrom(s, s0, LoadNew(w, s0, path, w.images[path]).0, path);
    } else {
      UnmovedSelf(s, path);
    }
  }

  lemma UnmovedSelf(s: State, path: Path)
    requires Shape(s)
    ensures Unmoved(s, s, path)
  {}

  lemma UnmovedFrom(s: State, s0: State, q: State, path: Path)
    requires Shape(s) && Shape(s0) && Shape(q) && s0 == s.(hooks := s0.hooks, syms := s0.syms) && Unmoved(s0, q, path)
    ensures Unmoved(s, q, path)
  {
    hide Dfs, AddLeaf;
    forall r | r in s.tree ensures RegionUnmoved(s, q, r) { assert RegionUnmoved(s0, q, r); }
  }

  lemma FailedNew(w: World, s: State, path: Path, image: Image)
    requires Ready(s) && path in w.images && KeyAt(path, s.cur) !in s.registry && LoadNew(w, s, path, image).1 != OK
    ensures Unmoved(s, LoadNew(w, s, path, image).0, path)
  {
    hide Unmoved, Decide, Admit, Withdraw, Bind, AddLeaf, Grows, Anc, RunScript, EntryOk, KeyOk, ModsOk;
    var v := Decide(w, s, path, image);
    if v.Refused? { RefusedUnmoved(s, path, image); }
    else { WithdrawnUnmoved(w, s, path, image, v); }
  }

  lemma RefusedUnmoved(s: State, path: Path, image: Image)
    requires Core(s)
    ensures Unmoved(s, Bind(s, image, s.cur), path)
  {
    hide Dfs, EntryOk, KeyOk, ModsOk;
  }

  lemma WithdrawnUnmoved(w: World, s: State, path: Path, image: Image, v: Verdict)
    requires Ready(s) && !v.Refused? && v == Decide(w, s, path, image) && KeyAt(path, s.cur) !in s.registry
    ensures s.nextEntry in Admit(w, s, path, image, v).entries
    ensures Unmoved(s, Withdraw(Admit(w, s, path, image, v), s.nextEntry), path)
  {
    hide Unmoved, Dfs, Decide, Admit, Withdraw, AddLeaf, Anc, EntryOk, KeyOk, ModsOk, Apart;
    AdmitFacts(w, s, path, image, v);
    var a := Admit(w, s, path, image, v);
    WithdrawFacts(s, a, path, image, v);
    AdmitSettings(w, s, path, image, v);
    WithdrawSettings(a, s.nextEntry);
    LeafAdded(s, Withdraw(a, s.nextEntry), path, v);
  }

  lemma AdmitSettings(w: World, s: State, path: Path, image: Image, v: Verdict)
    requires Ready(s) && !v.Refused? && v == Decide(w, s, path, image) && KeyAt(path, s.cur) !in s.registry
    ensures var a := Admit(w, s, path, image, v);
            forall r :: r in s.tree ==> r in a.tree && a.denies[r] == s.denies[r] && a.gates[r] == s.gates[r]
  {
    hide Decide, AddLeaf, MarkDirty, Prewarm;
  }

  lemma WithdrawSettings(s: State, e: EntryId)
    requires Core(s) && e in s.entries
    ensures var q := Withdraw(s, e); q.denies == s.denies && q.gates == s.gates && q.everDenied == s.everDenied
  {}

  lemma LeafAdded(s: State, q: State, path: Path, v: Verdict)
    requires Core(s) && Shape(s) && Shape(q) && !v.Refused?
    requires q.mods == if v.Flat? then s.mods else s.mods[v.id := []]
    requires v.Flat? ==> q.tree == s.tree && q.registry == s.registry
    requires v.Granted? ==> v.id !in s.tree && v.id in q.tree && q.tree == AddLeaf(s.tree, s.cur, v.id, v.bits)
    requires v.Granted? ==> q.registry == s.registry - {KeyAt(path, v.id)}
    requires q.entries == s.entries && SameContext(s, q) && q.everDenied == s.everDenied
    requires forall r :: r in s.tree ==> r in q.tree && q.denies[r] == s.denies[r] && q.gates[r] == s.gates[r]
    ensures Unmoved(s, q, path)
  {
    hide AddLeaf, Core, Apart, IsTree, NodeOk;
    assert OneLeafMore(s, q, path);
    if v.Granted? { NothingUnderLeaf(s, q, path, v.id); }
    forall r | r in s.tree ensures RegionUnmoved(s, q, r) {
      if v.Granted? { EmptyLeafDfs(s.tree, s.mods, s.cur, v.id, v.bits, q.tree, r); }
    }
  }

  lemma NothingUnderLeaf(s: State, q: State, path: Path, id: RegionId)
    requires Core(s) && id !in s.tree && id in q.tree && s.tree.Keys <= q.tree.Keys
    requires q.registry == s.registry - {KeyAt(path, id)}
    ensures Apart(q.tree) ==> q.registry == s.registry
  {
    hide Core, Apart;
    if Apart(q.tree) { NoKeyOutsideTree(s, q.tree, path, id); }
  }

  // ---- round trip ----

  /** Loading `path` succeeded in its caller's region, reused no entry, and every new entry has a context. */
  ghost predicate AllNew(s: State, l: State, path: Path)
    requires Core(l)
  {
    && KeyAt(path, s.cur) !in s.registry && KeyAt(path, s.cur) in l.registry
    && (forall e :: e in s.entries ==> e in l.entries && l.entries[e].refcount == s.entries[e].refcount)
    && (forall e :: e in l.entries && e !in s.entries ==> l.entries[e].refcount == 1 && l.entries[e].image.hasCtx)
  }

  /** New entries have new identities, and all but the first were loaded by a new entry. */
  ghost predicate Offspring(s: State, l: State) {
    forall m :: m in l.entries && m !in s.entries ==>
      && m >= s.nextEntry
      && (m != s.nextEntry ==>
            l.entries[m].parent.Some? && l.entries[m].parent.value in l.entries &&
              l.entries[m].parent.value !in s.entries)
  }

  lemma LoadOffspring(w: World, s: State, path: Path)
    requires Ready(s) && KeyAt(path, s.cur) !in s.registry
    requires Load(w, s, path).1 == OK && KeyAt(path, s.cur) in Load(w, s, path).0.registry
    ensures Offspring(s, Load(w, s, path).0)
  {
    hide AregAll, Grows, LoadNew, EntryOk, KeyOk, ModsOk, Offspring;
    AregAllCore(s, w.images[path].constructs);
    var s0 := AregAll(s, w.images[path].constructs);
    NewOffspring(w, s0, path, w.images[path]);
    OffspringFrom(s, s0, LoadNew(w, s0, path, w.images[path]).0);
  }

  lemma OffspringFrom(s: State, s0: State, l: State)
    requires s0.entries == s.entries && s0.nextEntry == s.nextEntry && Offspring(s0, l)
    ensures Offspring(s, l)
  {}

  lemma NewOffspring(w: World, s: State, path: Path, image: Image)
    requires Ready(s) && path in w.images && KeyAt(path, s.cur) !in s.registry && LoadNew(w, s, path, image).1 == OK
    ensures Offspring(s, LoadNew(w, s, path, image).0)
  {
    hide LoadNew, Grows, Core, Offspring, Started, AddLeaf, Anc;
    var v, i, j := InstallRan(w, s, path, image);
    ScriptOffspring(s, i, j);
  }

  lemma ScriptOffspring(s: State, i: State, j: State)
    requires Core(s) && Core(i) && Core(j) && i.loading == Some(s.nextEntry) && s.nextEntry in i.entries &&
             i.nextEntry == s.nextEntry + 1
    requires i.entries.Keys == s.entries.Keys + {s.nextEntry} && Grows(i, j, i.cur, i.loading)
    ensures Offspring(s, Restore(j, s))
  {
    hide Anc, KeyOk, ModsOk, Core, IsTree, NodeOk, Extends, Shape, EntryOk, NoDup;
    FreshId(s);
    assert EntryKept(i, j, s.nextEntry);
    forall m | m in j.entries && m !in s.entries && m != s.nextEntry
      ensures m >= s.nextEntry && j.entries[m].parent.Some? && j.entries[m].parent.value in j.entries &&
              j.entries[m].parent.value !in s.entries
    {
      assert NewEntry(i, j, m, i.cur, i.loading);
      var p := j.entries[m].parent.value;
      if p in s.entries { EntryIsOk(s, p); }
    }
  }

  /** After such a load, the cascade from the first new entry hits exactly the new entries, if it sees them all. */
  lemma {:induction false} NewAreHit(s: State, es: Entries, first: EntryId, m: EntryId)
    requires first in es && first !in s.entries && m in es
    requires forall x :: x in es && x !in s.entries ==>
               && x >= first && es[x].image.hasCtx && es[x].refcount == 1
               && (x != first ==> es[x].parent.Some? && es[x].parent.value in es &&
                                  es[x].parent.value !in s.entries && es[x].parent.value < x)
    requires forall x :: x in es && x in s.entries ==> x < first && (es[x].parent.Some? ==> es[x].parent.value < x)
    ensures Hit(es, first, m) <==> m !in s.entries
    decreases m
  {
    var p := es[m].parent;
    if m != first && p.Some? && p.value in es { NewAreHit(s, es, first, p.value); }
  }

  /** Entries with their counts, registry and every list of s; regions that are new have no modules. */
  ghost predicate PutBack(s: State, u: State) {
    && u.entries == s.entries && u.registry == s.registry
    && (forall r :: r in s.tree ==> r in s.mods && r in u.mods && u.mods[r] == s.mods[r])
    && (forall r :: r in u.tree && r !in s.tree ==> r in u.mods && u.mods[r] == [])
  }

  /**
   Unloading a load that made only new entries puts counts, registry and every list back exactly when the load lost
   no key and all it made is in the table. It did neither if it made no region, or if all was registered before and
   no two regions share the digits of their keys.
   */
  lemma UnloadUndoesLoad(w: World, s: State, path: Path, w': World)
    requires Ready(s) && IsScan(w'.scan) && Load(w, s, path).1 == OK && AllNew(s, Load(w, s, path).0, path)
    ensures var l := Load(w, s, path).0;
            var u := Unload(w', l, path);
            && u.1 == OK && SameContext(s, u.0)
            && (PutBack(s, u.0) <==> KeysGrown(s, l))
            && (l.tree == s.tree || (Registered(s) && Apart(l.tree)) ==> PutBack(s, u.0))
  {
    hide Load, UnloadEntry, Grows, EntryOk, KeyOk, ModsOk, AllNew, Shrinks, IsScan, Registered, Apart, KeysGrown,
         PutBack, RegOk;
    var l := Load(w, s, path).0;
    KeyIn(s, l, path);
    RegisteredLive(l, KeyAt(path, s.cur));
    var n := l.registry[KeyAt(path, s.cur)];
    if l.tree == s.tree || (Registered(s) && Apart(l.tree)) { KeysIntact(s, l, s.cur, s.loading); }
    ContextBack(w'.scan, l, n);
    if KeysGrown(s, l) { RoundTrip(w, s, path, w'.scan, l, n); }
    if PutBack(s, UnloadEntry(w'.scan, l, n)) { RoundTripSaw(w'.scan, s, l, path, n); }
  }

  lemma ContextBack(scan: set<EntryId> -> seq<EntryId>, l: State, n: EntryId)
    requires Core(l) && IsScan(scan) && n in l.entries && RegOk(l, n)
    ensures SameContext(l, UnloadEntry(scan, l, n))
  {
    hide UnloadEntry, Core, RegOk;
  }

  lemma KeyIn(s: State, l: State, path: Path)
    requires Core(l) && AllNew(s, l, path)
    ensures KeyAt(path, s.cur) !in s.registry && KeyAt(path, s.cur) in l.registry
  {}

  /** Where no key is lost. */
  lemma KeysIntact(s: State, l: State, home: RegionId, loader: Option<EntryId>)
    requires Core(s) && Grows(s, l, home, loader) && (l.tree == s.tree || (Registered(s) && Apart(l.tree)))
    ensures KeysGrown(s, l)
  {
    hide Anc, EntryOk, ModsOk, Apart, NewEntry, ListGrown;
    if l.tree != s.tree {
      forall k | k in s.registry ensures k in l.registry && l.registry[k] == s.registry[k] {
        assert KeyOk(s, k) && EntryKept(s, l, s.registry[k]) && RegOk(l, s.registry[k]);
      }
      forall e | e in l.entries ensures RegOk(l, e) {}
    }
  }

  /** If the first new module is in the table, its key is the one it was loaded under. */
  lemma FirstFound(w: World, s: State, path: Path)
    requires Ready(s) && Load(w, s, path).1 == OK && AllNew(s, Load(w, s, path).0, path)
    requires KeysGrown(s, Load(w, s, path).0)
    ensures var l := Load(w, s, path).0;
            && s.nextEntry in l.entries && s.nextEntry !in s.entries
            && KeyAt(path, s.cur) in l.registry && l.registry[KeyAt(path, s.cur)] == s.nextEntry
  {
    hide AregAll, Grows, LoadNew, EntryOk, KeyOk, ModsOk;
    var s0 := AregAll(s, w.images[path].constructs);
    AregAllCore(s, w.images[path].constructs);
    NewFound(w, s0, path, w.images[path]);
  }

  lemma NewFound(w: World, s: State, path: Path, image: Image)
    requires Ready(s) && path in w.images && KeyAt(path, s.cur) !in s.registry && LoadNew(w, s, path, image).1 == OK
    requires KeyAt(path, s.cur) in LoadNew(w, s, path, image).0.registry
    requires KeysGrown(s, LoadNew(w, s, path, image).0)
    ensures var l := LoadNew(w, s, path, image).0;
            s.nextEntry in l.entries && s.nextEntry !in s.entries && l.registry[KeyAt(path, s.cur)] == s.nextEntry
  {
    hide LoadNew, Grows, EntryOk, KeyOk, ModsOk, Admitted, Started, Decide, KeysGrown;
    var v, i, j := InstallRan(w, s, path, image);
    FreshId(s);
    if v.Flat? {
      FlatKey(s, i, j, path, image);
    } else {
      if v.id / 16 != s.cur / 16 { ClaimLeavesNoKey(w, s, path, image, v, j); }
      FirstThere(s, i, j, path, image, v);
      assert RegOk(LoadNew(w, s, path, image).0, s.nextEntry) by {
        GrownAt(s, LoadNew(w, s, path, image).0, s.nextEntry);
      }
    }
  }

  lemma GrownAt(s: State, l: State, e: EntryId)
    requires KeysGrown(s, l) && e in l.entries && e !in s.entries
    ensures RegOk(l, e)
  {}

  lemma FirstThere(s: State, i: State, j: State, path: Path, image: Image, v: Verdict)
    requires Admitted(s, i.(cur := s.cur, curEntry := s.curEntry, loading := s.loading), path, image, v) && v.Granted?
    requires Grows(i, j, i.cur, i.loading)
    ensures s.nextEntry in j.entries && j.entries[s.nextEntry].path == path && j.entries[s.nextEntry].region == v.id
  {
    hide Anc, AddLeaf, KeysKept;
    assert EntryKept(i, j, s.nextEntry);
  }

  lemma RoundTrip(w: World, s: State, path: Path, scan: set<EntryId> -> seq<EntryId>, l: State, n: EntryId)
    requires Ready(s) && IsScan(scan) && Load(w, s, path) == (l, OK) && AllNew(s, l, path) && KeysGrown(s, l)
    requires KeyAt(path, s.cur) in l.registry && n == l.registry[KeyAt(path, s.cur)] && n in l.entries && RegOk(l, n)
    ensures PutBack(s, UnloadEntry(scan, l, n))
  {
    hide Load, UnloadEntry, Grows, EntryOk, KeyOk, ModsOk, AllNew, Offspring, Shrinks, IsScan, KeysGrown, RegOk;
    FirstFound(w, s, path);
    assert KeyAt(path, s.cur) !in s.registry by { KeyIn(s, l, path); }
    LoadOffspring(w, s, path);
    CascadeRestores(scan, s, l, path, n);
  }

  lemma CascadeRestores(scan: set<EntryId> -> seq<EntryId>, s: State, l: State, path: Path, n: EntryId)
    requires Core(s) && Core(l) && IsScan(scan) && Grows(s, l, s.cur, s.loading) && AllNew(s, l, path)
    requires KeysGrown(s, l) && Offspring(s, l) && n == s.nextEntry && n in l.entries && n !in s.entries && RegOk(l, n)
    ensures PutBack(s, UnloadEntry(scan, l, n))
  {
    hide UnloadEntry, Core, IsScan, AllNew, Offspring, Grows, Survives, KeysGrown, RegOk;
    var u := UnloadEntry(scan, l, n);
    CascadeEntries(scan, s, l, path, n);
    SameRegistry(s, l, u);
    forall r | r in l.mods ensures r in u.mods && u.mods[r] == if r in s.mods then s.mods[r] else [] {
      ListBack(s, l, u, r);
    }
    DomainsAgree(s, l, u);
  }

  lemma DomainsAgree(s: State, l: State, u: State)
    requires Core(s) && Core(l) && Core(u) && Grows(s, l, s.cur, s.loading) && u.tree == l.tree
    ensures s.mods.Keys == s.tree.Keys && s.tree.Keys <= l.tree.Keys == l.mods.Keys
  {}

  lemma CascadeEntries(scan: set<EntryId> -> seq<EntryId>, s: State, l: State, path: Path, n: EntryId)
    requires Core(s) && Core(l) && IsScan(scan) && Grows(s, l, s.cur, s.loading) && AllNew(s, l, path)
    requires KeysGrown(s, l) && Offspring(s, l) && n == s.nextEntry && n in l.entries && n !in s.entries && RegOk(l, n)
    ensures UnloadEntry(scan, l, n).entries == s.entries
  {
    hide UnloadEntry, Core, IsScan, AllNew, Offspring, Grows, KeysGrown, RegOk, Hit, Visible;
    var u := UnloadEntry(scan, l, n);
    SeenNew(s, l, path, n);
    OldSame(s, l, path);
    forall m | m in l.entries
      ensures m in u.entries <==> m in s.entries
      ensures m in s.entries ==> u.entries[m] == s.entries[m]
    {
      NewAreHit(s, Visible(l), n, m);
      UnloadEffect(scan, l, n, m);
      if m !in s.entries { OnlyReference(s, l, path, m); }
    }
    forall m | m in u.entries ensures m in l.entries { assert Survives(l, u, m); }
  }

  lemma OldSame(s: State, l: State, path: Path)
    requires Core(l) && Grows(s, l, s.cur, s.loading) && AllNew(s, l, path)
    ensures forall e :: e in s.entries ==> e in l.entries && l.entries[e] == s.entries[e]
  {
    hide Anc;
    forall e | e in s.entries ensures e in l.entries && l.entries[e] == s.entries[e] { assert EntryKept(s, l, e); }
  }

  lemma OnlyReference(s: State, l: State, path: Path, m: EntryId)
    requires Core(l) && AllNew(s, l, path) && m in l.entries && m !in s.entries
    ensures l.entries[m].refcount == 1
  {}

  /** The cascade sees every new module where it was loaded from. */
  lemma SeenNew(s: State, l: State, path: Path, n: EntryId)
    requires Core(s) && Core(l) && Grows(s, l, s.cur, s.loading) && AllNew(s, l, path) && KeysGrown(s, l)
    requires Offspring(s, l) && n == s.nextEntry
    ensures var es := Visible(l);
            && (forall x :: x in es && x !in s.entries ==>
                  && x >= n && es[x].image.hasCtx && es[x].refcount == 1
                  && (x != n ==> es[x].parent.Some? && es[x].parent.value in es &&
                                 es[x].parent.value !in s.entries && es[x].parent.value < x))
            && (forall x :: x in es && x in s.entries ==> x < n && (es[x].parent.Some? ==> es[x].parent.value < x))
  {
    hide KeyOk, ModsOk, Grows, Tabled;
    forall x | x in l.entries ensures x !in s.entries ==> x in Tabled(l) {
      if x !in s.entries { GrownAt(s, l, x); TabledIff(l, x); }
    }
    forall x | x in l.entries ensures l.entries[x].parent.Some? ==> l.entries[x].parent.value < x { EntryIsOk(l, x); }
    forall x | x in s.entries ensures x < n { EarlierId(s, x); }
  }

  /** With the old modules back, and no old key lost, the table is back as well. */
  lemma SameRegistry(s: State, l: State, u: State)
    requires Core(s) && Core(u) && Grows(s, l, s.cur, s.loading) && KeysGrown(s, l) && Shrinks(l, u)
    requires u.entries == s.entries
    ensures u.registry == s.registry
  {
    hide EntryOk, ModsOk, Anc, ListGrown, NewEntry, IsTree, NodeOk, Extends, Shape;
    forall k | k in s.registry ensures k in u.registry && u.registry[k] == s.registry[k] {
      assert KeyOk(s, k);
      var x := s.registry[k];
      assert EntryKept(s, l, x) && RegOk(l, x) && RegOk(u, x);
    }
    forall k | k in u.registry ensures k in s.registry {
      assert KeyOk(u, k);
      EarlierId(s, u.registry[k]);
    }
  }

  /** What was put back was seen: every new module went, and none but the first goes without being in the table. */
  lemma RoundTripSaw(scan: set<EntryId> -> seq<EntryId>, s: State, l: State, path: Path, n: EntryId)
    requires Core(s) && Core(l) && IsScan(scan) && n in l.entries && RegOk(l, n)
    requires PutBack(s, UnloadEntry(scan, l, n))
    ensures KeysGrown(s, l)
  {
    hide UnloadEntry, Core, IsScan, Hit, RegOk, Visible, Tabled, Shrinks;
    var u := UnloadEntry(scan, l, n);
    forall m | m in l.entries && m !in s.entries ensures RegOk(l, m) {
      UnloadEffect(scan, l, n, m);
      if m != n { HitIsTabled(l, n, m); TabledIff(l, m); }
    }
    KeysWereThere(s, l, u);
  }

  lemma KeysWereThere(s: State, l: State, u: State)
    requires Shrinks(l, u) && u.registry == s.registry
    ensures forall k :: k in s.registry ==> k in l.registry && l.registry[k] == s.registry[k]
  {}

  lemma HitIsTabled(s: State, e: EntryId, m: EntryId)
    requires m in s.entries && m != e && Hit(Visible(s), e, m)
    ensures m in Tabled(s)
  {}

  /**
   A load that cannot claim registers all it brings under keys of its own region: its round trip
   holds in every tree.
   */
  lemma UnclaimedRoundTrip(w: World, s: State, path: Path, w': World)
    requires Ready(s) && Open(s) && Ungated(w) && IsScan(w'.scan)
    requires Load(w, s, path).1 == OK && AllNew(s, Load(w, s, path).0, path)
    ensures var u := Unload(w', Load(w, s, path).0, path); u.1 == OK && PutBack(s, u.0)
  {
    hide Load, AllNew, Open, Ungated, PutBack, KeysGrown, Core, Unload;
    var ids := LoadIsVisit(w, s, path);
    UnloadUndoesLoad(w, s, path, w');
  }

  /** Keeping the old entries of a grown list is the old list. */
  lemma ListBack(s: State, l: State, u: State, r: RegionId)
    requires Core(s) && Core(l) && Grows(s, l, s.cur, s.loading) && Shrinks(l, u) && u.entries.Keys == s.entries.Keys &&
             r in l.mods
    ensures r in u.mods && u.mods[r] == if r in s.mods then s.mods[r] else []
  {
    hide Anc, Core, Grows;
    if r in s.mods { OldListBack(s, l, r); } else { NewListBack(s, l, r); }
  }

  lemma OldListBack(s: State, l: State, r: RegionId)
    requires Core(s) && Grows(s, l, s.cur, s.loading) && r in s.mods
    ensures r in l.mods && Keep(l.mods[r], s.entries.Keys) == s.mods[r]
  {
    hide Anc, EntryOk, KeyOk;
    assert ModsOk(s, r) && ListGrown(s, l, r);
    var tail := TailAbove(s.mods[r], l.mods[r], s.nextEntry);
    KeepApp(s.mods[r], tail, s.entries.Keys);
    KeepAll(s.mods[r], s.entries.Keys);
    forall x | x in tail ensures x !in s.entries { if x in s.entries { EarlierId(s, x); } }
    KeepNone(tail, s.entries.Keys);
  }

  lemma NewListBack(s: State, l: State, r: RegionId)
    requires Core(s) && Core(l) && Grows(s, l, s.cur, s.loading) && r in l.mods && r !in s.mods
    ensures Keep(l.mods[r], s.entries.Keys) == []
  {
    hide Anc, KeyOk;
    assert ModsOk(l, r);
    forall x | x in s.entries ensures x in l.entries && l.entries[x].linked in s.mods {
      EntryIsOk(s, x);
      assert EntryKept(s, l, x);
    }
    KeepNone(l.mods[r], s.entries.Keys);
  }

  lemma {:induction false} KeepNone(xs: seq<EntryId>, live: set<EntryId>)
    requires forall x :: x in xs ==> x !in live
    ensures Keep(xs, live) == []
  {
    if xs != [] { KeepNone(xs[1..], live); }
  }

  // ---- denies that go with their module ----

  /** The paths of the modules of region r that are gone in q. */
  ghost function Gone(s: State, q: State, r: RegionId): set<Path> {
    set m | m in s.entries && m !in q.entries && s.entries[m].linked == r :: s.entries[m].path
  }

  /** Each region's module denies lose exactly the paths of the modules it lost. */
  ghost predicate Lifted(s: State, q: State) {
    && q.denies.Keys == s.denies.Keys
    && forall r {:trigger q.denies[r]} :: r in s.denies ==>
      q.denies[r] == s.denies[r].(mods := s.denies[r].mods - Gone(s, q, r))
  }

  lemma LiftedTrans(a: State, b: State, c: State)
    requires Shrinks(a, b) && Shrinks(b, c) && Lifted(a, b) && Lifted(b, c)
    ensures Lifted(a, c)
  {
    forall r | r in a.denies ensures c.denies[r] == a.denies[r].(mods := a.denies[r].mods - Gone(a, c, r)) {
      GoneTrans(a, b, c, r);
      assert b.denies[r].mods - Gone(b, c, r) == a.denies[r].mods - Gone(a, c, r);
    }
  }

  lemma GoneTrans(a: State, b: State, c: State, r: RegionId)
    requires Shrinks(a, b) && Shrinks(b, c)
    ensures Gone(a, c, r) == Gone(a, b, r) + Gone(b, c, r)
  {
    forall m | m in b.entries
      ensures m in a.entries && b.entries[m].path == a.entries[m].path && b.entries[m].linked == a.entries[m].linked
    {
      assert Survives(a, b, m);
    }
    forall m | m in c.entries ensures m in b.entries { assert Survives(b, c, m); }
  }

  lemma SameLifted(s: State, q: State)
    requires q.denies == s.denies && q.entries.Keys == s.entries.Keys
    ensures Lifted(s, q)
  {}

  lemma RetireLifted(s: State, e: EntryId)
    requires Core(s) && e in s.entries
    ensures Lifted(s, Retire(s, e))
  {
    hide MarkDirty, Forget, KeyOk, ModsOk;
    EntryIsOk(s, e);
    var q := Retire(s, e);
    forall r | r in s.denies ensures q.denies[r] == s.denies[r].(mods := s.denies[r].mods - Gone(s, q, r)) {
      assert Gone(s, q, r) == if r == s.entries[e].linked then {s.entries[e].path} else {};
      assert s.denies[r].mods - {} == s.denies[r].mods;
    }
  }

  /**
   An unload lifts exactly the module denies that name a module it removes, in the region that
   module was linked in.
   */
  lemma {:induction false} UnloadLifts(scan: set<EntryId> -> seq<EntryId>, s: State, e: EntryId)
    requires Core(s) && e in s.entries && RegOk(s, e) && IsScan(scan)
    ensures Lifted(s, UnloadEntry(scan, s, e))
    decreases s.nextEntry - e, 1, 0
  {
    hide Lifted, Core, IsScan, Shrinks, Retire, ChildrenOf, UnloadAll, UnloadEntry, Spares, Kids, RegOk;
    UnloadEntryIs(scan, s, e);
    var s1 := Release(s, e);
    SameLifted(s, s1);
    if s1.entries[e].refcount <= 0 {
      var kids := ChildrenOf(scan, s1, e);
      UnloadAllLifts(scan, s1, e, kids);
      var s2 := UnloadAll(scan, s1, e, kids);
      RetireFacts(s2, e);
      RetireLifted(s2, e);
      LiftedTrans(s1, s2, Retire(s2, e));
      ShrinksTrans(s1, s2, Retire(s2, e));
      LiftedTrans(s, s1, Retire(s2, e));
    }
  }

  lemma {:induction false} UnloadAllLifts(scan: set<EntryId> -> seq<EntryId>, s: State, p: EntryId, cs: seq<EntryId>)
    requires Core(s) && IsScan(scan) && Kids(s, p, cs) && p < s.nextEntry
    ensures Lifted(s, UnloadAll(scan, s, p, cs))
    decreases s.nextEntry - p, 0, |cs|
  {
    hide Lifted, Core, IsScan, Shrinks, UnloadEntry, Spares, Kids, RegOk;
    SameLifted(s, s);
    if cs != [] {
      ChildStep(scan, s, p, cs);
      var s1 := if s.entries[cs[0]].image.hasCtx then UnloadEntry(scan, s, cs[0]) else s;
      if s.entries[cs[0]].image.hasCtx { UnloadLifts(scan, s, cs[0]); }
      UnloadAllLifts(scan, s1, p, cs[1..]);
      LiftedTrans(s, s1, UnloadAll(scan, s1, p, cs[1..]));
    }
  }
}
