/** xy_reload as a function of the state: its saved position outlives the unload, and relinking keeps the invariant. */
module Programs {
  import opened Wrappers
  import opened Lists
  import opened Symbols
  import opened RegionTree
  import opened RegionIds
  import opened Keys
  import opened XylemState
  import opened Loading
  import opened Unloading
  import opened Invariants
  import opened Steps

  /** Every live module holds at least one reference. */
  ghost predicate Counted(es: Entries) {
    forall e :: e in es ==> es[e].refcount >= 1
  }

  /** A state between two commands of a program: no install is running. */
  ghost predicate Top(s: State) {
    Inv(s) && Counted(s.entries) && s.loading == None
  }

  lemma SettledMeans(s: State)
    requires Inv(s)
    ensures Core(s) && LineageOk(s) && (!s.everStray ==> InStep(s.entries))
    ensures Apart(s.tree) ==> Registered(s) && !s.everStray
  {}

  // ---- the saved position of a reload ----

  /** In one region's list, what a module loaded, directly or not, comes after it. */
  lemma DescFollows(s: State, r: RegionId, e: EntryId, m: EntryId)
    requires Core(s) && LineageOk(s) && r in s.tree && e in s.mods[r] && m in s.mods[r]
    requires m in s.entries && Desc(s.entries, e, m)
    ensures IndexOf(s.mods[r], e) <= IndexOf(s.mods[r], m)
  {
    hide EntryOk, KeyOk, ModsOk, Desc;
    var i, j := IndexOf(s.mods[r], m), IndexOf(s.mods[r], e);
    assert Ordered(s.entries, s.mods[r]) && s.mods[r][i] == m && s.mods[r][j] == e;
  }

  lemma LinkedThere(s: State, e: EntryId)
    requires Core(s) && e in s.entries
    ensures s.entries[e].linked in s.tree && s.entries[e].linked in s.mods && e in s.mods[s.entries[e].linked]
  {
    EntryIsOk(s, e);
  }

  /** The module in front of e does not go with e, in any state: what stands in front was not loaded by it. */
  lemma PredecessorSurvives(scan: set<EntryId> -> seq<EntryId>, s: State, e: EntryId)
    requires Core(s) && LineageOk(s) && e in s.entries && RegOk(s, e) && IsScan(scan)
    ensures s.entries[e].linked in s.mods
    ensures var r, u := s.entries[e].linked, UnloadEntry(scan, s, e);
            var after := Before(s.mods[r], e);
            after.Some? ==> after.value != e && after.value in s.entries && after.value in u.entries
                            && r in u.mods && after.value in u.mods[r]
  {
    hide UnloadEntry, EntryOk, KeyOk, RegOk, LineageOk, Desc, Shape, IsTree, NodeOk, Extends;
    LinkedThere(s, e);
    var r, u := s.entries[e].linked, UnloadEntry(scan, s, e);
    assert ModsOk(s, r);
    var after := Before(s.mods[r], e);
    if after.Some? {
      var i := IndexOf(s.mods[r], e);
      IndexAt(s.mods[r], i - 1);
      if Desc(s.entries, e, after.value) { DescFollows(s, r, e, after.value); }
      assert forall c :: c in [e] ==> !Desc(s.entries, c, after.value);
      LinkedThere(u, after.value);
    }
  }

  // ---- xy_reload ----

  /**
   xy_reload: unload, load, take the module found under the key out of its list, and link it into the list the old
   one was in, behind the old one's predecessor.
   */
  function Reload(w: World, s: State, path: Path): (res: (State, Err))
    requires Top(s) && IsScan(w.scan)
    ensures Shape(res.0)
  {
    hide CachesOk, DeniesOk, SymsOk, Settled, Load, UnloadEntry, EntryOk, ModsOk, Placeable, Replace;
    if KeyAt(path, s.cur) !in s.registry then (s, NOTFOUND)
    else
      RegisteredLive(s, KeyAt(path, s.cur));
      var e := s.registry[KeyAt(path, s.cur)];
      LinkedThere(s, e);
      var home := s.entries[e].linked;
      var after := Before(s.mods[home], e);
      var u := UnloadEntry(w.scan, s, e);
      UnloadedReady(w.scan, s, e);
      PositionExists(w, s, path, e);
      Replace(w, u, path, home, after)
  }

  /** What the load leaves under the key, if it succeeds, can go behind `after` in the list of region home. */
  ghost predicate Placeable(w: World, u: State, path: Path, home: RegionId, after: Option<EntryId>) {
    Ready(u) && home in u.tree &&
    var l := Load(w, u, path);
    l.1 == OK && KeyAt(path, u.cur) in l.0.registry ==> CanMove(l.0, home, l.0.registry[KeyAt(path, u.cur)], after)
  }

  /** n is linked somewhere, and once it is unlinked, `after` is in the list of region home. */
  ghost predicate CanMove(s: State, home: RegionId, n: EntryId, after: Option<EntryId>) {
    && Shape(s) && home in s.tree && n in s.entries && s.entries[n].linked in s.tree
    && (after.Some? ==> after.value in Detached(s, n).mods[home])
  }

  /** n out of its list, and behind `after` in the list of region home. */
  function Move(s: State, home: RegionId, n: EntryId, after: Option<EntryId>): (q: State)
    requires CanMove(s, home, n, after)
    ensures Shape(q)
  {
    Attached(Detached(s, n), home, n, after)
  }

  /** The second half of a reload. */
  function Replace(w: World, u: State, path: Path, home: RegionId, after: Option<EntryId>): (res: (State, Err))
    requires Placeable(w, u, path, home, after)
    ensures Shape(res.0)
  {
    hide Load, EntryOk, KeyOk, ModsOk, CanMove;
    var l := Load(w, u, path);
    if l.1 == OK && KeyAt(path, u.cur) in l.0.registry
    then (Move(l.0, home, l.0.registry[KeyAt(path, u.cur)], after), OK)
    else l
  }

  lemma UnloadedReady(scan: set<EntryId> -> seq<EntryId>, s: State, e: EntryId)
    requires Ready(s) && e in s.entries && RegOk(s, e) && IsScan(scan)
    ensures var u := UnloadEntry(scan, s, e);
            Ready(u) && SameContext(s, u) && u.tree == s.tree && u.nextEntry == s.nextEntry
  {
    hide UnloadEntry, Core, RegOk;
  }

  /** Unless regions share the digits of their keys, a key leads to a module of its own region. */
  lemma KeyLeadsHome(s: State, path: Path, r: RegionId)
    requires Core(s) && Apart(s.tree) && r in s.tree && KeyAt(path, r) in s.registry
    ensures var e := s.registry[KeyAt(path, r)];
            e in s.entries && s.entries[e].path == path && s.entries[e].region == r
  {
    assert KeyOk(s, KeyAt(path, r));
    EntryIsOk(s, s.registry[KeyAt(path, r)]);
  }

  /** The saved predecessor is still in its list, and is not the module to be moved. */
  lemma PositionExists(w: World, s: State, path: Path, e: EntryId)
    requires Inv(s) && Ready(s) && IsScan(w.scan)
    requires KeyAt(path, s.cur) in s.registry && s.registry[KeyAt(path, s.cur)] == e
    requires e in s.entries && RegOk(s, e) && s.entries[e].linked in s.tree
    requires Ready(UnloadEntry(w.scan, s, e)) && SameContext(s, UnloadEntry(w.scan, s, e))
    ensures s.entries[e].linked in s.mods
    ensures var home := s.entries[e].linked;
            Placeable(w, UnloadEntry(w.scan, s, e), path, home, Before(s.mods[home], e))
  {
    hide Inv, UnloadEntry, Load, LineageOk, RegOk, Before, Without, Anc, Grows, Shrinks, EntryOk, KeyOk, ModsOk,
         CanMove, IsScan, Apart, Spares;
    var u := UnloadEntry(w.scan, s, e);
    SettledMeans(s);
    ShrinksTree(s, u);
    PredecessorSurvives(w.scan, s, e);
    var home := s.entries[e].linked;
    var after := Before(s.mods[home], e);
    var l := Load(w, u, path);
    if l.1 == OK && KeyAt(path, u.cur) in l.0.registry {
      FoundIsNewOrOld(s, u, l.0, path, e);
      RegisteredLive(l.0, KeyAt(path, u.cur));
      PlaceExists(u, l.0, home, l.0.registry[KeyAt(path, u.cur)], e, after);
    }
  }

  lemma ShrinksTree(s: State, u: State)
    requires Shrinks(s, u)
    ensures u.tree == s.tree && u.nextEntry == s.nextEntry
  {}

  /** What the load leaves under the key is new, or is the module that was found there before. */
  lemma FoundIsNewOrOld(s: State, u: State, l: State, path: Path, e: EntryId)
    requires KeyAt(path, s.cur) in s.registry && s.registry[KeyAt(path, s.cur)] == e && u.cur == s.cur
    requires Shrinks(s, u) && Grows(u, l, u.cur, u.loading) && KeyAt(path, u.cur) in l.registry
    ensures var n := l.registry[KeyAt(path, u.cur)];
            n >= u.nextEntry || (n == e && KeyAt(path, u.cur) in u.registry && u.registry[KeyAt(path, u.cur)] == e)
  {
    hide Anc;
  }

  lemma PlaceExists(u: State, l: State, home: RegionId, n: EntryId, e: EntryId, after: Option<EntryId>)
    requires Core(u) && Core(l) && Grows(u, l, u.cur, u.loading) && home in u.tree && n in l.entries
    requires n >= u.nextEntry || n == e
    requires after.Some? ==>
             after.value != e && after.value in u.entries && home in u.mods && after.value in u.mods[home]
    ensures CanMove(l, home, n, after)
  {
    hide Anc, KeyOk, EntryOk, KeysKept, NewEntry, EntryKept;
    LinkedThere(l, n);
    if after.Some? {
      assert ListGrown(u, l, home) && ModsOk(l, home);
      EarlierId(u, after.value);
      WithoutFacts(l.mods[home], n);
    }
  }

  lemma GrowsApart(s: State, r: State, home: RegionId, loader: Option<EntryId>)
    requires Grows(s, r, home, loader) && Apart(r.tree)
    ensures Apart(s.tree)
  {
    hide Anc;
  }

  // ---- relinking ----

  /** Putting a module back behind its own predecessor changes nothing. */
  lemma ReinsertSame(list: seq<EntryId>, e: EntryId)
    requires NoDup(list) && e in list
    ensures var after := Before(list, e);
            && (after.Some? ==> after.value in Without(list, e))
            && InsertAfter(Without(list, e), e, after) == list
  {
    var i, after, r := IndexOf(list, e), Before(list, e), Without(list, e);
    if after.Some? {
      assert r[i - 1] == list[i - 1];
      WithoutFacts(list, e);
      IndexAt(r, i - 1);
    }
  }

  /** The list of region home once n is in it. */
  ghost function NewList(s: State, home: RegionId, n: EntryId, after: Option<EntryId>): seq<EntryId>
    requires CanMove(s, home, n, after)
  {
    InsertAfter(Detached(s, n).mods[home], n, after)
  }

  /** Relinking keeps the invariant if the new order still has loaders first. */
  lemma MovedInv(s: State, home: RegionId, n: EntryId, after: Option<EntryId>)
    requires Inv(s) && CanMove(s, home, n, after) && Ordered(s.entries, NewList(s, home, n, after))
    requires Apart(s.tree) ==> s.entries[n].region == home
    ensures Inv(Move(s, home, n, after))
  {
    hide CachesOk, DeniesOk, SymsOk, Settled, EntryOk, KeyOk, ModsOk, Detached, Attached, CanMove, NewList, Prefixed,
         CtxsOk, ListsOk;
    MovedCore(s, home, n, after);
    MovedCaches(s, home, n, after);
    MovedFields(s, home, n, after);
    var q := Move(s, home, n, after);
    DeniesFrame(s, q);
    MovedSyms(s, q, n);
    MovedSettled(s, home, n, after);
    MovedCtxs(s, q);
  }

  /** What a move leaves as it was. */
  lemma MovedFields(s: State, home: RegionId, n: EntryId, after: Option<EntryId>)
    requires CanMove(s, home, n, after)
    ensures var q := Move(s, home, n, after);
            && q.tree == s.tree && q.denies == s.denies && q.gates == s.gates && q.syms == s.syms &&
              q.registry == s.registry
            && q.ctxs == s.ctxs && q.hooks == s.hooks && SameContext(s, q) && q.nextEntry == s.nextEntry
            && q.everShared == s.everShared && q.everDenied == s.everDenied
            && q.everStray == (s.everStray || s.entries[n].region != home)
            && n in s.entries && q.entries == s.entries[n := s.entries[n].(linked := home)]
  {
    hide MarkDirty, InsertAfter, Without;
  }

  lemma MovedLists(s: State, home: RegionId, n: EntryId, after: Option<EntryId>)
    requires Core(s) && CanMove(s, home, n, after)
    ensures var q, from := Move(s, home, n, after), s.entries[n].linked;
            && q.mods.Keys == s.mods.Keys && home in s.mods && q.mods[home] == NewList(s, home, n, after)
            && (forall r :: r in s.mods && r != home ==>
                  q.mods[r] == if r == from then Without(s.mods[r], n) else s.mods[r])
            && NoDup(q.mods[home]) && n in q.mods[home]
            && (forall y :: y in q.mods[home] && y != n ==> y in s.mods[home])
            && (forall y :: y in s.mods[home] && y != n ==> y in q.mods[home])
  {
    hide MarkDirty, InsertAfter, Without, EntryOk, KeyOk, IsTree, NodeOk;
    var d := Detached(s, n);
    assert ModsOk(s, home) && ModsOk(s, s.entries[n].linked);
    WithoutFacts(s.mods[s.entries[n].linked], n);
    InsertFacts(d.mods[home], n, after);
  }

  lemma MovedCore(s: State, home: RegionId, n: EntryId, after: Option<EntryId>)
    requires Core(s) && CanMove(s, home, n, after)
    ensures Core(Move(s, home, n, after))
  {
    hide Detached, Attached, CanMove, NewList, EntryOk, ModsOk;
    var q := Move(s, home, n, after);
    MovedFields(s, home, n, after);
    MovedLists(s, home, n, after);
    forall e | e in q.entries ensures EntryOk(q, e) { MovedEntry(s, home, n, after, e); }
    forall k | k in q.registry ensures KeyOk(q, k) { assert KeyOk(s, k); }
    forall r | r in q.mods ensures ModsOk(q, r) { MovedList(s, home, n, after, r); }
  }

  lemma MovedEntry(s: State, home: RegionId, n: EntryId, after: Option<EntryId>, e: EntryId)
    requires Core(s) && CanMove(s, home, n, after) && e in s.entries
    ensures e in Move(s, home, n, after).entries && EntryOk(Move(s, home, n, after), e)
  {
    hide Detached, Attached, Without, NewList, KeyOk;
    MovedFields(s, home, n, after);
    MovedLists(s, home, n, after);
    EntryIsOk(s, e);
    assert ModsOk(s, s.entries[e].linked);
    WithoutFacts(s.mods[s.entries[e].linked], n);
  }

  lemma MovedList(s: State, home: RegionId, n: EntryId, after: Option<EntryId>, r: RegionId)
    requires Core(s) && CanMove(s, home, n, after) && r in s.mods
    ensures r in Move(s, home, n, after).mods && ModsOk(Move(s, home, n, after), r)
  {
    hide Detached, Attached, Without, NewList, KeyOk;
    MovedFields(s, home, n, after);
    MovedLists(s, home, n, after);
    assert ModsOk(s, r);
    WithoutFacts(s.mods[r], n);
    EntryIsOk(s, n);
  }

  /** Unlinking marks the old region, and linking the new one. */
  lemma MovedCaches(s: State, home: RegionId, n: EntryId, after: Option<EntryId>)
    requires Core(s) && CachesOk(s) && CanMove(s, home, n, after)
    ensures CachesOk(Move(s, home, n, after))
  {
    hide CachesOk, Detached, Attached, ListsOk, EntryOk, KeyOk;
    CoreLists(s);
    DetachedCaches(s, n);
    AttachedCaches(Detached(s, n), home, n, after);
  }

  lemma CoreLists(s: State)
    requires Core(s)
    ensures ListsOk(s)
  {}

  lemma DetachedCaches(s: State, n: EntryId)
    requires ListsOk(s) && Shape(s) && CachesOk(s) && n in s.entries && s.entries[n].linked in s.tree
    ensures var d := Detached(s, n); ListsOk(d) && CachesOk(d) && d.entries == s.entries && d.tree == s.tree
  {
    hide CachesOk, MarkDirty, Without, IsTree, NodeOk, Marked;
    var from, d := s.entries[n].linked, Detached(s, n);
    MarkDirtyMarks(s, d, from);
    CachesRelinked(s, d, from);
    forall r | r in d.mods ensures ModsOk(d, r) { assert ModsOk(s, r); WithoutFacts(s.mods[r], n); }
  }

  lemma AttachedCaches(d: State, home: RegionId, n: EntryId, after: Option<EntryId>)
    requires ListsOk(d) && Shape(d) && CachesOk(d) && home in d.tree && n in d.entries
    requires after.Some? ==> after.value in d.mods[home]
    ensures CachesOk(Attached(d, home, n, after))
  {
    hide CachesOk, MarkDirty, InsertAfter, ListsOk, IsTree, NodeOk, Marked;
    var q := Attached(d, home, n, after);
    MarkDirtyMarks(d, q, home);
    CachesRelinked(d, q, home);
  }

  lemma MovedSyms(s: State, q: State, n: EntryId)
    requires Shape(s) && Shape(q) && SymsOk(s) && n in s.entries && n in q.entries
    requires q.entries == s.entries[n := s.entries[n].(linked := q.entries[n].linked)]
    requires q.syms == s.syms && q.hooks == s.hooks && q.ctxs == s.ctxs && q.everShared == s.everShared
    ensures SymsOk(q)
  {
    hide Sound, Agree, Shape;
    forall x | x in q.entries ensures SymOk(q, x) { assert SymOk(s, x); }
  }

  lemma MovedCtxs(s: State, q: State)
    requires q.ctxs == s.ctxs && q.tree == s.tree && CtxsOk(s) && Prefixed(s.tree)
    ensures CtxsOk(q) && Prefixed(q.tree)
  {}

  lemma MovedSettled(s: State, home: RegionId, n: EntryId, after: Option<EntryId>)
    requires Core(s) && Settled(s) && CanMove(s, home, n, after) && Ordered(s.entries, NewList(s, home, n, after))
    requires Apart(s.tree) ==> s.entries[n].region == home
    ensures Settled(Move(s, home, n, after))
  {
    hide Detached, Attached, CanMove, NewList, EntryOk, KeyOk, ModsOk, Ordered, Apart;
    var q := Move(s, home, n, after);
    MovedFields(s, home, n, after);
    MovedLists(s, home, n, after);
    forall r | r in q.tree ensures Ordered(q.entries, q.mods[r]) {
      assert Ordered(s.entries, s.mods[r]);
      WithoutOrdered(s.entries, s.mods[r], n);
      OrderedSub(s.entries, q.entries, q.mods[r]);
    }
    if Registered(s) { forall e | e in q.entries ensures RegOk(q, e) { assert RegOk(s, e); } }
  }

  /** A module may stand behind what it does not come from and in front of what it does not come before. */
  lemma InsertOrdered(es: Entries, a: seq<EntryId>, e: EntryId, b: seq<EntryId>)
    requires Ordered(es, a + b) && e in es
    requires forall x :: x in a && x in es ==> !Desc(es, e, x)
    requires forall y :: y in b ==> !Desc(es, y, e)
    ensures Ordered(es, a + [e] + b)
  {
    hide Desc;
    var r, q, n := a + b, a + [e] + b, |a|;
    forall i, j | 0 <= i < j < |q| && q[i] in es ensures !Desc(es, q[j], q[i]) {
      assert q[i] == (if i < n then r[i] else if i == n then e else r[i - 1]);
      assert q[j] == (if j < n then r[j] else if j == n then e else r[j - 1]);
      if j == n { assert a[i] == q[i]; }
      else if i == n { assert b[j - n - 1] == q[j]; }
    }
  }
}
