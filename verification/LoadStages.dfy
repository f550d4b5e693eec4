/**
 The stages of the load transaction (src/libxylem-module.c:70-117), one state function
 each: publish, claim and re-key, link. Run one after the other they admit the module.
 */
module LoadStages {
  import opened Wrappers
  import opened Symbols
  import opened RegionTree
  import opened Keys
  import opened XylemState
  import opened Loading

  /** mod_load_alloc_entry, mod_load_publish_entry and mod_load_bind_xy, under the caller's region. */
  function Drafted(s: State, path: Path, image: Image): State {
    var e := s.nextEntry;
    s.(nextEntry := e + 1,
       entries := s.entries[e := Entry(path, image, s.cur, s.cur, 1, s.loading)],
       syms := s.syms[e := NO_SYMS],
       registry := s.registry[KeyAt(path, s.cur) := e],
       ctxs := if image.hasCtx then s.ctxs[image.id := s.cur] else s.ctxs,
       everShared := s.everShared || InUse(s.entries, image.id))
  }

  /** mod_load_enter_context. */
  function Entered(s: State): State {
    s.(curEntry := Some(s.cur))
  }

  /** A new child record under the current region, before the marks above it. */
  function Sprouted(s: State, id: RegionId, bits: nat): State
    requires Claimable(s.tree, s.cur, id, bits)
  {
    AddLeafIsTree(s.tree, s.cur, id, bits);
    s.(tree := AddLeaf(s.tree, s.cur, id, bits),
       mods := s.mods[id := []],
       caches := s.caches[id := NEW_CACHE],
       denies := s.denies[id := NO_DENIES],
       gates := s.gates[id := NO_GATE])
  }

  /**
   set_current_region and module_rekey_for_claim: the entry moves to the region, with its registry key and its
   context.
   */
  function Moved(s: State, e: EntryId, id: RegionId): State
    requires e in s.entries
  {
    var n := s.entries[e];
    s.(cur := id, curEntry := Some(id),
       entries := s.entries[e := n.(region := id)],
       registry := s.registry[KeyAt(n.path, id) := e] - {KeyAt(n.path, s.cur)},
       ctxs := if n.image.hasCtx then s.ctxs[n.image.id := id] else s.ctxs)
  }

  /** What a granted claim does. */
  function Rekeyed(s: State, e: EntryId, id: RegionId, bits: nat): (r: State)
    requires Shape(s) && Claimable(s.tree, s.cur, id, bits) && e in s.entries
    ensures Shape(r)
  {
    Moved(AddChild(s, id, bits), e, id)
  }

  /** module_region_append, to the region of the entry's id, and fn_cache_prewarm. */
  function Linked(s: State, e: EntryId): State
    requires e in s.entries && e in s.syms && s.entries[e].region in s.tree && s.entries[e].region in s.mods
  {
    var home := s.entries[e].region;
    s.(mods := s.mods[home := s.mods[home] + [e]],
       caches := MarkDirty(s.tree, s.caches, home),
       entries := s.entries[e := s.entries[e].(linked := home)],
       syms := s.syms[e := Prewarm(s.syms[e], s.entries[e].image.Syms(), s.hooks)])
  }

  /** The marks above a new child do not reach it. */
  lemma SproutedMarks(s: State, id: RegionId, bits: nat)
    requires Shape(s) && Claimable(s.tree, s.cur, id, bits)
    ensures var r := Sprouted(s, id, bits);
            Shape(r) && r.(caches := MarkDirty(r.tree, r.caches, r.cur)) == AddChild(s, id, bits)
  {
    hide AddLeaf, MarkDirty;
    AddLeafExtends(s.tree, s.cur, id, bits);
    MarkedBesideLeaf(s.tree, s.caches, s.cur, id, bits);
  }

  lemma MarkedBesideLeaf(t: Tree, caches: map<RegionId, RegionCache>, p: RegionId, id: RegionId, bits: nat)
    requires Claimable(t, p, id, bits) && caches.Keys == t.Keys
    ensures IsTree(AddLeaf(t, p, id, bits))
    ensures MarkDirty(AddLeaf(t, p, id, bits), caches[id := NEW_CACHE], p) == MarkDirty(t, caches, p)[id := NEW_CACHE]
  {
    hide AddLeaf;
    AddLeafIsTree(t, p, id, bits);
    AddLeafExtends(t, p, id, bits);
    forall x ensures Anc(AddLeaf(t, p, id, bits), x, p) <==> Anc(t, x, p) {
      AddLeafAnc(t, p, id, bits, AddLeaf(t, p, id, bits), x, p);
    }
    if Anc(t, id, p) { AncFacts(t, id, p); }
  }

  /** The transaction up to the claim. */
  function Staged(w: World, s: State, path: Path, image: Image): (r: State)
    requires Shape(s)
    ensures Shape(r) && s.nextEntry in r.entries && r.entries[s.nextEntry].region in r.tree
  {
    hide MarkDirty, AddLeaf;
    var d, v := Entered(Drafted(s, path, image)), Decide(w, s, path, image);
    if v.Granted? then Rekeyed(d, s.nextEntry, v.id, v.bits) else d
  }

  /** mod_load_abort before anything was linked. */
  function Scrapped(s: State, e: EntryId): State
    requires e in s.entries
  {
    s.(entries := s.entries - {e}, syms := s.syms - {e}, registry := s.registry - {KeyOf(s.entries[e])})
  }

  /** Withdrawing a module is detaching it and scrapping its entry. */
  lemma WithdrawnIs(s: State, e: EntryId)
    requires Core(s) && e in s.entries
    ensures s.entries[e].linked in s.tree && Withdraw(s, e) == Scrapped(Detached(s, e), e)
  {
    hide MarkDirty, KeyOk, ModsOk;
    EntryIsOk(s, e);
  }

  lemma DraftedShape(s: State, path: Path, image: Image)
    requires Shape(s)
    ensures Shape(Drafted(s, path, image)) && Shape(Entered(Drafted(s, path, image)))
    ensures var d := Entered(Drafted(s, path, image));
            && d.tree == s.tree && d.cur == s.cur && s.nextEntry in d.entries && d.entries[s.nextEntry].region == s.cur
  {}

  /** The claim is decided on the caller's region, which publishing does not touch. */
  lemma DecidedAlike(w: World, s: State, path: Path, image: Image)
    requires Shape(s)
    ensures Shape(Entered(Drafted(s, path, image)))
    ensures Decide(w, Entered(Drafted(s, path, image)), path, image) == Decide(w, s, path, image)
  {}

  /** A refused load undone is the trace that Bind describes. */
  lemma ScrappedIsBind(s: State, path: Path, image: Image)
    requires Core(s) && KeyAt(path, s.cur) !in s.registry
    ensures var d := Entered(Drafted(s, path, image));
            s.nextEntry in d.entries && Scrapped(d.(curEntry := s.curEntry), s.nextEntry) == Bind(s, image, s.cur)
  {
    FreshId(s);
    UndoEntry(s.entries, s.nextEntry, Entry(path, image, s.cur, s.cur, 1, s.loading));
    UndoEntry(s.syms, s.nextEntry, NO_SYMS);
    UndoEntry(s.registry, KeyAt(path, s.cur), s.nextEntry);
  }

  /** Without a claim, the stages admit the module in the caller's region. */
  lemma FlatStages(w: World, s: State, path: Path, image: Image)
    requires Ready(s) && Decide(w, s, path, image) == Flat && KeyAt(path, s.cur) !in s.registry
    ensures var d := Entered(Drafted(s, path, image));
            && Shape(d) && s.nextEntry in d.entries && d.entries[s.nextEntry].region in d.tree
            && Linked(d, s.nextEntry) == Entered(Admit(w, s, path, image, Flat))
  {
    hide Decide, Linked, MarkDirty, Prewarm, EntryOk, KeyOk, ModsOk;
    assert Entered(Drafted(s, path, image)) == Placed(s, path, image, s.cur);
    LinkedMove(s, path, image, s.cur);
  }

  lemma SetTwice<K, V>(m: map<K, V>, k: K, v: V, u: V)
    ensures m[k := v][k := u] == m[k := u]
  {}

  /** With a granted claim, they admit it in the new child region. */
  lemma GrantedStages(w: World, s: State, path: Path, image: Image, id: RegionId, bits: nat)
    requires Ready(s) && Decide(w, s, path, image) == Granted(id, bits) && KeyAt(path, s.cur) !in s.registry
    ensures var d := Entered(Drafted(s, path, image));
            && Shape(d) && id !in d.tree && s.nextEntry in d.entries
            && var r := Rekeyed(d, s.nextEntry, id, bits);
            && s.nextEntry in r.entries && r.entries[s.nextEntry].region in r.tree
            && Linked(r, s.nextEntry) == Within(Admit(w, s, path, image, Granted(id, bits)), id, s.loading)
  {
    hide Decide, Rekeyed, Linked, Drafted, MarkDirty, Prewarm, EntryOk, KeyOk, ModsOk, Placed, AddLeaf;
    DraftedShape(s, path, image);
    RekeyedDraft(s, Entered(Drafted(s, path, image)), path, image, id, bits);
    LinkedMove(AddChild(s, id, bits), path, image, id);
  }

  /**
   Publishing under the parent and re-keying is putting the entry under the child, and deleting
   it from the parent.
   */
  lemma RekeyedDraft(s: State, d: State, path: Path, image: Image, id: RegionId, bits: nat)
    requires Shape(s) && Claimable(s.tree, s.cur, id, bits) && KeyAt(path, s.cur) !in s.registry
    requires s.cur != id && d == Entered(Drafted(s, path, image)) && Shape(d) && s.nextEntry in d.entries
    ensures Rekeyed(d, s.nextEntry, id, bits) == Placed(AddChild(s, id, bits), path, image, id)
  {
    hide MarkDirty, AddLeaf, Shape;
    SetTwice(s.entries, s.nextEntry, Entry(path, image, s.cur, s.cur, 1, s.loading),
      Entry(path, image, id, s.cur, 1, s.loading));
    SetTwice(s.ctxs, image.id, s.cur, id);
  }

  /** An entry published for region home, which is current, but not linked there yet. */
  function Placed(s: State, path: Path, image: Image, home: RegionId): State {
    var e := s.nextEntry;
    Bind(s, image, home).(
      cur := home, curEntry := Some(home),
      entries := s.entries[e := Entry(path, image, home, s.cur, 1, s.loading)],
      syms := s.syms[e := NO_SYMS],
      registry := Put(s.registry, path, s.cur, home, e))
  }

  lemma LinkedMove(s: State, path: Path, image: Image, home: RegionId)
    requires Shape(s) && home in s.tree
    ensures var r := Placed(s, path, image, home);
            && Shape(r) && s.nextEntry in r.entries && r.entries[s.nextEntry].region in r.tree
            && Linked(r, s.nextEntry) == Within(Enroll(s, path, image, home), home, s.loading)
  {
    hide MarkDirty, Prewarm;
    SetTwice(s.syms, s.nextEntry, NO_SYMS, Prewarm(NO_SYMS, image.Syms(), s.hooks));
    SetTwice(s.entries, s.nextEntry, Entry(path, image, home, s.cur, 1, s.loading),
      Entry(path, image, home, home, 1, s.loading));
  }

  /** Linking the published entry, moved by a claim or not, completes its admission. */
  lemma LinkStages(w: World, s: State, path: Path, image: Image)
    requires Ready(s) && !Decide(w, s, path, image).Refused? && KeyAt(path, s.cur) !in s.registry
    ensures var v := Decide(w, s, path, image);
            Linked(Staged(w, s, path, image), s.nextEntry) == Within(Admit(w, s, path, image, v), HomeOf(s, v),
              s.loading)
  {
    hide Decide, Rekeyed, Linked, Admit, EntryOk, KeyOk, ModsOk, Drafted, MarkDirty, AddLeaf;
    var v := Decide(w, s, path, image);
    match v
    case Granted(id, bits) => GrantedStages(w, s, path, image, id, bits);
    case Flat => FlatStages(w, s, path, image); AdmitFacts(w, s, path, image, v);
  }
}
