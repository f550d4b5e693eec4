/**
 The region tree (src/papi.h:53-102): parent pointers, child lists, ancestry, and the
 depth-first module walk of a subtree (src/libxylem.c:219-236, 323-338).
 */
module RegionTree {
  import opened Wrappers
  import opened Bits
  import Lists

  type RegionId = nat
  type EntryId = nat

  const ROOT: RegionId := 0

  /** The tree part of a region record; `bits` is the width granted when it was claimed. */
  datatype Node = Node(parent: Option<RegionId>, depth: nat, plen: nat, bits: nat, children: seq<RegionId>)

  const ROOT_NODE := Node(None, 0, 0, 0, [])

  /** One record against its neighbours. */
  ghost predicate NodeOk(t: map<RegionId, Node>, r: RegionId)
    requires r in t
  {
    var n := t[r];
    && r < TWO64
    && n.depth <= n.plen <= 64
    && (n.parent.None? <==> r == ROOT)
    && (n.parent.Some? ==>
          && n.parent.value in t && n.parent.value < r
          && n.bits >= 1
          && n.depth == t[n.parent.value].depth + 1
          && n.plen == t[n.parent.value].plen + n.bits
          && r in t[n.parent.value].children)
    && Lists.NoDup(n.children)
    && forall c :: c in n.children ==> c in t && t[c].parent == Some(r)
  }

  ghost predicate IsTree(t: map<RegionId, Node>) {
    && ROOT in t && t[ROOT].plen == 0
    && forall r {:trigger NodeOk(t, r)} :: r in t ==> NodeOk(t, r)
  }

  type Tree = t: map<RegionId, Node> | IsTree(t) ghost witness map[ROOT := ROOT_NODE]

  /** a is d, or lies on d's parent chain. */
  predicate Anc(t: Tree, a: RegionId, d: RegionId)
    requires d in t
    decreases t[d].depth
  {
    assert NodeOk(t, d);
    a == d || (t[d].parent.Some? && Anc(t, a, t[d].parent.value))
  }

  /** d's ancestors and d itself, root first. */
  function Chain(t: Tree, d: RegionId): (c: seq<RegionId>)
    requires d in t
    ensures |c| == t[d].depth + 1
    ensures c[t[d].depth] == d && c[0] == ROOT
    ensures forall x :: x in c ==> x in t
    decreases t[d].depth
  {
    assert NodeOk(t, d);
    if t[d].parent.None? then [d] else Chain(t, t[d].parent.value) + [d]
  }

  /** The modules of r's subtree: r's own, then each child's subtree in list order. */
  function Dfs(t: Tree, mods: map<RegionId, seq<EntryId>>, r: RegionId): seq<EntryId>
    requires r in t && mods.Keys == t.Keys
    decreases 64 - t[r].depth, 1, 0
  {
    assert NodeOk(t, r);
    mods[r] + DfsAll(t, mods, r, t[r].children)
  }

  function DfsAll(t: Tree, mods: map<RegionId, seq<EntryId>>, r: RegionId, cs: seq<RegionId>): seq<EntryId>
    requires r in t && mods.Keys == t.Keys
    requires forall c :: c in cs ==> c in t && t[c].parent == Some(r)
    decreases 64 - t[r].depth, 0, |cs|
  {
    if cs == [] then []
    else
      assert NodeOk(t, cs[0]);
      Dfs(t, mods, cs[0]) + DfsAll(t, mods, r, cs[1..])
  }

  // ---- ancestry ----

  lemma {:induction false} AncChain(t: Tree, a: RegionId, d: RegionId)
    requires d in t
    ensures Anc(t, a, d) <==> a in Chain(t, d)
    decreases t[d].depth
  {
    assert NodeOk(t, d);
    if t[d].parent.Some? { AncChain(t, a, t[d].parent.value); }
  }

  lemma {:induction false} AncFacts(t: Tree, a: RegionId, d: RegionId)
    requires d in t && Anc(t, a, d)
    ensures a in t && a <= d && t[a].depth <= t[d].depth && t[a].plen <= t[d].plen
    ensures a != d ==> t[a].depth < t[d].depth
    decreases t[d].depth
  {
    assert NodeOk(t, d);
    if a != d { AncFacts(t, a, t[d].parent.value); }
  }

  lemma {:induction false} AncTrans(t: Tree, a: RegionId, b: RegionId, d: RegionId)
    requires d in t && Anc(t, b, d) && b in t && Anc(t, a, b)
    ensures Anc(t, a, d)
    decreases t[d].depth
  {
    assert NodeOk(t, d);
    if b != d { AncTrans(t, a, b, t[d].parent.value); }
  }

  lemma {:induction false} RootAnc(t: Tree, d: RegionId)
    requires d in t
    ensures Anc(t, ROOT, d)
    decreases t[d].depth
  {
    assert NodeOk(t, d);
    if d != ROOT { RootAnc(t, t[d].parent.value); }
  }

  /** Two ancestors of one region are comparable. */
  lemma {:induction false} AncLinear(t: Tree, a: RegionId, b: RegionId, d: RegionId)
    requires d in t && Anc(t, a, d) && Anc(t, b, d)
    ensures a in t && b in t && (Anc(t, a, b) || Anc(t, b, a))
    decreases t[d].depth
  {
    assert NodeOk(t, d);
    AncFacts(t, a, d);
    AncFacts(t, b, d);
    if a != d && b != d { AncLinear(t, a, b, t[d].parent.value); }
  }

  /** The ancestor chain is complete and fits xy_call's 65 slots. */
  lemma ChainFits(t: Tree, d: RegionId)
    requires d in t
    ensures |Chain(t, d)| == t[d].depth + 1 <= 65
    ensures Chain(t, d)[0] == ROOT && Chain(t, d)[t[d].depth] == d
    ensures forall a :: a in Chain(t, d) <==> Anc(t, a, d)
  {
    assert NodeOk(t, d);
    forall a ensures a in Chain(t, d) <==> Anc(t, a, d) { AncChain(t, a, d); }
  }

  // ---- the subtree walk ----

  /** The walk sees only the subtree: equal subtrees have equal walks. */
  lemma {:induction false} DfsFrame(t: Tree, m: map<RegionId, seq<EntryId>>,
                                    t': Tree, m': map<RegionId, seq<EntryId>>, r: RegionId)
    requires r in t && r in t' && m.Keys == t.Keys && m'.Keys == t'.Keys
    requires forall x :: x in t && Anc(t, r, x) ==> x in t' && t'[x].children == t[x].children && m'[x] == m[x]
    ensures Dfs(t', m', r) == Dfs(t, m, r)
    decreases 64 - t[r].depth, 1, 0
  {
    assert NodeOk(t, r) && NodeOk(t', r);
    assert Anc(t, r, r);
    DfsAllFrame(t, m, t', m', r, t[r].children);
  }

  lemma {:induction false} DfsAllFrame(t: Tree, m: map<RegionId, seq<EntryId>>,
                                       t': Tree, m': map<RegionId, seq<EntryId>>, r: RegionId, cs: seq<RegionId>)
    requires r in t && r in t' && m.Keys == t.Keys && m'.Keys == t'.Keys
    requires forall x :: x in t && Anc(t, r, x) ==> x in t' && t'[x].children == t[x].children && m'[x] == m[x]
    requires forall c :: c in cs ==> c in t && t[c].parent == Some(r)
    requires forall c :: c in cs ==> c in t' && t'[c].parent == Some(r)
    ensures DfsAll(t', m', r, cs) == DfsAll(t, m, r, cs)
    decreases 64 - t[r].depth, 0, |cs|
  {
    if cs != [] {
      var c := cs[0];
      assert NodeOk(t, c);
      forall x | x in t && Anc(t, c, x) ensures Anc(t, r, x) {
        assert Anc(t, r, c);
        AncTrans(t, r, c, x);
      }
      DfsFrame(t, m, t', m', c);
      DfsAllFrame(t, m, t', m', r, cs[1..]);
    }
  }

  /** The walk meets exactly the modules linked in regions of the subtree. */
  lemma {:induction false} DfsMember(t: Tree, m: map<RegionId, seq<EntryId>>, r: RegionId, e: EntryId)
    requires r in t && m.Keys == t.Keys
    ensures e in Dfs(t, m, r) <==> exists x :: x in t && Anc(t, r, x) && e in m[x]
    decreases 64 - t[r].depth, 1, 0
  {
    assert NodeOk(t, r);
    DfsAllMember(t, m, r, t[r].children, e);
    assert Anc(t, r, r);
    if x :| x in t && Anc(t, r, x) && e in m[x] {
      if x != r {
        var c := StepDown(t, r, x);
        assert c in t[r].children && Anc(t, c, x) && e in m[x];
      }
    }
    if c, x :| c in t[r].children && x in t && Anc(t, c, x) && e in m[x] {
      assert Anc(t, r, c) by { assert NodeOk(t, c); }
      AncTrans(t, r, c, x);
    }
  }

  lemma {:induction false} DfsAllMember(t: Tree, m: map<RegionId, seq<EntryId>>, r: RegionId, cs: seq<RegionId>,
                                        e: EntryId)
    requires r in t && m.Keys == t.Keys
    requires forall c :: c in cs ==> c in t && t[c].parent == Some(r)
    ensures e in DfsAll(t, m, r, cs) <==> exists c, x :: c in cs && x in t && Anc(t, c, x) && e in m[x]
    decreases 64 - t[r].depth, 0, |cs|
  {
    if cs != [] {
      assert NodeOk(t, cs[0]);
      DfsMember(t, m, cs[0], e);
      DfsAllMember(t, m, r, cs[1..], e);
      if c, x :| c in cs && x in t && Anc(t, c, x) && e in m[x] {
        if c != cs[0] { assert c in cs[1..]; }
      }
    }
  }

  /** A proper descendant lies under exactly one child on the way. */
  lemma {:induction false} StepDown(t: Tree, r: RegionId, x: RegionId) returns (c: RegionId)
    requires x in t && r in t && Anc(t, r, x) && r != x
    ensures c in t[r].children && c in t && Anc(t, c, x)
    decreases t[x].depth
  {
    assert NodeOk(t, x);
    var p := t[x].parent.value;
    if p == r { c := x; } else { c := StepDown(t, r, p); }
  }

  // ---- growing the tree ----

  /** p has room for a new child c of this width. */
  predicate Claimable(t: Tree, p: RegionId, c: RegionId, bits: nat) {
    p in t && c !in t && p < c < TWO64 && 1 <= bits && t[p].plen + bits <= 64
  }

  /** The tree with a new leaf in front of its parent's child list. */
  function AddLeaf(t: Tree, p: RegionId, c: RegionId, bits: nat): map<RegionId, Node>
    requires p in t
  {
    t[p := t[p].(children := [c] + t[p].children)]
     [c := Node(Some(p), t[p].depth + 1, t[p].plen + bits, bits, [])]
  }

  lemma AddLeafIsTree(t: Tree, p: RegionId, c: RegionId, bits: nat)
    requires Claimable(t, p, c, bits)
    ensures IsTree(AddLeaf(t, p, c, bits))
  {
    var t' := AddLeaf(t, p, c, bits);
    assert NodeOk(t, ROOT);
    assert c !in t[p].children by { assert NodeOk(t, p); }
    forall r | r in t' ensures NodeOk(t', r) {
      assert NodeOk(t, p);
      if r in t {
        assert NodeOk(t, r);
        if r == p { Lists.AppNoDup([c], t[p].children); }
      }
    }
  }

  /** Old regions keep their ancestors; the new leaf has its parent's, and itself. */
  lemma {:induction false} AddLeafAnc(t: Tree, p: RegionId, c: RegionId, bits: nat, t': Tree, a: RegionId, d: RegionId)
    requires Claimable(t, p, c, bits)
    requires t' == AddLeaf(t, p, c, bits) && d in t'
    ensures d in t ==> (Anc(t', a, d) <==> Anc(t, a, d))
    ensures d == c ==> (Anc(t', a, d) <==> a == c || Anc(t, a, p))
    decreases t'[d].depth
  {
    assert NodeOk(t', d);
    if d in t { assert NodeOk(t, d); }
    if t'[d].parent.Some? { AddLeafAnc(t, p, c, bits, t', a, t'[d].parent.value); }
  }

  // ---- how many regions there can be ----

  lemma {:induction false} IdsBelow(ids: set<RegionId>, n: nat)
    requires forall r :: r in ids ==> r < n
    ensures |ids| <= n
    decreases n
  {
    if n == 0 {
      assert ids == {};
    } else {
      IdsBelow(ids - {n - 1}, n - 1);
      if n - 1 !in ids { assert ids - {n - 1} == ids; }
    }
  }

  /** How many more regions the id space has room for. */
  function Room(t: Tree): (n: nat)
    ensures |t.Keys| + n == TWO64
  {
    assert forall r :: r in t.Keys ==> NodeOk(t, r);
    IdsBelow(t.Keys, TWO64);
    TWO64 - |t.Keys|
  }

  /** No two regions agree above the low four bits of their ids. */
  ghost predicate Apart(t: map<RegionId, Node>) {
    forall a, b :: a in t && b in t && a / 16 == b / 16 ==> a == b
  }

  /** Sameness of the parts of the tree a step may not touch. */
  ghost predicate Extends(t: map<RegionId, Node>, t': map<RegionId, Node>) {
    forall r :: r in t ==> r in t' && t'[r] == t[r].(children := t'[r].children)
  }

  lemma {:induction false} ExtendsAnc(t: Tree, t': Tree, a: RegionId, d: RegionId)
    requires Extends(t, t') && d in t
    ensures Anc(t', a, d) <==> Anc(t, a, d)
    decreases t[d].depth
  {
    assert NodeOk(t, d);
    if t[d].parent.Some? { ExtendsAnc(t, t', a, t[d].parent.value); }
  }
}
