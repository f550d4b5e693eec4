/**
 Region ids as 64-bit prefixes: the slot allocator (src/libxylem.c:1204-1231) and what the
 ids it hands out say about ancestry (src/papi.h:35-43).
 */
module RegionIds {
  import opened Wrappers
  import opened Bits
  import opened RegionTree

  /** XY_REGION_INVALID, (uint64_t)-1. */
  const INVALID: RegionId := TWO64 - 1

  /** The id probed for slot s: `parent->id | (s << slot_shift)`. */
  function Candidate(pid: RegionId, s: nat, cplen: nat): RegionId
    requires cplen <= 64
  {
    Or(pid, Shl(s, 64 - cplen))
  }

  /** How many slots the do-while loop tries; num_slots wraps to 0 at full width, which the loop counts as 2^64. */
  function SlotCount(cplen: nat, bits: nat): nat {
    if cplen == 64 then TWO64 else Pow2(bits)
  }

  function FirstFree(used: set<RegionId>, pid: RegionId, cplen: nat, s: nat, n: nat): RegionId
    requires cplen <= 64 && s <= n
    decreases n - s
  {
    if s == n then INVALID
    else if Candidate(pid, s, cplen) !in used then Candidate(pid, s, cplen)
    else FirstFree(used, pid, cplen, s + 1, n)
  }

  /** region_alloc_slot as a function of the ids in use. */
  function AllocSlot(used: set<RegionId>, pid: RegionId, plen: nat, bits: nat): RegionId {
    if plen + bits > 64 then INVALID
    else FirstFree(used, pid, plen + bits, 0, SlotCount(plen + bits, bits))
  }

  /** region_alloc_slot: the probing loop, with its 64-bit counter. */
  method RegionAllocSlot(used: set<RegionId>, pid: RegionId, plen: nat, bits: nat) returns (id: RegionId)
    requires bits <= 64
    ensures id == AllocSlot(used, pid, plen, bits)
  {
    hide Candidate, Pow2, SlotCount;
    var cplen := plen + bits;
    if cplen > 64 { return INVALID; }
    var numSlots := if cplen == 64 then 0 else Pow2(bits);
    ghost var n := SlotCount(cplen, bits);
    SlotCountFits(plen, bits);
    var s := 0;
    while true
      invariant s < n <= TWO64
      invariant FirstFree(used, pid, cplen, s, n) == AllocSlot(used, pid, plen, bits)
      decreases n - s
    {
      var candidate := Candidate(pid, s, cplen);
      if candidate !in used { return candidate; }
      ghost var t := s + 1;
      s := (s + 1) % TWO64;
      if s == numSlots { break; }
      assert s == t;
    }
    return INVALID;
  }

  lemma SlotCountFits(plen: nat, bits: nat)
    requires plen + bits <= 64
    ensures plen + bits == 64 ==> SlotCount(plen + bits, bits) == TWO64
    ensures plen + bits < 64 ==> 1 <= SlotCount(plen + bits, bits) == Pow2(bits) < TWO64
  {
    Pow2Word();
    if plen + bits < 64 { Pow2Mono(bits, 63); assert Pow2(64) == 2 * Pow2(63); }
  }

  // ---- what the allocator promises ----

  /** Below full width the probed ids are the parent's id plus multiples of the slot size. */
  lemma CandidateIs(pid: RegionId, s: nat, plen: nat, bits: nat)
    requires plen + bits < 64 && s < Pow2(bits)
    requires pid < TWO64 && pid % Pow2(64 - plen) == 0
    ensures Candidate(pid, s, plen + bits) == pid + s * Pow2(64 - plen - bits)
    ensures s * Pow2(64 - plen - bits) + Pow2(64 - plen - bits) <= Pow2(64 - plen)
    ensures pid + Pow2(64 - plen) <= TWO64
  {
    var x := s * Pow2(64 - plen - bits);
    SlotOffset(s, 64 - plen - bits, bits);
    TopRoom(pid, plen);
    SmallShl(s, 64 - plen - bits);
    OrIsAdd(pid, x, 64 - plen);
  }

  lemma SmallShl(s: nat, k: nat)
    requires s * Pow2(k) < TWO64
    ensures Shl(s, k) == s * Pow2(k)
  {
    var x := s * Pow2(k);
    MulMono(0, s, Pow2(k));
    assert x % TWO64 == x;
  }

  lemma SlotOffset(s: nat, k: nat, bits: nat)
    requires s < Pow2(bits)
    ensures 0 <= s * Pow2(k) && s * Pow2(k) + Pow2(k) <= Pow2(bits + k)
  {
    Pow2Add(bits, k);
    MulMono(s + 1, Pow2(bits), Pow2(k));
    MulMono(0, s, Pow2(k));
    MulDist(s, 1, Pow2(k));
  }

  /** An aligned id leaves room for its whole interval below 2^64. */
  lemma TopRoom(x: nat, plen: nat)
    requires plen <= 64 && x < TWO64 && x % Pow2(64 - plen) == 0
    ensures x + Pow2(64 - plen) <= TWO64
  {
    var m := Pow2(64 - plen);
    Pow2Word();
    Pow2Add(plen, 64 - plen);
    Below(x, m);
    if x / m >= Pow2(plen) { MulMono(Pow2(plen), x / m, m); }
    MulMono(x / m + 1, Pow2(plen), m);
    MulDist(x / m, 1, m);
  }

  lemma {:induction false} FirstFreeIs(used: set<RegionId>, pid: RegionId, cplen: nat, s: nat, n: nat) returns (t: nat)
    requires cplen <= 64 && s <= n
    ensures s <= t <= n && forall u :: s <= u < t ==> Candidate(pid, u, cplen) in used
    ensures t < n ==> FirstFree(used, pid, cplen, s, n) == Candidate(pid, t, cplen) && Candidate(pid, t, cplen) !in used
    ensures t == n ==> FirstFree(used, pid, cplen, s, n) == INVALID
    decreases n - s
  {
    if s == n || Candidate(pid, s, cplen) !in used { t := s; }
    else { t := FirstFreeIs(used, pid, cplen, s + 1, n); }
  }

  /** The id of slot s of width `bits` under pid. */
  function SlotId(pid: RegionId, plen: nat, bits: nat, s: nat): RegionId
    requires plen + bits <= 64
  {
    pid + s * Pow2(64 - plen - bits)
  }

  /** A slot's id is aligned, extends the parent's prefix, and is never the sentinel. */
  lemma SlotInRange(pid: RegionId, plen: nat, bits: nat, s: nat)
    requires plen + bits < 64 && s < Pow2(bits)
    requires pid < TWO64 && pid % Pow2(64 - plen) == 0
    ensures SlotId(pid, plen, bits, s) < INVALID
    ensures SlotId(pid, plen, bits, s) % Pow2(64 - plen - bits) == 0
    ensures TopBits(SlotId(pid, plen, bits, s), plen) == pid
  {
    CandidateIs(pid, s, plen, bits);
    SlotAligned(pid, plen, bits, s);
    MulMono(0, s, Pow2(64 - plen - bits));
    TopBitsSplit(SlotId(pid, plen, bits, s), plen, pid);
    assert Pow2(64 - plen - bits) == 2 * Pow2(64 - plen - bits - 1);
  }

  lemma AllocScan(used: set<RegionId>, pid: RegionId, plen: nat, bits: nat) returns (t: nat)
    requires plen + bits < 64
    requires pid < TWO64 && pid % Pow2(64 - plen) == 0
    ensures t <= Pow2(bits) && forall u :: 0 <= u < t ==> SlotId(pid, plen, bits, u) in used
    ensures t < Pow2(bits) ==>
            SlotId(pid, plen, bits, t) !in used && AllocSlot(used, pid, plen, bits) == SlotId(pid, plen, bits, t)
    ensures t == Pow2(bits) ==> AllocSlot(used, pid, plen, bits) == INVALID
  {
    t := FirstFreeIs(used, pid, plen + bits, 0, Pow2(bits));
    forall u | 0 <= u < Pow2(bits) ensures Candidate(pid, u, plen + bits) == SlotId(pid, plen, bits, u) {
      CandidateIs(pid, u, plen, bits);
    }
  }

  /**
   Below full width the allocator is exact: it fails iff every slot is taken, and
   otherwise grants the lowest free one, a fresh id with the parent's prefix and
   nothing below its own.
   */
  lemma AllocExact(used: set<RegionId>, pid: RegionId, plen: nat, bits: nat)
    requires plen + bits < 64
    requires pid < TWO64 && pid % Pow2(64 - plen) == 0
    ensures AllocSlot(used, pid, plen, bits) == INVALID <==>
            forall s :: 0 <= s < Pow2(bits) ==> SlotId(pid, plen, bits, s) in used
    ensures var id := AllocSlot(used, pid, plen, bits); id != INVALID ==>
            && id !in used
            && id < TWO64 && id % Pow2(64 - plen - bits) == 0
            && TopBits(id, plen) == pid
            && exists s :: 0 <= s < Pow2(bits) && id == SlotId(pid, plen, bits, s)
                           && forall u :: 0 <= u < s ==> SlotId(pid, plen, bits, u) in used
  {
    var t := AllocScan(used, pid, plen, bits);
    if t < Pow2(bits) { SlotInRange(pid, plen, bits, t); }
  }

  lemma SlotAligned(pid: RegionId, plen: nat, bits: nat, s: nat)
    requires plen + bits <= 64 && pid % Pow2(64 - plen) == 0
    ensures SlotId(pid, plen, bits, s) % Pow2(64 - plen - bits) == 0
  {
    var k := 64 - plen - bits;
    var m, q := Pow2(k), pid / Pow2(k);
    ModCoarse(pid, bits, k);
    Below(pid, m);
    MulDist(q, s, m);
    ModMultiple(q + s, m);
  }

  /**
   At full width the loop may run past the granted slots: the grant keeps the parent's prefix iff a granted slot
   was free.
   */
  lemma AllocAt64Iff(used: set<RegionId>, pid: RegionId, plen: nat, bits: nat)
    requires plen + bits == 64 && pid < TWO64 && pid % Pow2(bits) == 0
    requires AllocSlot(used, pid, plen, bits) != INVALID
    ensures TopBits(AllocSlot(used, pid, plen, bits), plen) == pid <==>
            exists s :: 0 <= s < Pow2(bits) && SlotId(pid, plen, bits, s) !in used
  {
    var id := AllocSlot(used, pid, plen, bits);
    var t := FirstFreeIs(used, pid, 64, 0, TWO64);
    TopBitsSplit(id, plen, pid);
    if s :| 0 <= s < Pow2(bits) && SlotId(pid, plen, bits, s) !in used {
      WideCandidate(pid, s, plen, bits);
      WideCandidate(pid, t, plen, bits);
    }
    if TopBits(id, plen) == pid {
      assert SlotId(pid, plen, bits, id - pid) == id;
    }
  }

  lemma WideCandidate(pid: RegionId, s: nat, plen: nat, bits: nat)
    requires plen + bits == 64 && pid % Pow2(bits) == 0 && s < Pow2(bits)
    ensures Candidate(pid, s, 64) == SlotId(pid, plen, bits, s) == pid + s
    ensures s < TWO64
  {
    Pow2Word();
    Pow2Mono(bits, 64);
    assert Shl(s, 0) == s;
    OrIsAdd(pid, s, bits);
  }

  /** A second one-bit claim under a 63-bit prefix leaves the parent's prefix. */
  lemma AllocEscapesAt64()
    ensures AllocSlot({0, 2, 3}, 2, 63, 1) == 6 && TopBits(6, 63) != 2
  {
    var used: set<RegionId> := {0, 2, 3};
    assert forall s: nat :: s < 8 ==> Shl(s, 0) == s;
    assert Or(2, 0) == 2;
    assert Or(1, 0) == 1 && Or(2, 1) == 3;
    assert Or(1, 1) == 1 && Or(2, 2) == 2;
    assert Or(2, 3) == 3;
    assert Or(1, 2) == 3 && Or(2, 4) == 6;
    assert FirstFree(used, 2, 64, 4, TWO64) == 6;
    assert FirstFree(used, 2, 64, 2, TWO64) == 6;
    assert FirstFree(used, 2, 64, 0, TWO64) == 6;
    assert Pow2(1) == 2;
  }

  // ---- ids along the tree ----

  /** r's id is aligned to its own prefix, and extends its parent's unless it was granted at full width. */
  ghost predicate PrefixOk(t: Tree, r: RegionId)
    requires r in t
  {
    assert NodeOk(t, r);
    && r < TWO64
    && r % Pow2(64 - t[r].plen) == 0
    && (t[r].parent.Some? && t[r].plen < 64 ==> TopBits(r, t[t[r].parent.value].plen) == t[r].parent.value)
  }

  ghost predicate Prefixed(t: Tree) {
    forall r {:trigger PrefixOk(t, r)} :: r in t ==> PrefixOk(t, r)
  }

  /** No region's prefix is longer than 60 bits. */
  ghost predicate Shallow(t: Tree) {
    forall r :: r in t ==> t[r].plen <= 60
  }

  /** Ids of at most 60 bits are multiples of 16, so no two of them share the digits of their keys. */
  lemma ShallowApart(t: Tree)
    requires Prefixed(t) && Shallow(t)
    ensures Apart(t)
  {
    forall r | r in t ensures r % 16 == 0 {
      assert PrefixOk(t, r);
      ModCoarse(r, 60 - t[r].plen, 4);
    }
  }

  /** Every grant of the allocator keeps the ids prefixes. */
  lemma ClaimPrefixed(t: Tree, p: RegionId, bits: nat, t': Tree)
    requires Prefixed(t) && p in t && 1 <= bits && t[p].plen + bits <= 64
    requires var c := AllocSlot(t.Keys, p, t[p].plen, bits); c != INVALID && t' == AddLeaf(t, p, c, bits)
    ensures Prefixed(t')
  {
    var c := AllocSlot(t.Keys, p, t[p].plen, bits);
    assert PrefixOk(t, p);
    if t[p].plen + bits < 64 { AllocExact(t.Keys, p, t[p].plen, bits); }
    else { AllocFresh(t.Keys, p, t[p].plen, bits); }
    forall r | r in t' ensures PrefixOk(t', r) {
      assert NodeOk(t', r);
      if r != c { assert NodeOk(t, r) && PrefixOk(t, r); }
    }
  }

  /** A granted id is unused, a word, and above its parent's, at any width. */
  lemma AllocFresh(used: set<RegionId>, pid: RegionId, plen: nat, bits: nat)
    requires AllocSlot(used, pid, plen, bits) != INVALID && pid < TWO64
    ensures AllocSlot(used, pid, plen, bits) !in used && AllocSlot(used, pid, plen, bits) < TWO64 && plen + bits <= 64
    ensures pid in used ==> pid < AllocSlot(used, pid, plen, bits)
  {
    Pow2Word();
    var t := FirstFreeIs(used, pid, plen + bits, 0, SlotCount(plen + bits, bits));
    OrFits(pid, Shl(t, 64 - plen - bits), 64);
    OrAbove(pid, Shl(t, 64 - plen - bits));
  }

  lemma SelfPrefix(t: Tree, a: RegionId)
    requires Prefixed(t) && a in t
    ensures t[a].plen <= 64 && TopBits(a, t[a].plen) == a
  {
    assert NodeOk(t, a) && PrefixOk(t, a);
    TopBitsSplit(a, t[a].plen, a);
  }

  /** Every ancestor's id is the ancestor-long prefix of its descendants' ids. */
  lemma {:induction false} AncestorsArePrefixes(t: Tree, a: RegionId, d: RegionId)
    requires Prefixed(t) && d in t && t[d].plen < 64 && Anc(t, a, d)
    ensures a in t && t[a].plen <= 64 && TopBits(d, t[a].plen) == a
    decreases t[d].depth
  {
    assert NodeOk(t, d) && PrefixOk(t, d);
    if a == d { SelfPrefix(t, a); }
    else {
      var p := t[d].parent.value;
      AncFacts(t, a, p);
      AncestorsArePrefixes(t, a, p);
      assert NodeOk(t, p);
      TopBitsNested(d, t[a].plen, t[p].plen);
    }
  }

  /** Each region grants one width to all its children. */
  ghost predicate Uniform(t: Tree) {
    forall c, d :: c in t && d in t && t[c].parent == t[d].parent ==> t[c].bits == t[d].bits
  }

  lemma {:induction false} ChainStep(t: Tree, d: RegionId, k: nat)
    requires d in t && k <= t[d].depth
    ensures Chain(t, d)[k] in t && t[Chain(t, d)[k]].depth == k && Anc(t, Chain(t, d)[k], d)
    ensures k > 0 ==> t[Chain(t, d)[k]].parent == Some(Chain(t, d)[k - 1])
    decreases t[d].depth
  {
    assert NodeOk(t, d);
    if k < t[d].depth { ChainStep(t, t[d].parent.value, k); }
    else if k > 0 { assert Chain(t, d)[k - 1] == t[d].parent.value; }
  }

  /** With uniform grants, an id that has a's prefix has a's ancestors. */
  lemma {:induction false} PrefixSharesChain(t: Tree, a: RegionId, d: RegionId, k: nat)
    requires Prefixed(t) && Uniform(t) && a in t && d in t && t[a].plen < 64 && t[d].plen < 64
    requires TopBits(d, t[a].plen) == a
    requires k <= t[a].depth && k <= t[d].depth
    ensures Chain(t, a)[k] == Chain(t, d)[k]
  {
    if k > 0 {
      PrefixSharesChain(t, a, d, k - 1);
      ChainStep(t, a, k);
      ChainStep(t, d, k);
      var u, v := Chain(t, a)[k], Chain(t, d)[k];
      assert NodeOk(t, u) && NodeOk(t, v);
      assert t[u].plen == t[v].plen;
      AncestorsArePrefixes(t, u, a);
      AncestorsArePrefixes(t, v, d);
      AncFacts(t, u, a);
      TopBitsNested(d, t[u].plen, t[a].plen);
    }
  }

  /** The O(1) prefix test of src/papi.h:39-40 is ancestor-or-self, when every region grants one width. */
  lemma PrefixTestIsAncestry(t: Tree, a: RegionId, d: RegionId)
    requires Prefixed(t) && Uniform(t) && a in t && d in t && t[a].plen < 64 && t[d].plen < 64
    ensures TopBits(d, t[a].plen) == a <==> Anc(t, a, d)
  {
    if Anc(t, a, d) { AncestorsArePrefixes(t, a, d); }
    if TopBits(d, t[a].plen) == a {
      if t[a].depth <= t[d].depth {
        PrefixSharesChain(t, a, d, t[a].depth);
        ChainStep(t, d, t[a].depth);
      } else {
        PrefixSharesChain(t, a, d, t[d].depth);
        ChainStep(t, a, t[d].depth);
        AncFacts(t, d, a);
        SelfPrefix(t, a);
        SelfPrefix(t, d);
        TopBitsNested(d, t[d].plen, t[a].plen);
        CoarserSelf(t, a, d);
      }
    }
  }

  lemma CoarserSelf(t: Tree, a: RegionId, d: RegionId)
    requires Prefixed(t) && a in t && d in t && t[d].plen <= t[a].plen
    ensures t[a].plen <= 64 && TopBits(d, t[a].plen) == d
  {
    assert NodeOk(t, a) && NodeOk(t, d) && PrefixOk(t, d);
    ModCoarse(d, t[a].plen - t[d].plen, 64 - t[a].plen);
    TopBitsSplit(d, t[a].plen, d);
  }

  // ---- how many children a width can have ----

  lemma {:induction false} SlotsBound(ids: set<RegionId>, pid: RegionId, plen: nat, bits: nat, n: nat)
    requires n >= 1 && plen + bits <= 64
    requires forall c :: c in ids ==> exists s :: 1 <= s < n && c == SlotId(pid, plen, bits, s)
    ensures |ids| <= n - 1
    decreases n
  {
    if n == 1 {
      assert ids == {};
    } else {
      var last := SlotId(pid, plen, bits, n - 1);
      SlotsBound(ids - {last}, pid, plen, bits, n - 1);
      if last !in ids { assert ids - {last} == ids; }
    }
  }

  ghost function ChildrenOfWidth(t: Tree, p: RegionId, b: nat): set<RegionId> {
    set c | c in t && t[c].parent == Some(p) && t[c].bits == b
  }

  /** Below full width, a region has at most 2^b - 1 children of width b: slot 0 is its own id. */
  lemma ChildrenBound(t: Tree, p: RegionId, b: nat)
    requires Prefixed(t) && p in t && 1 <= b && t[p].plen + b < 64
    ensures |ChildrenOfWidth(t, p, b)| <= Pow2(b) - 1
  {
    var ids := ChildrenOfWidth(t, p, b);
    forall c | c in ids ensures exists s :: 1 <= s < Pow2(b) && c == SlotId(p, t[p].plen, b, s) {
      ChildIsSlot(t, p, b, c);
    }
    SlotsBound(ids, p, t[p].plen, b, Pow2(b));
  }

  /** At full width there can be more: grants of the allocator that give a region of 63 bits two children of one bit. */
  lemma ChildrenExceedAt64() returns (t: Tree)
    ensures Prefixed(t) && 2 in t && t[2].plen == 63 && |ChildrenOfWidth(t, 2, 1)| > Pow2(1) - 1
  {
    hide AllocSlot, Prefixed, IsTree, NodeOk, TopBits;
    var used: set<RegionId> := {0, 2};
    FirstGrants();
    AllocEscapesAt64();
    var t0: Tree := RootTree();
    assert t0.Keys == {0};
    var t1 := Grown(t0, ROOT, 63, 2);
    assert t1.Keys == used;
    var t2 := Grown(t1, 2, 1, 3);
    assert t2.Keys == {0, 2, 3};
    t := Grown(t2, 2, 1, 6);
    assert ChildrenOfWidth(t, 2, 1) == {3, 6};
    assert Pow2(1) == 2;
  }

  lemma FirstGrants()
    ensures AllocSlot({0}, ROOT, 0, 63) == 2 && AllocSlot({0, 2}, 2, 63, 1) == 3
  {
    var one: set<RegionId> := {0};
    var two: set<RegionId> := {0, 2};
    Pow2Word();
    Pow2Mono(1, 63);
    assert Pow2(1) == 2 && Pow2(0) == 1;
    assert Shl(0, 1) == 0 && Shl(1, 1) == 2;
    assert FirstFree(one, ROOT, 63, 1, Pow2(63)) == 2;
    assert Shl(0, 0) == 0 && Shl(1, 0) == 1;
    assert Or(2, 0) == 2 && Or(1, 0) == 1 && Or(2, 1) == 3;
    assert FirstFree(two, 2, 64, 1, TWO64) == 3;
  }

  lemma RootTree() returns (t: Tree)
    ensures t == map[ROOT := ROOT_NODE] && Prefixed(t)
  {
    assert NodeOk(map[ROOT := ROOT_NODE], ROOT);
    t := map[ROOT := ROOT_NODE];
    assert PrefixOk(t, ROOT);
  }

  /** A claim that the allocator answers with c. */
  lemma Grown(t: Tree, p: RegionId, bits: nat, c: RegionId) returns (t': Tree)
    requires Prefixed(t) && p in t && 1 <= bits && t[p].plen + bits <= 64
    requires AllocSlot(t.Keys, p, t[p].plen, bits) == c != INVALID
    ensures c !in t && t' == AddLeaf(t, p, c, bits) && Prefixed(t')
  {
    assert NodeOk(t, p);
    AllocFresh(t.Keys, p, t[p].plen, bits);
    AddLeafIsTree(t, p, c, bits);
    t' := AddLeaf(t, p, c, bits);
    ClaimPrefixed(t, p, bits, t');
  }

  lemma ChildIsSlot(t: Tree, p: RegionId, b: nat, c: RegionId)
    requires Prefixed(t) && p in t && c in t && t[c].parent == Some(p) && t[c].bits == b && t[p].plen + b < 64
    ensures exists s :: 1 <= s < Pow2(b) && c == SlotId(p, t[p].plen, b, s)
  {
    assert NodeOk(t, p) && PrefixOk(t, p) && NodeOk(t, c) && PrefixOk(t, c);
    ChildSlot(p, t[p].plen, b, c);
  }

  lemma ChildSlot(p: RegionId, plen: nat, b: nat, c: RegionId)
    requires plen + b < 64 && p % Pow2(64 - plen) == 0 && c % Pow2(64 - plen - b) == 0
    requires TopBits(c, plen) == p && c != p
    ensures exists s :: 1 <= s < Pow2(b) && c == SlotId(p, plen, b, s)
  {
    var m := Pow2(64 - plen - b);
    TopBitsSplit(c, plen, p);
    ModCoarse(p, b, 64 - plen - b);
    Below(p, m);
    Below(c, m);
    var s := c / m - p / m;
    MulDist(c / m, p / m, m);
    assert s * m == c - p;
    Pow2Add(b, 64 - plen - b);
    if s >= Pow2(b) { MulMono(Pow2(b), s, m); }
    if s <= 0 { MulMono(s, 0, m); }
    assert c == SlotId(p, plen, b, s);
  }
}
