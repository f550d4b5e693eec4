/**
 The intrusive module list of a region (src/papi.h:86-87, src/libxylem.c:620-674,
 760-775): real links, head and tail, against the sequence they stand for.
 */
module IntrusiveList {
  import opened Wrappers
  import Lists

  class ModNode {
    var regionNext: ModNode?
    var regionPrev: ModNode?
    var regionEntry: ModList?

    constructor ()
      ensures regionEntry == null
    {
      regionNext, regionPrev, regionEntry := null, null, null;
    }
  }

  class ModList {
    var modsHead: ModNode?
    var modsTail: ModNode?
    ghost var nodes: seq<ModNode>

    ghost predicate Valid()
      reads this, nodes
    {
      && Lists.NoDup(nodes)
      && modsHead == At(nodes, 0)
      && modsTail == At(nodes, |nodes| - 1)
      && (forall i {:trigger nodes[i].regionEntry} :: 0 <= i < |nodes| ==> nodes[i].regionEntry == this)
      && (forall i {:trigger nodes[i].regionPrev} :: 0 <= i < |nodes| ==> nodes[i].regionPrev == At(nodes, i - 1))
      && (forall i {:trigger nodes[i].regionNext} :: 0 <= i < |nodes| ==> nodes[i].regionNext == At(nodes, i + 1))
    }

    static ghost function At(s: seq<ModNode>, i: int): ModNode? {
      if 0 <= i < |s| then s[i] else null
    }

    constructor ()
      ensures Valid() && nodes == []
    {
      modsHead, modsTail, nodes := null, null, [];
    }

    /** module_region_insert_after: behind `after`, or at the head when it is null. */
    method InsertAfter(entry: ModNode, after: ModNode?)
      requires Valid() && entry !in nodes
      requires after != null ==> after in nodes
      modifies this, nodes, entry
      ensures Valid()
      ensures nodes == Lists.InsertAfter(old(nodes), entry, if after == null then None else Some(after))
    {
      InsertedHead(nodes, entry);
      ghost var was := nodes;
      if after == null {
        LinkHead(entry);
        assert nodes == Lists.InsertAfter(was, entry, None);
      } else {
        LinkBehind(entry, after);
      }
    }

    static lemma InsertedHead(s: seq<ModNode>, entry: ModNode)
      ensures Lists.InsertAfter(s, entry, None) == [entry] + s
    {}

    method LinkHead(entry: ModNode)
      requires Valid() && entry !in nodes
      modifies this, nodes, entry
      ensures Valid() && nodes == [entry] + old(nodes)
    {
      ghost var was := nodes;
      Lists.InsertFacts(was, entry, None);
      entry.regionEntry := this;
      entry.regionPrev := null;
      entry.regionNext := modsHead;
      if modsHead != null { modsHead.regionPrev := entry; } else { modsTail := entry; }
      modsHead := entry;
      nodes := [entry] + was;
      assert nodes == was[..0] + [entry] + was[0..];
      InsertedIsValid(was, 0, entry);
    }

    method LinkBehind(entry: ModNode, after: ModNode)
      requires Valid() && entry !in nodes && after in nodes
      modifies this, nodes, entry
      ensures Valid() && nodes == Lists.InsertAfter(old(nodes), entry, Some(after))
    {
      ghost var was, i := nodes, Lists.IndexOf(nodes, after) + 1;
      assert was[i - 1] == after;
      Lists.InsertFacts(was, entry, Some(after));
      entry.regionEntry := this;
      entry.regionPrev := after;
      entry.regionNext := after.regionNext;
      if after.regionNext != null { after.regionNext.regionPrev := entry; } else { modsTail := entry; }
      after.regionNext := entry;
      nodes := was[..i] + [entry] + was[i..];
      InsertedIsValid(was, i, entry);
    }

    /** What the rewired links of InsertAfter say about the longer sequence. */
    lemma InsertedIsValid(was: seq<ModNode>, i: nat, entry: ModNode)
      requires i <= |was| && nodes == was[..i] + [entry] + was[i..] && Lists.NoDup(nodes)
      requires modsHead == (if i == 0 then entry else At(was, 0))
      requires modsTail == (if i == |was| then entry else At(was, |was| - 1))
      requires entry.regionEntry == this && entry.regionPrev == At(was, i - 1) && entry.regionNext == At(was, i)
      requires forall k {:trigger was[k].regionEntry} :: 0 <= k < |was| ==> was[k].regionEntry == this
      requires forall k {:trigger was[k].regionPrev} :: 0 <= k < |was| ==>
               was[k].regionPrev == if k == i then entry else At(was, k - 1)
      requires forall k {:trigger was[k].regionNext} :: 0 <= k < |was| ==>
               was[k].regionNext == if k == i - 1 then entry else At(was, k + 1)
      ensures Valid()
    {
      assert forall k :: i < k < |nodes| ==> nodes[k] == was[k - 1];
    }

    /** What the rewired links of Unlink say about the shorter sequence. */
    lemma UnlinkedIsValid(was: seq<ModNode>, i: nat)
      requires i < |was| && nodes == was[..i] + was[i + 1..] && Lists.NoDup(nodes)
      requires modsHead == (if i == 0 then At(was, 1) else At(was, 0))
      requires modsTail == (if i == |was| - 1 then At(was, i - 1) else At(was, |was| - 1))
      requires forall k {:trigger was[k].regionEntry} :: 0 <= k < |was| ==> was[k].regionEntry == this
      requires forall k {:trigger was[k].regionPrev} :: 0 <= k < |was| && k != i ==>
               was[k].regionPrev == At(was, if k == i + 1 then i - 1 else k - 1)
      requires forall k {:trigger was[k].regionNext} :: 0 <= k < |was| && k != i ==>
               was[k].regionNext == At(was, if k == i - 1 then i + 1 else k + 1)
      ensures Valid()
    {
      assert forall k :: i <= k < |nodes| ==> nodes[k] == was[k + 1];
    }

    /** module_region_append. */
    method Append(entry: ModNode)
      requires Valid() && entry !in nodes
      modifies this, nodes, entry
      ensures Valid() && nodes == old(nodes) + [entry]
    {
      if nodes != [] { Lists.IndexAt(nodes, |nodes| - 1); }
      InsertAfter(entry, modsTail);
    }

    /** The unlinking shared by detach and abort: everything but the entry's own fields. */
    method Unlink(entry: ModNode)
      requires Valid() && entry in nodes
      modifies this, nodes
      ensures Valid() && nodes == Lists.Without(old(nodes), entry)
      ensures entry !in nodes && entry.regionEntry == this
    {
      ghost var was, n := nodes, |nodes|;
      ghost var i: int := Lists.IndexOf(nodes, entry);
      assert was[i] == entry;
      Lists.WithoutFacts(was, entry);
      if entry.regionPrev != null { entry.regionPrev.regionNext := entry.regionNext; }
      else { modsHead := entry.regionNext; }
      if entry.regionNext != null { entry.regionNext.regionPrev := entry.regionPrev; }
      else { modsTail := entry.regionPrev; }
      assert forall k {:trigger was[k].regionPrev} :: 0 <= k < n && k != i ==>
        was[k].regionPrev == At(was, if k == i + 1 then i - 1 else k - 1);
      assert forall k {:trigger was[k].regionNext} :: 0 <= k < n && k != i ==>
        was[k].regionNext == At(was, if k == i - 1 then i + 1 else k + 1);
      nodes := was[..i] + was[i + 1..];
      UnlinkedIsValid(was, i);
    }

    /** module_region_detach clears the entry's links but leaves its region pointer. */
    method Detach(entry: ModNode)
      requires Valid() && entry in nodes
      modifies this, nodes
      ensures Valid() && nodes == Lists.Without(old(nodes), entry)
      ensures entry.regionNext == null && entry.regionPrev == null && entry.regionEntry == this
    {
      Unlink(entry);
      entry.regionPrev := null;
      entry.regionNext := null;
    }

    /** The unlinking in mod_load_abort, which clears the region pointer instead. */
    method AbortUnlink(entry: ModNode)
      requires Valid() && entry in nodes
      modifies this, nodes
      ensures Valid() && nodes == Lists.Without(old(nodes), entry)
      ensures entry.regionEntry == null
    {
      Unlink(entry);
      entry.regionEntry := null;
    }

    /** The forward walk of region_collect_subtree_mods meets exactly the sequence. */
    method Walk() returns (met: seq<ModNode>)
      requires Valid()
      ensures met == nodes
    {
      met := [];
      var me := modsHead;
      while me != null
        invariant |met| <= |nodes| && met == nodes[..|met|]
        invariant me == At(nodes, |met|)
        decreases |nodes| - |met|
      {
        assert nodes[|met|] == me;
        met := met + [me];
        me := me.regionNext;
      }
    }
  }

  /** An entry is in at most one region's list. */
  lemma OneRegion(a: ModList, b: ModList, n: ModNode)
    requires a.Valid() && b.Valid()
    requires n in a.nodes && n in b.nodes
    ensures a == b
  {
    var i :| 0 <= i < |a.nodes| && a.nodes[i] == n;
    var j :| 0 <= j < |b.nodes| && b.nodes[j] == n;
    assert a.nodes[i].regionEntry == a && b.nodes[j].regionEntry == b;
  }

  // ---- the lists of all regions ----

  /** Every list is well linked; by OneRegion, no two then share an entry. */
  ghost predicate AllValid(lists: set<ModList>)
    reads lists, Members(lists)
  {
    forall l :: l in lists ==> (assert forall n :: n in l.nodes ==> n in Members(lists); l.Valid())
  }

  /** The entries that some list holds. */
  ghost function Members(lists: set<ModList>): set<ModNode>
    reads lists
  {
    set l, n | l in lists && n in l.nodes :: n
  }

  /** No list holds the entry. */
  ghost predicate Loose(lists: set<ModList>, entry: ModNode)
    reads lists
  {
    forall l :: l in lists ==> entry !in l.nodes
  }

  /** The nodes of one list are not those of another. */
  lemma Separate(lists: set<ModList>, re: ModList)
    requires AllValid(lists) && re in lists
    ensures forall l, i :: l in lists && l != re && 0 <= i < |l.nodes| ==> l.nodes[i] !in re.nodes
  {
    forall l, i | l in lists && l != re && 0 <= i < |l.nodes| ensures l.nodes[i] !in re.nodes {
      if l.nodes[i] in re.nodes { OneRegion(l, re, l.nodes[i]); }
    }
  }

  /** A list stays as it is while a step writes elsewhere. */
  twostate lemma Untouched(l: ModList)
    requires old(l.Valid()) && unchanged(l) && forall i {:trigger l.nodes[i]} :: 0 <= i < |l.nodes| ==>
             unchanged(l.nodes[i])
    ensures l.Valid()
  {
    assert forall i :: 0 <= i < |l.nodes| ==> unchanged(l.nodes[i]);
  }

  /** module_region_insert_after on one of the lists: the entry must be loose, and the other lists stay as they are. */
  method RegionInsertAfter(ghost lists: set<ModList>, re: ModList, entry: ModNode, after: ModNode?)
    requires AllValid(lists) && re in lists && Loose(lists, entry)
    requires after != null ==> after in re.nodes
    modifies re, re.nodes, entry
    ensures AllValid(lists)
    ensures re.nodes == Lists.InsertAfter(old(re.nodes), entry, if after == null then None else Some(after))
    ensures forall l :: l in lists && l != re ==> l.nodes == old(l.nodes)
  {
    Separate(lists, re);
    re.InsertAfter(entry, after);
    forall l | l in lists && l != re ensures l.Valid() { Untouched(l); }
  }

  /** module_region_append on one of the lists. */
  method RegionAppend(ghost lists: set<ModList>, re: ModList, entry: ModNode)
    requires AllValid(lists) && re in lists && Loose(lists, entry)
    modifies re, re.nodes, entry
    ensures AllValid(lists)
    ensures re.nodes == old(re.nodes) + [entry]
    ensures forall l :: l in lists && l != re ==> l.nodes == old(l.nodes)
  {
    Separate(lists, re);
    re.Append(entry);
    forall l | l in lists && l != re ensures l.Valid() { Untouched(l); }
  }

  /** module_region_detach: the entry's region pointer finds the list, and the entry is loose afterwards. */
  method RegionDetach(ghost lists: set<ModList>, entry: ModNode)
    requires AllValid(lists) && !Loose(lists, entry)
    modifies entry.regionEntry, if entry.regionEntry != null then entry.regionEntry.nodes else []
    ensures AllValid(lists) && Loose(lists, entry)
    ensures old(entry.regionEntry) in lists
    ensures forall l :: l in lists ==>
            l.nodes == if l == old(entry.regionEntry) then Lists.Without(old(l.nodes), entry) else old(l.nodes)
  {
    Holder(lists, entry);
    var re: ModList := entry.regionEntry;
    Separate(lists, re);
    re.Detach(entry);
    forall l | l in lists && l != re ensures l.Valid() { Untouched(l); }
  }

  /** The unlinking in mod_load_abort. */
  method RegionAbort(ghost lists: set<ModList>, entry: ModNode)
    requires AllValid(lists) && !Loose(lists, entry)
    modifies entry.regionEntry, if entry.regionEntry != null then entry.regionEntry.nodes else []
    ensures AllValid(lists) && Loose(lists, entry)
    ensures old(entry.regionEntry) in lists
    ensures forall l :: l in lists ==>
            l.nodes == if l == old(entry.regionEntry) then Lists.Without(old(l.nodes), entry) else old(l.nodes)
  {
    Holder(lists, entry);
    var re: ModList := entry.regionEntry;
    Separate(lists, re);
    re.AbortUnlink(entry);
    forall l | l in lists && l != re ensures l.Valid() { Untouched(l); }
  }

  /** A linked entry's region pointer names the list that holds it. */
  lemma Holder(lists: set<ModList>, entry: ModNode)
    requires AllValid(lists) && !Loose(lists, entry)
    ensures entry.regionEntry != null && entry.regionEntry in lists && entry in entry.regionEntry.nodes
  {
    var l :| l in lists && entry in l.nodes;
    var i :| 0 <= i < |l.nodes| && l.nodes[i] == entry;
    assert l.nodes[i].regionEntry == l;
  }
}
