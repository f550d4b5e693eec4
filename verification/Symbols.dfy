/**
 A module's symbol caches: one lazily filled slot per hook id, and a bitset of the
 hooks the module implements (src/libxylem-dispatch.c:45-95, src/libxylem.c:126-168,
 676-697, src/libxylem-internal.h:119-128).
 */
module Symbols {

  type ImageId = nat
  type Hook = string

  /** NULL (not resolved yet), XY_FN_NOT_FOUND, or a function of an image. */
  datatype FnSlot = Empty | Missing | Found(image: ImageId, hook: Hook)

  /** What dlopen yields, as far as symbols go: dlsym is membership in `exports`. */
  datatype Exports = Exports(image: ImageId, exports: set<Hook>)

  /** The abstract caches: fn_cache with its capacity, and the set of marked hook ids. */
  datatype SymTab = SymTab(fn: seq<FnSlot>, impl: set<nat>)

  const NO_SYMS := SymTab([], {})

  /** What dlsym answers, as fn_cache records it. */
  function Dlsym(x: Exports, name: Hook): (r: FnSlot)
    ensures r != Empty
  {
    if name in x.exports then Found(x.image, name) else Missing
  }

  /** module_ensure_fn_cache_cap. */
  function Grow(fn: seq<FnSlot>, needed: nat): (r: seq<FnSlot>)
    ensures |r| == (if |fn| < needed then needed else |fn|)
    ensures fn <= r
    ensures forall i :: |fn| <= i < |r| ==> r[i] == Empty
  {
    if needed <= |fn| then fn else fn + seq(needed - |fn|, _ => Empty)
  }

  /** Store what dlsym found for hook h, marking it when it is a function. */
  function Fill(t: SymTab, x: Exports, h: nat, name: Hook): (r: SymTab)
    requires h < |t.fn|
  {
    SymTab(t.fn[h := Dlsym(x, name)], if name in x.exports then t.impl + {h} else t.impl)
  }

  /** fn_cache_resolve. */
  function Resolve(t: SymTab, x: Exports, h: nat, name: Hook): (r: SymTab)
    ensures h < |r.fn| && r.fn[h] != Empty
  {
    if h < |t.fn| && t.fn[h] != Empty then t
    else
      var grown := t.(fn := if h < |t.fn| then t.fn else Grow(t.fn, h + 16));
      Fill(grown, x, h, name)
  }

  /** fn_cache_prewarm: hook id i is the position of its name in `hooks`. */
  function Prewarm(t: SymTab, x: Exports, hooks: seq<Hook>): SymTab {
    if hooks == [] then t
    else WarmFrom(t.(fn := Grow(t.fn, |hooks| + 16)), x, hooks, 0)
  }

  function WarmFrom(t: SymTab, x: Exports, hooks: seq<Hook>, i: nat): (r: SymTab)
    requires i <= |hooks| <= |t.fn|
    decreases |hooks| - i
  {
    if i == |hooks| then t
    else WarmFrom(if t.fn[i] != Empty then t else Fill(t, x, i, hooks[i]), x, hooks, i + 1)
  }

  /** module_clear_fn_cache_for_handle on one other module: its slots into `image` are emptied, its bits are not. */
  function Forget(t: SymTab, image: ImageId): (r: SymTab)
    ensures |r.fn| == |t.fn| && r.impl == t.impl
    ensures forall i :: 0 <= i < |t.fn| ==>
            r.fn[i] == if t.fn[i].Found? && t.fn[i].image == image then Empty else t.fn[i]
  {
    t.(fn := seq(|t.fn|, i requires 0 <= i < |t.fn| => if t.fn[i].Found? &&
      t.fn[i].image == image then Empty else t.fn[i]))
  }

  // ---- agreement of the two caches with the image ----

  /** Every slot is empty or what dlsym says, and unused ids have no verdict yet. */
  ghost predicate Sound(t: SymTab, x: Exports, hooks: seq<Hook>) {
    && (forall i :: 0 <= i < |t.fn| && t.fn[i] != Empty ==> i < |hooks| && t.fn[i] == Dlsym(x, hooks[i]))
    && (forall i :: i in t.impl ==> i < |hooks| && i < |t.fn| && hooks[i] in x.exports)
    && (forall i :: 0 <= i < |t.fn| && t.fn[i].Found? ==> i in t.impl)
  }

  /** Bit h is set iff slot h holds a function. */
  ghost predicate Agree(t: SymTab) {
    forall i :: i in t.impl <==> 0 <= i < |t.fn| && t.fn[i].Found?
  }

  lemma GrowSound(t: SymTab, x: Exports, hooks: seq<Hook>, needed: nat)
    requires Sound(t, x, hooks)
    ensures Sound(t.(fn := Grow(t.fn, needed)), x, hooks)
    ensures Agree(t) ==> Agree(t.(fn := Grow(t.fn, needed)))
  {
    var r := Grow(t.fn, needed);
    assert forall i :: 0 <= i < |t.fn| ==> r[i] == t.fn[i];
  }

  lemma ResolveSound(t: SymTab, x: Exports, hooks: seq<Hook>, h: nat)
    requires h < |hooks| && Sound(t, x, hooks)
    ensures Sound(Resolve(t, x, h, hooks[h]), x, hooks)
    ensures Agree(t) ==> Agree(Resolve(t, x, h, hooks[h]))
    ensures Agree(t) ==> (h in Resolve(t, x, h, hooks[h]).impl <==> hooks[h] in x.exports)
  {
    if !(h < |t.fn| && t.fn[h] != Empty) && h >= |t.fn| { GrowSound(t, x, hooks, h + 16); }
  }

  lemma {:induction false} WarmSound(t: SymTab, x: Exports, hooks: seq<Hook>, i: nat)
    requires i <= |hooks| <= |t.fn| && Sound(t, x, hooks)
    ensures Sound(WarmFrom(t, x, hooks, i), x, hooks)
    ensures Agree(t) ==> Agree(WarmFrom(t, x, hooks, i))
    ensures |WarmFrom(t, x, hooks, i).fn| == |t.fn|
    ensures forall k :: 0 <= k < |t.fn| && (k < i || t.fn[k] != Empty) ==> WarmFrom(t, x, hooks, i).fn[k] == t.fn[k]
    ensures forall k :: i <= k < |hooks| ==> WarmFrom(t, x, hooks, i).fn[k] == Dlsym(x, hooks[k])
    decreases |hooks| - i
  {
    if i < |hooks| {
      WarmSound(if t.fn[i] != Empty then t else Fill(t, x, i, hooks[i]), x, hooks, i + 1);
    }
  }

  /** Prewarming leaves no known hook unresolved. */
  lemma PrewarmSound(t: SymTab, x: Exports, hooks: seq<Hook>)
    requires Sound(t, x, hooks)
    ensures Sound(Prewarm(t, x, hooks), x, hooks)
    ensures Agree(t) ==> Agree(Prewarm(t, x, hooks))
    ensures forall h :: 0 <= h < |hooks| ==>
            h < |Prewarm(t, x, hooks).fn| && Prewarm(t, x, hooks).fn[h] == Dlsym(x, hooks[h])
  {
    if hooks != [] {
      GrowSound(t, x, hooks, |hooks| + 16);
      WarmSound(t.(fn := Grow(t.fn, |hooks| + 16)), x, hooks, 0);
    }
  }

  /** A newly minted hook id takes no verdict away. */
  lemma MintSound(t: SymTab, x: Exports, hooks: seq<Hook>, name: Hook)
    requires Sound(t, x, hooks)
    ensures Sound(t, x, hooks + [name])
  {}

  /**
   Unloading one user of an image strips the other users' slots but not their bits: the
   two caches still agree exactly when the other module had no function of that image.
   */
  lemma ForgetAgreesIff(t: SymTab, image: ImageId)
    requires Agree(t)
    ensures Agree(Forget(t, image)) <==> forall i :: 0 <= i < |t.fn| ==> !(t.fn[i].Found? && t.fn[i].image == image)
  {
    var r := Forget(t, image);
    if i :| 0 <= i < |t.fn| && t.fn[i].Found? && t.fn[i].image == image {
      assert i in r.impl && r.fn[i] == Empty;
    }
  }

  lemma ForgetSound(t: SymTab, x: Exports, hooks: seq<Hook>, image: ImageId)
    requires Sound(t, x, hooks)
    ensures Sound(Forget(t, image), x, hooks)
    ensures image != x.image ==> Forget(t, image) == t
  {
    var r := Forget(t, image);
    if image != x.image { assert r.fn == t.fn; }
  }
}
