/**
 The growable arrays behind a module's symbol caches: fn_cache and the bitset
 hook_impl_bits of 64-bit words, each grown by reallocation.
 */
module SymbolArrays {
  import opened Bits
  import opened Symbols

  class SymbolCache {
    var fnCache: array<FnSlot>
    var implBits: array<nat>

    ghost predicate Valid()
      reads this, implBits
    {
      forall w :: 0 <= w < implBits.Length ==> implBits[w] < TWO64
    }

    /** The abstract caches these arrays stand for. */
    ghost function Tab(): SymTab
      reads this, fnCache, implBits
    {
      SymTab(fnCache[..], Marked(implBits[..]))
    }

    constructor ()
      ensures Valid() && Tab() == NO_SYMS && fresh(fnCache) && fresh(implBits)
    {
      fnCache := new FnSlot[0];
      implBits := new nat[0];
    }

    /** module_ensure_fn_cache_cap: realloc, then NULL in the new slots. */
    method EnsureFnCap(needed: nat)
      requires Valid()
      modifies this`fnCache
      ensures Valid() && implBits == old(implBits)
      ensures fnCache == old(fnCache) || fresh(fnCache)
      ensures Tab() == old(Tab().(fn := Grow(Tab().fn, needed)))
    {
      if needed <= fnCache.Length { return; }
      var was, tmp := fnCache, new FnSlot[needed];
      for i := 0 to was.Length
        invariant forall k :: 0 <= k < i ==> tmp[k] == was[k]
        modifies tmp
      {
        tmp[i] := was[i];
      }
      for i := was.Length to needed
        invariant tmp[..was.Length] == was[..]
        invariant forall k :: was.Length <= k < i ==> tmp[k] == Empty
        modifies tmp
      {
        tmp[i] := Empty;
      }
      assert tmp[..] == Grow(was[..], needed);
      fnCache := tmp;
    }

    /** module_ensure_hook_impl_words. */
    method EnsureImplWords(h: nat)
      requires Valid()
      modifies this`implBits
      ensures Valid() && fnCache == old(fnCache)
      ensures implBits == old(implBits) || fresh(implBits)
      ensures h / 64 < implBits.Length
      ensures Tab() == old(Tab())
    {
      var needed := h / 64 + 1;
      if needed <= implBits.Length { return; }
      var was, tmp := implBits, new nat[needed];
      for i := 0 to was.Length
        invariant forall k :: 0 <= k < i ==> tmp[k] == was[k]
        modifies tmp
      {
        tmp[i] := was[i];
      }
      for i := was.Length to needed
        invariant tmp[..was.Length] == was[..]
        invariant forall k :: was.Length <= k < i ==> tmp[k] == 0
        modifies tmp
      {
        tmp[i] := 0;
      }
      ZeroWordsMarkNothing(was[..], tmp[..]);
      implBits := tmp;
    }

    /** module_mark_hook_implemented. */
    method MarkImplemented(h: nat)
      requires Valid()
      modifies this, implBits
      ensures Valid() && fnCache == old(fnCache)
      ensures implBits == old(implBits) || fresh(implBits)
      ensures Tab() == old(Tab().(impl := Tab().impl + {h}))
    {
      EnsureImplWords(h);
      ghost var was := implBits[..];
      Pow2Word();
      Pow2Mono(h % 64, 63);
      OrFits(implBits[h / 64], Pow2(h % 64), 64);
      implBits[h / 64] := Or(implBits[h / 64], Pow2(h % 64));
      assert implBits[..] == was[h / 64 := Or(was[h / 64], Pow2(h % 64))];
      SetBitMarks(was, h);
    }

    /** module_has_hook_implemented. */
    method HasHook(h: int) returns (b: bool)
      requires Valid()
      ensures b <==> h in Tab().impl
    {
      if h < 0 || h / 64 >= implBits.Length { return false; }
      return Bit(implBits[h / 64], h % 64);
    }

    /** fn_cache_resolve: NULL becomes a verdict, asked of dlsym once. */
    method Lookup(x: Exports, h: nat, name: Hook) returns (cb: FnSlot)
      requires Valid()
      modifies this, fnCache, implBits
      ensures Valid()
      ensures Tab() == Resolve(old(Tab()), x, h, name) && cb == Tab().fn[h]
    {
      if h < fnCache.Length {
        cb := fnCache[h];
        if cb != Empty { return; }
      } else {
        EnsureFnCap(h + 16);
      }
      cb := Dlsym(x, name);
      fnCache[h] := cb;
      if cb.Found? { MarkImplemented(h); }
    }

    /** fn_cache_prewarm. */
    method Warm(x: Exports, hooks: seq<Hook>)
      requires Valid()
      modifies this, fnCache, implBits
      ensures Valid() && Tab() == Prewarm(old(Tab()), x, hooks)
    {
      if hooks == [] { return; }
      EnsureFnCap(|hooks| + 16);
      ghost var grown := Tab();
      for i := 0 to |hooks|
        invariant Valid() && |hooks| <= fnCache.Length
        invariant fnCache == old(fnCache) || fresh(fnCache)
        invariant implBits == old(implBits) || fresh(implBits)
        invariant WarmFrom(Tab(), x, hooks, i) == WarmFrom(grown, x, hooks, 0)
      {
        if fnCache[i] != Empty { continue; }
        ghost var t := Tab();
        var cb := Dlsym(x, hooks[i]);
        fnCache[i] := cb;
        if cb.Found? { MarkImplemented(i); }
        assert Tab() == Fill(t, x, i, hooks[i]);
      }
    }

    /** The inner loop of module_clear_fn_cache_for_handle. */
    method ForgetImage(image: ImageId)
      requires Valid()
      modifies fnCache
      ensures Valid() && Tab() == Forget(old(Tab()), image)
    {
      for i := 0 to fnCache.Length
        invariant forall k :: 0 <= k < i ==> fnCache[k] == Forget(old(Tab()), image).fn[k]
        invariant forall k :: i <= k < fnCache.Length ==> fnCache[k] == old(fnCache[k])
      {
        if fnCache[i].Found? && fnCache[i].image == image { fnCache[i] := Empty; }
      }
      assert fnCache[..] == Forget(old(Tab()), image).fn;
    }
  }

  /** The hook ids whose bits are set in the words. */
  ghost function Marked(words: seq<nat>): set<nat> {
    set h: nat | 0 <= h < 64 * |words| && Bit(words[h / 64], h % 64)
  }

  lemma ZeroWordsMarkNothing(a: seq<nat>, b: seq<nat>)
    requires a <= b
    requires forall k :: |a| <= k < |b| ==> b[k] == 0
    ensures Marked(a) == Marked(b)
  {
    forall h: nat ensures h in Marked(a) <==> h in Marked(b) {
      ZeroBit(h % 64);
      if h < 64 * |b| && h >= 64 * |a| { assert b[h / 64] == 0; }
    }
  }

  /** Marking one hook leaves every other hook's membership as it was. */
  lemma SetBitMarks(words: seq<nat>, h: nat)
    requires h / 64 < |words|
    ensures Marked(words[h / 64 := Or(words[h / 64], Pow2(h % 64))]) == Marked(words) + {h}
  {
    var r := words[h / 64 := Or(words[h / 64], Pow2(h % 64))];
    forall k: nat ensures k in Marked(r) <==> k in Marked(words) || k == h {
      if k < 64 * |words| && k / 64 == h / 64 {
        OrBit(words[h / 64], Pow2(h % 64), k % 64);
        OneBit(h % 64, k % 64);
      }
    }
  }
}
