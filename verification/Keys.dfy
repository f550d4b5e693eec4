/**
 The composite registry key "path NUL region-in-hex" (src/libxylem.c:384-398), built
 by snprintf in a buffer one byte too short for its last hex digit.
 */
module Keys {
  import opened Bits

  type Text = seq<char>

  const NUL: char := '\0'
  const SUFFIX_LEN := 17

  predicate NulFree(p: Text) {
    forall i :: 0 <= i < |p| ==> p[i] != NUL
  }

  /** A C string: a path holds no NUL. */
  type Path = p: Text | NulFree(p) witness []

  function HexDigit(d: nat): (c: char)
    requires d < 16
    ensures c != NUL
  {
    "0123456789abcdef"[d]
  }

  /** The n low hex digits of x, most significant first: "%0<n>llx" for x < 16^n. */
  function Hex(x: nat, n: nat): (r: Text)
    ensures |r| == n
  {
    if n == 0 then [] else Hex(x / 16, n - 1) + [HexDigit(x % 16)]
  }

  /** snprintf: the text cut to the capacity less one, then a terminating NUL. */
  function Snprintf(cap: nat, text: Text): (r: Text)
    requires cap > 0
  {
    (if |text| < cap then text else text[..cap - 1]) + [NUL]
  }

  function ModKey(path: Text, region: nat): Text {
    Snprintf(|path| + SUFFIX_LEN, path + [NUL] + Hex(region, 16))
  }

  function StrLen(s: Text): (n: nat)
    ensures n <= |s|
    ensures forall i :: 0 <= i < n ==> s[i] != NUL
    ensures n < |s| ==> s[n] == NUL
  {
    if s == [] || s[0] == NUL then 0 else 1 + StrLen(s[1..])
  }

  /** The bytes the registry compares: as many as mod_key_measure reports. */
  function Measured(blob: Text): Text {
    var n := StrLen(blob) + SUFFIX_LEN;
    if n <= |blob| then blob[..n] else blob
  }

  lemma StrLenIs(s: Text, n: nat)
    requires n < |s| && s[n] == NUL && NulFree(s[..n])
    ensures StrLen(s) == n
  {
    assert forall i :: 0 <= i < n ==> s[i] == s[..n][i];
  }

  /** Only 15 of the 16 hex digits survive, and all of the blob is compared. */
  lemma KeyBytes(path: Text, region: nat)
    requires NulFree(path)
    ensures Measured(ModKey(path, region)) == path + [NUL] + Hex(region / 16, 15) + [NUL]
  {
    var text := path + [NUL] + Hex(region, 16);
    var blob := ModKey(path, region);
    assert text[..|path| + 16] == path + [NUL] + Hex(region / 16, 15);
    assert blob[..|path|] == path;
    StrLenIs(blob, |path|);
    assert blob[..|blob|] == blob;
  }

  lemma {:induction false} HexInjective(x: nat, y: nat, n: nat)
    requires x < Pow2(4 * n) && y < Pow2(4 * n)
    requires Hex(x, n) == Hex(y, n)
    ensures x == y
  {
    if n > 0 {
      assert 4 * n == 4 + 4 * (n - 1) && Pow2(4) == 16;
      Pow2Add(4, 4 * (n - 1));
      var a, b := Hex(x, n), Hex(y, n);
      assert a[..n - 1] == Hex(x / 16, n - 1) && b[..n - 1] == Hex(y / 16, n - 1);
      HexInjective(x / 16, y / 16, n - 1);
      assert a[n - 1] == HexDigit(x % 16) && b[n - 1] == HexDigit(y % 16);
    }
  }

  /** Two registry keys collide exactly when the paths agree and the region ids agree above their low four bits. */
  lemma KeysEqualIff(p: Text, a: nat, q: Text, b: nat)
    requires NulFree(p) && NulFree(q) && a < TWO64 && b < TWO64
    ensures Measured(ModKey(p, a)) == Measured(ModKey(q, b)) <==> p == q && a / 16 == b / 16
  {
    KeyBytes(p, a);
    KeyBytes(q, b);
    var ka, kb := Measured(ModKey(p, a)), Measured(ModKey(q, b));
    if ka == kb {
      assert |p| == |q|;
      assert p == ka[..|p|] == kb[..|p|] == q;
      assert Hex(a / 16, 15) == ka[|p| + 1..|p| + 16] == kb[|p| + 1..|p| + 16] == Hex(b / 16, 15);
      Pow2Word();
      assert Pow2(64) == 16 * Pow2(60);
      HexInjective(a / 16, b / 16, 15);
    }
  }

  /**
   What the bytes under which the registry stores a module tell apart: its path, and its region
   above the low four bits.
   */
  datatype Key = Key(path: Path, high: nat)

  function KeyAt(path: Path, region: nat): Key {
    Key(path, region / 16)
  }

  /** Modules are stored under the same bytes exactly when their keys are the same. */
  lemma KeyIsBytes(p: Path, a: nat, q: Path, b: nat)
    requires a < TWO64 && b < TWO64
    ensures Measured(ModKey(p, a)) == Measured(ModKey(q, b)) <==> KeyAt(p, a) == KeyAt(q, b)
  {
    KeysEqualIff(p, a, q, b);
  }

  /** Region ids whose prefixes are at most 60 bits long have their low four bits clear, so the key tells them apart. */
  lemma KeyInjective(p: Text, a: nat, m: nat, q: Text, b: nat, n: nat)
    requires NulFree(p) && NulFree(q) && a < TWO64 && b < TWO64
    requires m <= 60 && n <= 60
    requires a % Pow2(WORD - m) == 0 && b % Pow2(WORD - n) == 0
    requires Measured(ModKey(p, a)) == Measured(ModKey(q, b))
    ensures p == q && a == b
  {
    KeysEqualIff(p, a, q, b);
    ModCoarse(a, 60 - m, 4);
    ModCoarse(b, 60 - n, 4);
    assert Pow2(4) == 16;
  }
}
