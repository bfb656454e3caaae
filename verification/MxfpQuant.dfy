/** Four-bit quantisation with a power-of-two scale per group: how far a row read
    back can be from the row. */
module MxfpQuant {
  import opened Formats
  import opened IntArith
  import opened RealArith
  import opened Sums

  function Abs(x: real): real { if x < 0.0 then -x else x }

  // ---- Scale bytes, nibbles ------------------------------------------------

  /** ceil(log2(r)), exact. */
  ghost predicate CeilLog2(log: real -> int) {
    forall r :: r > 0.0 ==> IsCeil(log(r), r)
  }

  predicate IsCeil(e: int, r: real) { Pow2(e - 1) < r <= Pow2(e) }

  lemma {:induction false} PowersGrow(n: nat)
    ensures Pow2(n) >= n as real + 1.0
  {
    if n > 0 { PowersGrow(n - 1); }
  }

  lemma {:induction false} PowersInvert(n: nat)
    ensures Pow2(n) > 0.0 && Pow2(0 - n) == 1.0 / Pow2(n)
  {
    Pow2Step(n);
    if n > 0 { PowersInvert(n - 1); }
  }

  lemma {:induction false} CeilBetween(r: real, lo: int, hi: int) returns (e: int)
    requires lo < hi && Pow2(lo) < r <= Pow2(hi)
    ensures lo < e <= hi && IsCeil(e, r)
    decreases hi - lo
  {
    hide Pow2;
    if lo + 1 < hi && r <= Pow2(hi - 1) {
      e := CeilBetween(r, lo, hi - 1);
    } else {
      e := hi;
    }
  }

  /** Every positive number has such a logarithm. */
  lemma CeilOf(r: real) returns (e: int)
    requires r > 0.0
    ensures Pow2(e - 1) < r <= Pow2(e)
  {
    var above, below := r.Floor + 1, (1.0 / r).Floor + 1;
    PowersGrow(above);
    PowersGrow(below);
    PowersInvert(below);
    assert Pow2(below) > 1.0 / r;
    Smaller(r, Pow2(below));
    Pow2Step(above);
    hide Pow2;
    if -below >= above { Pow2Mono(above, -below); }
    e := CeilBetween(r, -below, above);
  }

  ghost function CeilLog(r: real): (e: int)
    requires r > 0.0
    ensures IsCeil(e, r)
  {
    CeilExists(r);
    var e: int :| IsCeil(e, r);
    e
  }

  lemma CeilExists(r: real)
    requires r > 0.0
    ensures exists e :: IsCeil(e, r)
  {
    var e := CeilOf(r);
    assert IsCeil(e, r);
  }

  /** So there is a log that is ceil(log2). */
  lemma LogExists() returns (log: real -> int)
    ensures CeilLog2(log)
  {
    log := r => if r > 0.0 then CeilLog(r) else 0;
  }

  lemma Smaller(r: real, p: real)
    requires r > 0.0 && p > 1.0 / r
    ensures 1.0 / p < r
  {
    var q := 1.0 / r;
    assert q * r == 1.0;
    assert (p - q) * r > 0.0;
    var s := 1.0 / p;
    assert s * p == 1.0;
    assert p * (r - s) > 0.0;
  }

  const MXFP4_MAX := 3.0

  /** The nearest code, ties to the larger magnitude. */
  function ToNibble(x: real): (n: int)
    ensures 0 <= n <= 5 || 8 <= n <= 13
  {
    var v := Abs(x);
    var mag := if v < 0.125 then 0 else if v < 0.625 then 1 else if v < 1.25 then 2
      else if v < 1.75 then 3 else if v < 2.5 then 4 else 5;
    if x < 0.0 then mag + 8 else mag
  }

  /** The codes quantisation writes, and the values they stand for. */
  const CODES: seq<int> := [0, 1, 2, 3, 4, 5, 8, 9, 10, 11, 12, 13]

  const CODE_VALUES: seq<real> := [0.0, 0.25, 1.0, 1.5, 2.0, 3.0, 0.0, -0.25, -1.0, -1.5, -2.0, -3.0]

  /** Within the representable range the code written is a nearest one, of two equally
      near the one of larger magnitude, with x's sign; it is at most half the widest gap
      away. */
  lemma NibbleError(x: real)
    requires Abs(x) <= 3.0
    ensures exists i :: 0 <= i < |CODES| && CODES[i] == ToNibble(x) && CODE_VALUES[i] == Fp4(ToNibble(x))
    ensures x < 0.0 <==> ToNibble(x) >= 8
    ensures Abs(Fp4(ToNibble(x)) - x) <= 0.5
    ensures forall i :: 0 <= i < |CODE_VALUES| ==>
      var d, near := Abs(CODE_VALUES[i] - x), Abs(Fp4(ToNibble(x)) - x);
      near < d || (near == d && Abs(CODE_VALUES[i]) <= Abs(Fp4(ToNibble(x))))
  {
    var n := ToNibble(x);
    var i := if n < 8 then n else n - 2;
    assert CODES[i] == n && CODE_VALUES[i] == Fp4(n);
  }

  // ---- One group --------------------------------------------------------------------------

  /** The scale byte of a group whose largest magnitude is amax. */
  function ScaleByte(log: real -> int, amax: real): (s: int)
    ensures 1 <= s <= 255
  {
    if amax > 0.0 then
      var e := log(amax / MXFP4_MAX) + 127;
      if e < 1 then 1 else if e > 254 then 254 else e
    else 255
  }

  /** What finite bf16 data can be. */
  predicate FiniteBf16(x: real) { Abs(x) < Pow2(128) }

  /** The clamp at 254 never binds, so the scaled group is always in range. */
  lemma ScaleCovers(log: real -> int, amax: real)
    requires CeilLog2(log) && 0.0 <= amax < Pow2(128)
    ensures amax > 0.0 ==> log(amax / MXFP4_MAX) + 127 <= 254
    ensures amax <= MXFP4_MAX * Ue8m0(ScaleByte(log, amax)) && Ue8m0(ScaleByte(log, amax)) >= 0.0
    ensures Ue8m0(ScaleByte(log, amax)) == 0.0 <==> amax == 0.0
  {
    if amax > 0.0 {
      var r := amax / MXFP4_MAX;
      var e := log(r);
      assert IsCeil(e, r);
      Pow2Step(127);
      if e > 127 { Pow2Mono(127, e - 1); }
      var s := ScaleByte(log, amax);
      Pow2Mono(e, s - 127);
      Pow2Step(s - 127);
    }
  }

  /** The scale is the least that covers: byte 255 marks a group of zeros, byte 1 is the
      lower clamp, and every other byte's half scale would not cover. */
  lemma ScaleLeast(log: real -> int, amax: real)
    requires CeilLog2(log) && 0.0 <= amax < Pow2(128)
    ensures var s := ScaleByte(log, amax);
      && (s == 255 <==> amax == 0.0)
      && (s == 1 <==> 0.0 < amax <= 3.0 * Pow2(-126))
      && (1 < s < 255 ==> 3.0 * Pow2(s - 128) < amax <= 3.0 * Pow2(s - 127))
  {
    if amax > 0.0 {
      ScaleCovers(log, amax);
      var r := amax / 3.0;
      var e := log(r);
      assert IsCeil(e, r);
      if e <= -126 { Pow2Mono(e, -126); } else { Pow2Mono(-126, e - 1); }
      hide Pow2;
    }
  }

  function Quantised(x: real, scale: real): int {
    if scale > 0.0 then ToNibble(x / scale) else ToNibble(0.0)
  }

  /** What the element decodes to. */
  function Decoded(x: real, scale: real): real { Times(Fp4(Quantised(x, scale)), scale) }

  /** An element of a group with scale byte s errs by at most half the scale. */
  lemma ElementError(log: real -> int, amax: real, x: real)
    requires CeilLog2(log) && Abs(x) <= amax < Pow2(128)
    ensures var scale := Ue8m0(ScaleByte(log, amax));
      Abs(Decoded(x, scale) - x) <= Times(0.5, scale)
  {
    ScaleCovers(log, amax);
    hide Fp4, ToNibble, Ue8m0, ScaleByte;
    var scale := Ue8m0(ScaleByte(log, amax));
    if scale > 0.0 {
      var q := x / scale;
      InRange(x, scale);
      NibbleError(q);
      TimesQuotient(x, scale);
      TimesDiff(Fp4(ToNibble(q)), q, scale);
      TimesBounds(Fp4(ToNibble(q)) - q, 0.5, scale);
      hide Times;
    } else {
      assert x == 0.0;
      assert Times(Fp4(Quantised(x, 0.0)), 0.0) == 0.0;
    }
  }

  lemma InRange(x: real, scale: real)
    requires scale > 0.0 && Abs(x) <= MXFP4_MAX * scale
    ensures Abs(x / scale) <= MXFP4_MAX
  {
    var q := x / scale;
    assert q * scale == x;
  }

  // ---- One row: mxfp4_moe_quant ---------------------------------------------------------

  /** The largest magnitude among columns lo, ..., lo + n - 1. */
  function Amax(x: seq<real>, lo: nat, n: nat): (r: real)
    requires lo + n <= |x|
    ensures r >= 0.0
  {
    if n == 0 then 0.0 else Max(Amax(x, lo, n - 1), Abs(x[lo + n - 1]))
  }

  lemma {:induction false} AmaxCovers(x: seq<real>, lo: nat, n: nat, c: nat)
    requires lo <= c < lo + n <= |x|
    ensures Abs(x[c]) <= Amax(x, lo, n)
  {
    if c < lo + n - 1 { AmaxCovers(x, lo, n - 1, c); }
  }

  lemma {:induction false} AmaxFinite(x: seq<real>, lo: nat, n: nat)
    requires lo + n <= |x| && forall c :: 0 <= c < |x| ==> FiniteBf16(x[c])
    ensures Amax(x, lo, n) < Pow2(128)
  {
    Pow2Step(128);
    hide Pow2;
    if n > 0 { AmaxFinite(x, lo, n - 1); }
  }

  /** The shapes quantisation accepts: whole groups of whole bytes. */
  predicate Shape(width: nat, group: nat) { group > 0 && group % 2 == 0 && width % group == 0 }

  lemma GroupOf(c: nat, width: nat, group: nat)
    requires Shape(width, group) && c < width
    ensures 0 <= c / group < width / group && c / group * group <= c < c / group * group + group
    ensures c / group * group + group <= width && 0 <= c / 2 < width / 2 && width % 2 == 0
  {
    DivMod(c, group);
    DivMod(width, group);
    var g, n := c / group, width / group;
    if g >= n { MulMono(n, g, group); }
    if g < 0 { MulMono(g, -1, group); }
    BlockFits(g, n, group);
    DivMod(group, 2);
    MulRotates(n, group / 2, 2);
    DivUnique(width, 2, n * (group / 2));
  }

  function GroupScale(log: real -> int, x: seq<real>, group: nat, g: int): int
    requires group > 0
  {
    if 0 <= g * group && g * group + group <= |x| then ScaleByte(log, Amax(x, g * group, group)) else 255
  }

  /** Column c's nibble. */
  function ColumnNibble(log: real -> int, x: seq<real>, group: nat, c: nat): (n: int)
    requires group > 0 && c < |x|
    ensures 0 <= n < 16
  {
    Quantised(x[c], Ue8m0(GroupScale(log, x, group, c / group)))
  }

  function QuantScales(log: real -> int, x: seq<real>, group: nat): (s: seq<int>)
    requires group > 0 && |x| / group >= 0
    ensures |s| == |x| / group
  {
    seq(|x| / group, g requires 0 <= g => GroupScale(log, x, group, g))
  }

  /** Two nibbles to a byte, the even column low. */
  function QuantBytes(log: real -> int, x: seq<real>, group: nat): (b: seq<int>)
    requires group > 0
    ensures |b| == |x| / 2
  {
    seq(|x| / 2, j requires 0 <= j < |x| / 2 =>
      ColumnNibble(log, x, group, 2 * j + 1) * 16 + ColumnNibble(log, x, group, 2 * j))
  }

  /** A quantised row. */
  datatype QuantRow = QuantRow(bytes: seq<int>, scales: seq<int>)
  {
    /** What the combine reads back for column c. */
    function Value(group: nat, c: int): real {
      if group > 0 && 0 <= c && 0 <= c / 2 < |bytes| && 0 <= c / group < |scales| then
        Times(Fp4(if c % 2 == 0 then bytes[c / 2] % 16 else bytes[c / 2] / 16 % 16), Ue8m0(scales[c / group]))
      else 0.0
    }

    function Scale(group: nat, c: int): real {
      if group > 0 && 0 <= c / group < |scales| then Ue8m0(scales[c / group]) else 0.0
    }
  }

  function Quant(log: real -> int, x: seq<real>, group: nat): QuantRow
    requires Shape(|x|, group)
  {
    QuotientNat(|x|, group);
    QuantRow(QuantBytes(log, x, group), QuantScales(log, x, group))
  }

  lemma NibblesApart(hi: int, lo: int)
    requires 0 <= hi < 16 && 0 <= lo < 16
    ensures (hi * 16 + lo) % 16 == lo && (hi * 16 + lo) / 16 % 16 == hi
  {
  }

  /** Column c's half of its byte is its nibble. */
  lemma CodeAt(log: real -> int, x: seq<real>, group: nat, c: nat)
    requires Shape(|x|, group) && c < |x|
    ensures 0 <= c / 2 < |x| / 2 && 0 <= c / group < |x| / group
    ensures var q := Quant(log, x, group);
      && |q.bytes| == |x| / 2 && |q.scales| == |x| / group && q.scales[c / group] == GroupScale(log, x, group, c / group)
      && 0 <= q.bytes[c / 2] < 256
      && (if c % 2 == 0 then q.bytes[c / 2] % 16 else q.bytes[c / 2] / 16) == ColumnNibble(log, x, group, c)
  {
    GroupOf(c, |x|, group);
    QuotientNat(|x|, group);
    var j := c / 2;
    var hi, lo := ColumnNibble(log, x, group, 2 * j + 1), ColumnNibble(log, x, group, 2 * j);
    NibblesApart(hi, lo);
    assert c == 2 * j || c == 2 * j + 1;
    hide GroupScale, Quantised, Ue8m0, Shape;
    assert Quant(log, x, group).bytes[j] == hi * 16 + lo;
  }

  /** Reading a column back gives its own nibble times its own group's scale. */
  lemma ReadBack(log: real -> int, x: seq<real>, group: nat, c: nat)
    requires Shape(|x|, group) && c < |x|
    ensures var q, scale := Quant(log, x, group), Ue8m0(GroupScale(log, x, group, c / group));
      q.Value(group, c) == Decoded(x[c], scale) && q.Scale(group, c) == scale
  {
    CodeAt(log, x, group, c);
    hide Quant, GroupScale, Quantised, Ue8m0, Fp4, Times, Shape;
  }

  /** Quantising finite data and reading it back: every element errs by at most half
      its group's scale. */
  lemma RowError(log: real -> int, x: seq<real>, group: nat, c: nat)
    requires CeilLog2(log) && Shape(|x|, group) && c < |x|
    requires forall c :: 0 <= c < |x| ==> FiniteBf16(x[c])
    ensures var q := Quant(log, x, group);
      Abs(q.Value(group, c) - x[c]) <= Times(0.5, q.Scale(group, c)) && q.Scale(group, c) >= 0.0
  {
    GroupOf(c, |x|, group);
    var lo := c / group * group;
    AmaxCovers(x, lo, group, c);
    AmaxFinite(x, lo, group);
    ReadBack(log, x, group, c);
    ElementError(log, Amax(x, lo, group), x[c]);
    ScaleCovers(log, Amax(x, lo, group));
    hide Quant, Decoded, ScaleByte, Ue8m0, Times, Pow2, Shape, Amax;
  }

  // ---- The same, in the data only ----------------------------------------------------------

  /** Amax is the largest magnitude of the columns it spans: one of them has it. */
  lemma {:induction false} AmaxAttained(x: seq<real>, lo: nat, n: nat) returns (c: nat)
    requires 0 < n && lo + n <= |x|
    ensures lo <= c < lo + n && Abs(x[c]) == Amax(x, lo, n)
  {
    c := lo + n - 1;
    if n > 1 && Abs(x[c]) < Amax(x, lo, n - 1) { c := AmaxAttained(x, lo, n - 1); }
  }

  lemma HalfScale(log: real -> int, amax: real)
    requires CeilLog2(log) && 0.0 <= amax < Pow2(128)
    ensures var half := Times(0.5, Ue8m0(ScaleByte(log, amax)));
      half <= Pow2(-127) || half < amax / 3.0
  {
    ScaleLeast(log, amax);
    var s := ScaleByte(log, amax);
    Pow2Step(-127);
    if s != 255 { Pow2Step(s - 128); }
    hide Pow2, ScaleByte;
  }

  /** The columns of c's group. */
  ghost predicate SameGroup(c: int, d: int, group: nat)
    requires group > 0
  {
    c / group == d / group
  }

  /** Every element of a finite row errs by less than a third of some element of its own
      group, or by at most 2^-127, half the least scale. */
  lemma ErrorByData(log: real -> int, x: seq<real>, group: nat, c: nat)
    requires CeilLog2(log) && Shape(|x|, group) && c < |x|
    requires forall c :: 0 <= c < |x| ==> FiniteBf16(x[c])
    ensures var err := Abs(Quant(log, x, group).Value(group, c) - x[c]);
      err <= Pow2(-127) || exists d :: 0 <= d < |x| && SameGroup(c, d, group) && err < Abs(x[d]) / 3.0
  {
    GroupOf(c, |x|, group);
    var lo := c / group * group;
    AmaxFinite(x, lo, group);
    var d := AmaxAttained(x, lo, group);
    DivUnique(d, group, c / group);
    RowError(log, x, group, c);
    ReadBack(log, x, group, c);
    HalfScale(log, Amax(x, lo, group));
    hide Quant, ScaleByte, Ue8m0, Times, Pow2, Shape, Amax;
    assert SameGroup(c, d, group);
  }

  /** How a row is laid out: two columns a byte, the even one in the low half, and a
      scale byte a group; each half byte is a nearest code of its column over its
      group's power of two. */
  lemma Layout(log: real -> int, x: seq<real>, group: nat, c: nat)
    requires CeilLog2(log) && Shape(|x|, group) && c < |x|
    requires forall c :: 0 <= c < |x| ==> FiniteBf16(x[c])
    ensures |Quant(log, x, group).bytes| == |x| / 2 && |Quant(log, x, group).scales| == |x| / group
    ensures 0 <= c / 2 < |x| / 2 && 0 <= c / group < |x| / group
    ensures var byte, s := Quant(log, x, group).bytes[c / 2], Quant(log, x, group).scales[c / group];
      var code := if c % 2 == 0 then byte % 16 else byte / 16;
      && 1 <= s <= 255 && 0 <= byte < 256
      && (s == 255 <==> forall d :: 0 <= d < |x| && SameGroup(c, d, group) ==> x[d] == 0.0)
      && (s < 255 ==> Pow2(s - 127) > 0.0 && IsNearest(code, x[c] / Pow2(s - 127)))
  {
    GroupOf(c, |x|, group);
    var lo := c / group * group;
    var amax := Amax(x, lo, group);
    AmaxFinite(x, lo, group);
    AmaxCovers(x, lo, group, c);
    ZeroGroup(x, group, c);
    CodeAt(log, x, group, c);
    ScaleLeast(log, amax);
    NearestCode(log, amax, x[c]);
    hide Quant, Quantised, ScaleByte, Shape, Amax, Pow2, IsNearest;
  }

  lemma NearestCode(log: real -> int, amax: real, y: real)
    requires CeilLog2(log) && Abs(y) <= amax < Pow2(128)
    ensures var s := ScaleByte(log, amax);
      s < 255 ==> Pow2(s - 127) > 0.0 && IsNearest(Quantised(y, Ue8m0(s)), y / Pow2(s - 127))
  {
    ScaleCovers(log, amax);
    var s := ScaleByte(log, amax);
    hide ScaleByte, ToNibble, Fp4;
    if s < 255 {
      Pow2Step(s - 127);
      hide Pow2;
      InRange(y, Pow2(s - 127));
      NibbleError(y / Pow2(s - 127));
    }
  }

  /** code is one of the twelve, and no other stands for a nearer value. */
  ghost predicate IsNearest(code: int, y: real) {
    exists i :: 0 <= i < |CODES| && CODES[i] == code
      && forall j :: 0 <= j < |CODES| ==> Abs(CODE_VALUES[i] - y) <= Abs(CODE_VALUES[j] - y)
  }

  lemma ZeroGroup(x: seq<real>, group: nat, c: nat)
    requires Shape(|x|, group) && c < |x|
    ensures c / group * group >= 0 && c / group * group + group <= |x|
    ensures Amax(x, c / group * group, group) == 0.0
      <==> forall d :: 0 <= d < |x| && SameGroup(c, d, group) ==> x[d] == 0.0
  {
    GroupOf(c, |x|, group);
    var lo := c / group * group;
    forall d | 0 <= d < |x| && SameGroup(c, d, group) ensures Abs(x[d]) <= Amax(x, lo, group) {
      DivMod(d, group);
      AmaxCovers(x, lo, group, d);
    }
    var d := AmaxAttained(x, lo, group);
    DivUnique(d, group, c / group);
    assert SameGroup(c, d, group);
    hide Amax;
  }
}
