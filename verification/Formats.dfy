/** The number formats: four-bit codes, scale bytes as each side of the code reads
    them, and the gated activation. */
module Formats {
  import opened RealArith

  /** The repository's own E2M1 values. Codes 6, 7, 14 and 15 (infinities and NaNs)
      are not produced by quantisation; they get no finite value here. */
  function Fp4(nibble: int): real {
    match nibble
    case 0 => 0.0
    case 1 => 0.25
    case 2 => 1.0
    case 3 => 1.5
    case 4 => 2.0
    case 5 => 3.0
    case 9 => -0.25
    case 10 => -1.0
    case 11 => -1.5
    case 12 => -2.0
    case 13 => -3.0
    case _ => 0.0
  }

  /** A scale byte's value; 0xFF marks a zero group. */
  function Ue8m0(s: int): real { if s == 255 then 0.0 else Pow2(s - 127) }

  /** The distributed stages' decoder: its zero for 0xFF goes into the exponent. */
  function StageUe8m0(s: int): real { Pow2(if s == 255 then 0 else s - 127) }

  /** The two decoders differ at 0xFF, where one gives 0 and the other 1, and
      nowhere else. */
  lemma DecodersAgreeIff(s: int)
    ensures Ue8m0(s) == StageUe8m0(s) <==> s != 255
    ensures Ue8m0(255) == 0.0 && StageUe8m0(255) == 1.0
  {
  }

  /** silu(gate) * up, without the clamp. */
  function SwiGlu(exp: real -> real, gate: real, up: real): real {
    var d := 1.0 + exp(-gate);
    if d == 0.0 then 0.0 else gate / d * up
  }
}
