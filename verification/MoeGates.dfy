/** The gated activations as the fused kernel and the distributed stages write them, and
    which one a name selects. */
module MoeGates {
  import opened Formats
  import opened RealArith

  /** exp, tanh and the settings of the epilogue. */
  datatype Epilogue = Epilogue(exp: real -> real, tanh: real -> real, limit: real, beta: real, linearBeta: real)

  function Over(a: real, b: real): real { if b == 0.0 then 0.0 else a / b }

  function Min(a: real, b: real): real { if a < b then a else b }

  /** beta tanh(gate / beta) sigmoid(gate), times the up projection, itself softly capped
      when linearBeta is positive. */
  function Situ(s: Epilogue, gate: real, up: real): real {
    var cap := if s.linearBeta > 0.0 then s.linearBeta * s.tanh(up / s.linearBeta) else up;
    s.beta * s.tanh(Over(gate, s.beta)) * Over(1.0, 1.0 + s.exp(-gate)) * cap
  }

  /** The fused kernel's epilogue. */
  function KernelAct(s: Epilogue, situ: bool, gate: real, up: real): real {
    if situ then Situ(s, gate, up)
    else if s.limit > 0.0 then SwiGlu(s.exp, Min(gate, s.limit), -Min(-Min(up, s.limit), s.limit))
    else SwiGlu(s.exp, gate, up)
  }

  /** The distributed stages' epilogue. */
  function StageAct(s: Epilogue, situ: bool, gate: real, up: real): real {
    if situ then Situ(s, gate, up)
    else if s.limit > 0.0 then SwiGlu(s.exp, Min(gate, s.limit), Min(Max(up, -s.limit), s.limit))
    else SwiGlu(s.exp, gate, up)
  }

  /** The two clamp the up projection in different orders, to the same effect. */
  lemma ActsAgree(s: Epilogue, situ: bool, gate: real, up: real)
    ensures KernelAct(s, situ, gate, up) == StageAct(s, situ, gate, up)
  {
    hide SwiGlu, Situ;
    assert s.limit > 0.0 ==> -Min(-Min(up, s.limit), s.limit) == Min(Max(up, -s.limit), s.limit);
  }

  // ---- Names --------------------------------------------------------------------------------

  /** s.lower(). */
  function Lower(s: string): string {
    seq(|s|, i requires 0 <= i < |s| => if 'A' <= s[i] <= 'Z' then s[i] - 'A' + 'a' else s[i])
  }

  predicate KnownActivation(name: string) { Lower(name) == "swiglu" || Lower(name) == "situ" }

  /** name is `word`, a lower-case word, in any mixture of cases. */
  ghost predicate Spells(name: string, word: string) {
    |name| == |word| && forall i :: 0 <= i < |name| ==> name[i] == word[i] || (name[i] as int) + 32 == word[i] as int
  }

  lemma LowerIs(name: string, word: string)
    requires forall i :: 0 <= i < |word| ==> 'a' <= word[i] <= 'z'
    ensures Lower(name) == word <==> Spells(name, word)
  {
    if Spells(name, word) {
      forall i | 0 <= i < |word| ensures Lower(name)[i] == word[i] {
      }
    }
    if Lower(name) == word {
      forall i | 0 <= i < |name| ensures name[i] == word[i] || (name[i] as int) + 32 == word[i] as int {
        assert Lower(name)[i] == word[i];
      }
    }
  }

  /** The names accepted. */
  lemma KnownIff(name: string)
    ensures KnownActivation(name) <==> Spells(name, "swiglu") || Spells(name, "situ")
  {
    LowerIs(name, "swiglu");
    LowerIs(name, "situ");
  }

  /** The activation a name selects in dist.py: SiTU by its name, SwiGLU by any other. */
  function Named(s: Epilogue, name: string): (real, real) -> real {
    var situ := Lower(name) == "situ";
    (gate, up) => StageAct(s, situ, gate, up)
  }

  lemma NamedIs(s: Epilogue, name: string, gate: real, up: real)
    ensures Named(s, name)(gate, up) == StageAct(s, Spells(name, "situ"), gate, up)
  {
    LowerIs(name, "situ");
    hide StageAct, Lower;
  }

  /** SiTU written out. */
  lemma SituIs(s: Epilogue, gate: real, up: real)
    requires 1.0 + s.exp(-gate) != 0.0 && s.beta != 0.0
    ensures var cap := if s.linearBeta > 0.0 then s.linearBeta * s.tanh(up / s.linearBeta) else up;
      StageAct(s, true, gate, up) == s.beta * s.tanh(gate / s.beta) * (1.0 / (1.0 + s.exp(-gate))) * cap
  {
  }

  /** SwiGLU written out: the gate capped at a positive limit, the up projection kept
      within it. */
  lemma SwiGluIs(s: Epilogue, gate: real, up: real)
    requires forall g :: 1.0 + s.exp(g) != 0.0
    ensures var g := if 0.0 < s.limit < gate then s.limit else gate;
      var u := if s.limit <= 0.0 then up else if up > s.limit then s.limit else if up < -s.limit then -s.limit else up;
      StageAct(s, false, gate, up) == g / (1.0 + s.exp(-g)) * u
  {
    var g := if 0.0 < s.limit < gate then s.limit else gate;
    assert 1.0 + s.exp(-g) != 0.0;
  }
}
