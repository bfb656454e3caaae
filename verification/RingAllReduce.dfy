/** The ring all-reduce over buffers and queues: every rank thread updates its
    local buffer in place, and an arbitrary scheduler picks who acts next. */
module RingAllReduce {
  import opened IntArith
  import opened Totals
  import opened RingProtocol
  import Sums

  // ---- Vectors of elements ---------------------------------------------------

  /** x + y, element by element. */
  function AddVec<F>(add: (F, F) -> F, x: seq<F>, y: seq<F>): (z: seq<F>)
    ensures |z| == if |x| <= |y| then |x| else |y|
    ensures forall i :: 0 <= i < |z| ==> z[i] == add(x[i], y[i])
  {
    seq(if |x| <= |y| then |x| else |y|, i requires 0 <= i < |x| && i < |y| => add(x[i], y[i]))
  }

  ghost function VecAdd<F>(add: (F, F) -> F): (seq<F>, seq<F>) -> seq<F> {
    (x, y) => AddVec(add, x, y)
  }

  /** local[c * chunk : (c + 1) * chunk]. */
  function Chunk<F>(v: seq<F>, chunk: nat, c: nat): (s: seq<F>)
    requires c * chunk + chunk <= |v|
    ensures |s| == chunk
  {
    v[c * chunk..c * chunk + chunk]
  }

  ghost function Chunks<F>(v: seq<F>, w: nat, chunk: nat): (s: seq<seq<F>>)
    requires |v| == w * chunk
    ensures |s| == w && forall c :: 0 <= c < w ==> |s[c]| == chunk
  {
    seq(w, c requires 0 <= c < w => (BlockFits(c, w, chunk); Chunk(v, chunk, c)))
  }

  ghost function AllChunks<F>(x: seq<seq<F>>, w: nat, chunk: nat): (s: seq<seq<seq<F>>>)
    requires forall r :: 0 <= r < |x| ==> |x[r]| == w * chunk
    ensures |s| == |x| && forall r :: 0 <= r < |x| ==> s[r] == Chunks(x[r], w, chunk)
  {
    seq(|x|, r requires 0 <= r < |x| => Chunks(x[r], w, chunk))
  }

  /** The nested sum at element i, starting from rank c. */
  ghost function ElementSum<F>(add: (F, F) -> F, x: seq<seq<F>>, c: nat, i: nat, j: nat): F
    requires c < |x| && forall r :: 0 <= r < |x| ==> i < |x[r]|
  {
    if j == 0 then x[c][i]
    else
      DivMod(c + j, |x|);
      add(x[(c + j) % |x|][i], ElementSum(add, x, c, i, j - 1))
  }

  lemma ChunkElement<F>(x: seq<seq<F>>, w: nat, chunk: nat, r: nat, c: nat, o: nat)
    requires r < |x| && c < w && o < chunk && forall q :: 0 <= q < |x| ==> |x[q]| == w * chunk
    ensures c * chunk + o < w * chunk
    ensures AllChunks(x, w, chunk)[r][c][o] == x[r][c * chunk + o]
  {
    BlockFits(c, w, chunk);
  }

  /** The chunk-wise nested sum is the element-wise one. */
  lemma {:induction false} PartialElement<F>(add: (F, F) -> F, x: seq<seq<F>>, w: nat, chunk: nat, c: nat, j: nat, o: nat)
    requires c < w == |x| && o < chunk && forall r :: 0 <= r < w ==> |x[r]| == w * chunk
    requires c * chunk + o < w * chunk
    ensures |Partial(VecAdd(add), w, AllChunks(x, w, chunk), c, j)| == chunk
    ensures Partial(VecAdd(add), w, AllChunks(x, w, chunk), c, j)[o] == ElementSum(add, x, c, c * chunk + o, j)
  {
    hide AddVec, AllChunks;
    if j == 0 {
      ChunkElement(x, w, chunk, c, c, o);
    } else {
      hide Partial, ElementSum;
      PartialElement(add, x, w, chunk, c, j - 1, o);
      DivMod(c + j, w);
      var r := (c + j) % w;
      ChunkElement(x, w, chunk, r, c, o);
      SumsUnfold(add, x, w, chunk, c, j, r, c * chunk + o);
    }
  }

  lemma SumsUnfold<F>(add: (F, F) -> F, x: seq<seq<F>>, w: nat, chunk: nat, c: nat, j: nat, r: nat, i: nat)
    requires c < w == |x| && 0 < j && forall q :: 0 <= q < w ==> |x[q]| == w * chunk
    requires i < w * chunk && r == (c + j) % w && r < w
    ensures ElementSum(add, x, c, i, j) == add(x[r][i], ElementSum(add, x, c, i, j - 1))
    ensures Partial(VecAdd(add), w, AllChunks(x, w, chunk), c, j)
         == AddVec(add, AllChunks(x, w, chunk)[r][c], Partial(VecAdd(add), w, AllChunks(x, w, chunk), c, j - 1))
  {
    hide AddVec, AllChunks;
  }

  /** Every chunk of every row of y is the reduced chunk of x. */
  ghost predicate AllReduced<F>(add: (F, F) -> F, x: seq<seq<F>>, y: seq<seq<F>>, w: nat, chunk: nat) {
    && w > 0 && |x| == |y| == w && (forall r :: 0 <= r < w ==> |x[r]| == |y[r]| == w * chunk)
    && forall r, c :: 0 <= r < w && 0 <= c < w ==>
         AllChunks(y, w, chunk)[r][c] == Reduced(VecAdd(add), w, AllChunks(x, w, chunk), c)
  }

  // ---- The machine ----------------------------------------------------------------

  /** world ranks, their buffers, and one queue per edge. */
  class Ring<F> {
    const world: nat
    const chunk: nat
    const buffers: seq<array<F>>
    var edges: seq<seq<seq<F>>>
    var sends: seq<nat>
    var recvs: seq<nat>

    ghost predicate Valid()
      reads this, buffers
    {
      && world > 0 && |buffers| == |edges| == |sends| == |recvs| == world
      && (forall i, j :: 0 <= i < j < world ==> buffers[i] != buffers[j])
      && (forall r :: 0 <= r < world ==> buffers[r].Length == world * chunk)
    }

    ghost function Locals(): (x: seq<seq<F>>)
      requires Valid()
      reads this, buffers
      ensures |x| == world && forall r :: 0 <= r < world ==> x[r] == buffers[r][..]
    {
      seq(world, r requires 0 <= r < world reads this, buffers => buffers[r][..])
    }

    /** The protocol state this machine is in. */
    ghost function Abs(): (s: State<seq<F>>)
      requires Valid()
      reads this, buffers
      ensures Shaped(world, s)
    {
      State(sends, recvs, AllChunks(Locals(), world, chunk), edges)
    }

    constructor (locals: seq<array<F>>, chunk: nat)
      requires |locals| > 0 && forall i, j :: 0 <= i < j < |locals| ==> locals[i] != locals[j]
      requires forall r :: 0 <= r < |locals| ==> locals[r].Length == |locals| * chunk
      ensures Valid() && world == |locals| && this.chunk == chunk && buffers == locals
      ensures Abs() == Init(world, AllChunks(Locals(), world, chunk))
    {
      this.world, this.chunk, buffers := |locals|, chunk, locals;
      edges := seq(|locals|, _ => []);
      sends, recvs := seq(|locals|, _ => 0), seq(|locals|, _ => 0);
    }

    /** next_ch.send(chunk_of(send_c)): a copy goes into the queue. */
    method Send(r: nat)
      requires Valid() && r < world && CanSend(world, Abs(), r)
      modifies this
      ensures Valid() && Abs() == DoSend(world, old(Abs()), r)
      ensures unchanged(buffers[..])
    {
      var c := SendChunk(world, r, sends[r]);
      BlockFits(c, world, chunk);
      var copy := buffers[r][c * chunk..c * chunk + chunk];
      assert copy == Abs().local[r][c];
      edges := edges[r := edges[r] + [copy]];
      sends := sends[r := sends[r] + 1];
      assert Locals() == old(Locals());
    }

    /** local[c * chunk : (c + 1) * chunk] = v. */
    method ReplaceChunk(r: nat, c: nat, v: seq<F>)
      requires Valid() && r < world && c < world && |v| == chunk
      modifies buffers[r]
      ensures Valid()
      ensures var s := old(Abs()); Abs() == s.(local := s.local[r := s.local[r][c := v]])
    {
      var a := buffers[r];
      BlockFits(c, world, chunk);
      var lo := c * chunk;
      for i := 0 to chunk
        invariant forall k :: 0 <= k < a.Length ==> a[k] == if lo <= k < lo + i then v[k - lo] else old(a[k])
      {
        a[lo + i] := v[i];
      }
      SliceReplaced(old(a[..]), a[..], world, chunk, c, v);
      assert forall q :: 0 <= q < world && q != r ==> Locals()[q] == old(Locals()[q]);
      hide Chunks;
      assert Abs().local == old(Abs()).local[r := old(Abs()).local[r][c := v]];
    }

    /** got = prev_ch.recv(), then add to or overwrite the local chunk. */
    method Recv(add: (F, F) -> F, r: nat)
      requires Valid() && r < world && CanRecv(world, Abs(), r)
      requires |edges[Prev(world, r)][0]| == chunk
      modifies this, buffers[r]
      ensures Valid() && Abs() == DoRecv(VecAdd(add), world, old(Abs()), r)
    {
      var p := Prev(world, r);
      var got := edges[p][0];
      var c := RecvChunk(world, r, recvs[r]);
      BlockFits(c, world, chunk);
      var own := buffers[r][c * chunk..c * chunk + chunk];
      assert own == Abs().local[r][c];
      hide AddVec, Prev, RecvChunk, Chunks, AllChunks;
      var v := if recvs[r] < world - 1 then AddVec(add, own, got) else got;
      ReplaceChunk(r, c, v);
      ghost var locals := Locals();
      edges := edges[p := edges[p][1..]];
      recvs := recvs[r := recvs[r] + 1];
      assert Locals() == locals;
    }

    /** Every queued message is one chunk long. */
    ghost predicate Messages()
      requires Valid()
      reads this, buffers
    {
      forall r, k :: 0 <= r < world && 0 <= k < |edges[r]| ==> |edges[r][k]| == chunk
    }

    /** All rank threads to completion. Which enabled rank acts next is left
        open; the result does not depend on it. */
    method Run(add: (F, F) -> F)
      requires Valid() && Messages() && Abs() == Init(world, AllChunks(Locals(), world, chunk))
      modifies this, buffers
      ensures Valid()
      ensures AllReduced(add, old(Locals()), Locals(), world, chunk)
      ensures forall r :: 0 <= r < world ==> edges[r] == []
    {
      ghost var start := Locals();
      ghost var x := AllChunks(start, world, chunk);
      hide Partial, Value, Total, Reduced;
      InitInv(VecAdd(add), world, x);
      while exists r: nat :: r < world && recvs[r] < Steps(world)
        invariant Valid() && Messages() && Inv(VecAdd(add), world, x, Abs())
        decreases 2 * (world * Steps(world)) - Total(sends) - Total(recvs)
      {
        var r := Pick(add, x);
        Act(add, r, x);
      }
      Conclude(add, x);
    }

    /** Some rank that is not blocked. */
    method Pick(add: (F, F) -> F, ghost x: seq<seq<seq<F>>>) returns (r: nat)
      requires Valid() && Shaped(world, Init(world, x)) && Inv(VecAdd(add), world, x, Abs())
      requires exists q: nat :: q < world && recvs[q] < Steps(world)
      ensures r < world && recvs[r] < Steps(world) && (sends[r] == recvs[r] || |edges[Prev(world, r)]| > 0)
    {
      hide RankOk, EdgeOk, Prev;
      ghost var some := SomeoneEnabled(VecAdd(add), world, x, Abs());
      r :| r < world && recvs[r] < Steps(world) && (sends[r] == recvs[r] || |edges[Prev(world, r)]| > 0);
    }

    lemma Conclude(add: (F, F) -> F, x: seq<seq<seq<F>>>)
      requires Valid() && Shaped(world, Init(world, x)) && Inv(VecAdd(add), world, x, Abs())
      requires !exists q: nat :: q < world && recvs[q] < Steps(world)
      ensures forall r, c :: 0 <= r < world && 0 <= c < world ==> Abs().local[r][c] == Reduced(VecAdd(add), world, x, c)
      ensures forall r :: 0 <= r < world ==> edges[r] == []
    {
      hide EdgeOk, Value, Reduced;
      forall r | 0 <= r < world ensures recvs[r] == Steps(world) {
        assert RankOk(VecAdd(add), world, x, Abs(), r);
      }
      forall r, c | 0 <= r < world && 0 <= c < world
        ensures Abs().local[r][c] == Reduced(VecAdd(add), world, x, c)
      {
        FinishedReduced(VecAdd(add), world, x, Abs(), r, c);
      }
      forall r | 0 <= r < world ensures edges[r] == [] {
        FinishedReduced(VecAdd(add), world, x, Abs(), r, 0);
      }
    }

    /** One action of an enabled rank. */
    method Act(add: (F, F) -> F, r: nat, ghost x: seq<seq<seq<F>>>)
      requires Valid() && Messages() && Shaped(world, Init(world, x)) && Inv(VecAdd(add), world, x, Abs())
      requires r < world && recvs[r] < Steps(world) && (sends[r] == recvs[r] || |edges[Prev(world, r)]| > 0)
      modifies this, buffers
      ensures Valid() && Messages() && Inv(VecAdd(add), world, x, Abs())
      ensures Total(sends) + Total(recvs) == old(Total(sends) + Total(recvs)) + 1
      ensures Total(sends) + Total(recvs) <= 2 * (world * Steps(world))
    {
      assert RankOk(VecAdd(add), world, x, Abs(), r);
      ghost var before := Abs();
      ActInv(VecAdd(add), world, x, before, r);
      ActCounts(VecAdd(add), world, before, r);
      if sends[r] == recvs[r] {
        Send(r);
      } else {
        Recv(add, r);
      }
      WorkBounded(VecAdd(add), world, x, Abs());
    }
  }

  lemma SliceReplaced<F>(a: seq<F>, b: seq<F>, w: nat, chunk: nat, c: nat, v: seq<F>)
    requires |a| == |b| == w * chunk && c < w && |v| == chunk
    requires forall k :: 0 <= k < |a| ==> b[k] == if c * chunk <= k < c * chunk + chunk then v[k - c * chunk] else a[k]
    ensures Chunks(b, w, chunk) == Chunks(a, w, chunk)[c := v]
  {
    forall q | 0 <= q < w ensures Chunks(b, w, chunk)[q] == Chunks(a, w, chunk)[c := v][q] {
      BlockFits(q, w, chunk);
      BlockFits(c, w, chunk);
      if q < c {
        BlockFits(q, c, chunk);
      } else if c < q {
        BlockFits(c, q, chunk);
      }
    }
  }

  // ---- ring_allreduce -----------------------------------------------------------

  datatype Outcome<F> = Summed(buffers: seq<seq<F>>) | NoLocals | UnequalLengths | NotDivisible

  /** v is element i of the result: the nested sum from rank i / chunk, around. */
  ghost predicate Around<F>(add: (F, F) -> F, x: seq<seq<F>>, i: nat, v: F)
    requires |x| > 0 && forall r :: 0 <= r < |x| ==> i < |x[r]|
  {
    var chunk := |x[0]| / |x|;
    chunk > 0 && i / chunk < |x| && v == ElementSum(add, x, i / chunk, i, |x| - 1)
  }

  lemma AroundElement<F>(add: (F, F) -> F, x: seq<seq<F>>, w: nat, chunk: nat, y: seq<seq<F>>, r: nat, i: nat)
    requires AllReduced(add, x, y, w, chunk) && r < w && i < w * chunk
    ensures Around(add, x, i, y[r][i])
  {
    if chunk > 0 {
      DivUnique(w * chunk, w, chunk);
      DivBounds(i, chunk);
      var c := i / chunk;
      if c >= w {
        MulMono(w, c, chunk);
      }
      hide ElementSum, Partial, AllChunks;
      ElementReduced(add, x, w, chunk, y, r, c, i - c * chunk);
    }
  }

  lemma ElementReduced<F>(add: (F, F) -> F, x: seq<seq<F>>, w: nat, chunk: nat, y: seq<seq<F>>, r: nat, c: nat, o: nat)
    requires AllReduced(add, x, y, w, chunk) && r < w && c < w && o < chunk && c * chunk + o < w * chunk
    ensures y[r][c * chunk + o] == ElementSum(add, x, c, c * chunk + o, w - 1)
  {
    hide ElementSum, Partial, AllChunks;
    ChunkElement(y, w, chunk, r, c, o);
    PartialElement(add, x, w, chunk, c, w - 1, o);
    assert AllChunks(y, w, chunk)[r][c] == Reduced(VecAdd(add), w, AllChunks(x, w, chunk), c);
  }

  /** Element i of every rank. */
  function Column(x: seq<seq<real>>, i: nat): Sums.Vec { r => if 0 <= r < |x| && i < |x[r]| then x[r][i] else 0.0 }

  lemma {:induction false} AroundRing(add: (real, real) -> real, x: seq<seq<real>>, c: nat, i: nat, j: nat)
    requires c < |x| && j < |x| && forall r :: 0 <= r < |x| ==> i < |x[r]|
    requires forall a, b :: add(a, b) == a + b
    ensures ElementSum(add, x, c, i, j) == if c + j < |x| then Sums.Sum(c, c + j + 1, Column(x, i))
      else Sums.Sum(c, |x|, Column(x, i)) + Sums.Sum(0, c + j - |x| + 1, Column(x, i))
  {
    if j == 0 {
      assert Sums.Sum(c, c + 1, Column(x, i)) == Sums.Sum(c, c, Column(x, i)) + Column(x, i)(c);
    } else {
      AroundRing(add, x, c, i, j - 1);
      ModNear(c + j, |x|);
    }
  }

  /** When adding is exact the order does not matter: every rank ends with the sum over
      the ranks. */
  lemma AroundIsSum(add: (real, real) -> real, x: seq<seq<real>>, i: nat, v: real)
    requires |x| > 0 && forall r :: 0 <= r < |x| ==> i < |x[r]|
    requires Around(add, x, i, v) && forall a, b :: add(a, b) == a + b
    ensures v == Sums.Sum(0, |x|, Column(x, i))
  {
    var c := i / (|x[0]| / |x|);
    DivBounds(i, |x[0]| / |x|);
    AroundRing(add, x, c, i, |x| - 1);
    Sums.SumSplit(0, c, |x|, Column(x, i));
  }

  /** [np.array(v, copy=True) for v in locals]. */
  method CopyAll<F(0)>(locals: seq<seq<F>>) returns (buffers: seq<array<F>>)
    ensures |buffers| == |locals|
    ensures forall r :: 0 <= r < |buffers| ==> fresh(buffers[r]) && buffers[r][..] == locals[r]
    ensures forall i, j :: 0 <= i < j < |buffers| ==> buffers[i] != buffers[j]
  {
    buffers := [];
    for r := 0 to |locals|
      invariant |buffers| == r
      invariant forall q :: 0 <= q < r ==> fresh(buffers[q]) && buffers[q][..] == locals[q]
      invariant forall i, j :: 0 <= i < j < r ==> buffers[i] != buffers[j]
    {
      var v := locals[r];
      var a := new F[|v|](i requires 0 <= i < |v| => v[i]);
      buffers := buffers + [a];
    }
  }

  /** ring_allreduce. Element i of every rank's buffer is the nested sum that
      starts at rank i / chunk and goes once around the ring. */
  method AllReduce<F(0)>(add: (F, F) -> F, locals: seq<seq<F>>) returns (outcome: Outcome<F>)
    ensures outcome.NoLocals? <==> |locals| == 0
    ensures outcome.UnequalLengths? <==> exists r :: 0 < r < |locals| && |locals[r]| != |locals[0]|
    ensures outcome.NotDivisible? <==>
      (|locals| > 0 && (forall r :: 0 < r < |locals| ==> |locals[r]| == |locals[0]|) && |locals[0]| % |locals| != 0)
    ensures outcome.Summed? ==> |locals| > 0 && |locals[0]| % |locals| == 0 && |outcome.buffers| == |locals|
    ensures outcome.Summed? ==> forall r :: 0 <= r < |locals| ==>
      |locals[r]| == |locals[0]| && |outcome.buffers[r]| == |locals[0]|
    ensures outcome.Summed? ==> forall r, i :: 0 <= r < |locals| && 0 <= i < |locals[0]| ==>
      Around(add, locals, i, outcome.buffers[r][i])
  {
    if |locals| == 0 { return NoLocals; }
    var w := |locals|;
    var length := |locals[0]|;
    if r :| 0 < r < w && |locals[r]| != length { return UnequalLengths; }
    if length % w != 0 { return NotDivisible; }
    DivMod(length, w);
    var buffers := RunThreads(add, locals, length / w);
    outcome := Summed(buffers);
  }

  /** The rank threads on copies of the locals, started and joined. */
  method RunThreads<F(0)>(add: (F, F) -> F, locals: seq<seq<F>>, chunk: nat) returns (out: seq<seq<F>>)
    requires |locals| > 0 && forall r :: 0 <= r < |locals| ==> |locals[r]| == |locals| * chunk
    ensures |out| == |locals| && forall r :: 0 <= r < |out| ==> |out[r]| == |locals| * chunk
    ensures forall r, i :: 0 <= r < |out| && 0 <= i < |locals| * chunk ==> Around(add, locals, i, out[r][i])
  {
    var w := |locals|;
    var buffers := CopyAll(locals);
    var ring := new Ring<F>(buffers, chunk);
    assert ring.Locals() == locals;
    hide Around, AllReduced, Reduced, AllChunks;
    ring.Run(add);
    out := seq(w, r requires 0 <= r < w reads ring, buffers => buffers[r][..]);
    assert out == ring.Locals();
    forall r, i | 0 <= r < w && 0 <= i < w * chunk ensures Around(add, locals, i, out[r][i]) {
      AroundElement(add, locals, w, chunk, out, r, i);
    }
  }
}
