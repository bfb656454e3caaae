/** The pooled-key cache: every request's recent tokens live in a circular tail,
    and each completed pool writes its vector into a page slot. */
module KpoolCache {
  import opened IntArith
  import opened KpoolMean

  // ---- The circular tail ---------------------------------------------------------------

  /** ((i % n) + n) % n, the code's non-negative remainder. */
  function Physical(i: int, tailSize: nat): (r: nat)
    requires tailSize > 0
    ensures r < tailSize && r == i % tailSize
  {
    DivMod(i, tailSize);
    DivUnique(i % tailSize + tailSize, tailSize, 1);
    (i % tailSize + tailSize) % tailSize
  }

  /** The position whose token slot `phys` holds after n tokens; -1 before any. */
  function Held(n: nat, tailSize: nat, phys: nat): (j: int)
    requires tailSize > 0
    ensures -1 <= j < n
  {
    if n == 0 then -1 else if (n - 1) % tailSize == phys then n - 1 else Held(n - 1, tailSize, phys)
  }

  /** That is the last position before n that falls on the slot. */
  lemma {:induction false} HeldIs(n: nat, tailSize: nat, phys: nat)
    requires tailSize > 0
    ensures var j := Held(n, tailSize, phys);
      && (j >= 0 ==> j % tailSize == phys)
      && forall i :: j < i < n && i >= 0 ==> i % tailSize != phys
  {
    if n > 0 { HeldIs(n - 1, tailSize, phys); }
  }

  lemma {:induction false} HeldRecent(n: nat, tailSize: nat, j: nat)
    requires tailSize > 0 && j < n && n - j <= tailSize
    ensures Held(n, tailSize, j % tailSize) == j
  {
    if j < n - 1 {
      Apart(j, n - 1, tailSize);
      HeldRecent(n - 1, tailSize, j);
    }
  }

  lemma Apart(i: nat, j: nat, m: nat)
    requires m > 0 && i < j < i + m
    ensures i % m != j % m
  {
    DivMod(i, m);
    DivMod(j, m);
    if i % m == j % m {
      var q, s := i / m, j / m;
      if q < s { BlockFits(q, s, m); } else { MulMono(s, q, m); }
    }
  }

  lemma {:induction false} HeldLatest(n: nat, tailSize: nat, j: nat)
    requires tailSize > 0 && j < n
    ensures Held(n, tailSize, j % tailSize) >= j
  {
    if j < n - 1 { HeldLatest(n - 1, tailSize, j); }
  }

  /** A pool whose last token is arriving needs the tokens before it, from `start`
      on. The tail still has them, no later position having fallen on their slots,
      exactly when it is long enough. */
  lemma TailLongEnoughIff(start: nat, n: nat, tailSize: nat)
    requires tailSize > 0 && start <= n
    ensures (forall j :: start <= j < n ==> Held(n, tailSize, j % tailSize) == j) <==> n - start <= tailSize
    ensures (forall i, j :: start <= j < i < n ==> i % tailSize != j % tailSize) <==> n - start <= tailSize
  {
    if n - start <= tailSize {
      forall j | start <= j < n ensures Held(n, tailSize, j % tailSize) == j {
        HeldRecent(n, tailSize, j);
      }
      forall i, j | start <= j < i < n ensures i % tailSize != j % tailSize {
        Apart(j, i, tailSize);
      }
    } else {
      DivMod(start, tailSize);
      MulSucc(start / tailSize, tailSize);
      DivUnique(start + tailSize, tailSize, start / tailSize + 1);
      HeldLatest(n, tailSize, start + tailSize);
      assert Held(n, tailSize, start % tailSize) != start;
      assert start <= start < start + tailSize < n && (start + tailSize) % tailSize == start % tailSize;
    }
  }

  // ---- dsa_kpool_assemble ----------------------------------------------------------------

  /** One pool to assemble: its first fromTail tokens from the request's tail,
      starting at logical position base, the rest from the chunk. */
  datatype Piece = Piece(req: nat, fromTail: int, chunkStart: int, base: int, loc: int, masked: bool)

  function TailToken(tail: seq<seq<Token>>, piece: Piece, s: nat): Token
    requires piece.req < |tail| && |tail[piece.req]| > 0
  {
    tail[piece.req][Physical(piece.base + s, |tail[piece.req]|)]
  }

  function ChunkIndex(piece: Piece, s: int): int { piece.chunkStart + (s - piece.fromTail) }

  ghost predicate PieceOk(piece: Piece, tail: seq<seq<Token>>, chunk: seq<Token>, size: nat) {
    && piece.req < |tail| && |tail[piece.req]| > 0
    && (forall s :: 0 <= s < size && s >= piece.fromTail ==> 0 <= ChunkIndex(piece, s) < |chunk|)
  }

  /** The tokens the loop reads, in order. */
  function Logical(piece: Piece, tail: seq<seq<Token>>, chunk: seq<Token>, size: nat): (r: seq<Token>)
    requires PieceOk(piece, tail, chunk, size)
    ensures |r| == size
  {
    seq(size, s requires 0 <= s < size =>
      if s < piece.fromTail then TailToken(tail, piece, s) else chunk[ChunkIndex(piece, s)])
  }

  /** The place the pool's token s is read from holds `token`: the request's tail, round
      it, before the cut, the chunk after it. */
  ghost predicate ReadsAt(piece: Piece, tail: seq<seq<Token>>, chunk: seq<Token>, s: nat, token: Token) {
    if s < piece.fromTail then
      piece.req < |tail| && |tail[piece.req]| > 0 &&
      var i := (piece.base + s) % |tail[piece.req]|;
      0 <= i < |tail[piece.req]| && tail[piece.req][i] == token
    else
      var i := piece.chunkStart + s - piece.fromTail;
      0 <= i < |chunk| && chunk[i] == token
  }

  /** Wherever the pool is cut between tail and chunk, if both hold the true tokens
      then the loop reads the true tokens. */
  lemma SplitIrrelevant(piece: Piece, tail: seq<seq<Token>>, chunk: seq<Token>, size: nat, truth: seq<Token>)
    requires PieceOk(piece, tail, chunk, size) && |truth| == size
    requires forall s: nat :: s < size ==> ReadsAt(piece, tail, chunk, s, truth[s])
    ensures Logical(piece, tail, chunk, size) == truth
  {
    forall s: nat | s < size ensures Logical(piece, tail, chunk, size)[s] == truth[s] {
      assert ReadsAt(piece, tail, chunk, s, truth[s]);
    }
  }

  /** One pool's vector. */
  method AssembleOne(pool: Pool, piece: Piece, tail: seq<seq<Token>>, chunk: seq<Token>) returns (vector: seq<real>)
    requires pool.Good() && PieceOk(piece, tail, chunk, pool.Size())
    requires pool.Fits(Logical(piece, tail, chunk, pool.Size()))
    ensures vector == PoolVector(pool, Logical(piece, tail, chunk, pool.Size()))
  {
    hide AllFollow, PoolVector;
    ghost var tokens := Logical(piece, tail, chunk, pool.Size());
    var st := seq(pool.dim, _ => START);
    assert AllFollow(pool, st, tokens, 0) by { NothingAdded(pool, st, tokens); }
    for s := 0 to pool.Size()
      invariant AllFollow(pool, st, tokens, s)
    {
      var t := if s < piece.fromTail then TailToken(tail, piece, s) else chunk[ChunkIndex(piece, s)];
      st := AddToken(pool, st, t, s, tokens);
    }
    vector := Finish(pool, st, tokens);
  }

  lemma NothingAdded(pool: Pool, st: seq<Acc>, tokens: seq<Token>)
    requires st == seq(pool.dim, _ => START)
    ensures AllFollow(pool, st, tokens, 0)
  {
  }

  /** A write of a call: this slot gets this vector. */
  datatype Write = Skip | Write(page: int, slot: int, vector: seq<real>)

  /** What a slot holds after a call's writes: the last one to it, or the zeros the
      call starts with. */
  function SlotAfter(writes: seq<Write>, zeros: seq<real>, page: int, slot: int): seq<real> {
    if writes == [] then zeros
    else
      var last := writes[|writes| - 1];
      if last.Write? && last.page == page && last.slot == slot then last.vector
      else SlotAfter(writes[..|writes| - 1], zeros, page, slot)
  }

  function PieceWrite(pool: Pool, piece: Piece, tail: seq<seq<Token>>, chunk: seq<Token>, slotsPerPage: nat): Write
    requires slotsPerPage > 0 && pool.Size() > 0 && PieceOk(piece, tail, chunk, pool.Size())
  {
    if piece.masked then Skip
    else Write(piece.loc / slotsPerPage, piece.loc % slotsPerPage, PoolVector(pool, Logical(piece, tail, chunk, pool.Size())))
  }

  /** loc is the flat slot: its page's first slot plus the slot within the page. */
  lemma WrittenAtLoc(pool: Pool, piece: Piece, tail: seq<seq<Token>>, chunk: seq<Token>, slotsPerPage: nat)
    requires slotsPerPage > 0 && pool.Size() > 0 && PieceOk(piece, tail, chunk, pool.Size())
    ensures var write := PieceWrite(pool, piece, tail, chunk, slotsPerPage);
      && (write.Write? <==> !piece.masked)
      && (write.Write? ==> 0 <= write.slot < slotsPerPage && write.page * slotsPerPage + write.slot == piece.loc)
  {
    DivMod(piece.loc, slotsPerPage);
    hide PoolVector, Logical;
  }

  /** dsa_kpool_assemble: zero the output, then one write per unmasked pool, in order. */
  method Assemble(pool: Pool, pieces: seq<Piece>, tail: seq<seq<Token>>, chunk: seq<Token>, slotsPerPage: nat,
                  zeros: seq<real>, out: array2<seq<real>>)
    requires pool.Good() && slotsPerPage > 0 && out.Length1 == slotsPerPage
    requires forall r :: 0 <= r < |pieces| ==> PieceOk(pieces[r], tail, chunk, pool.Size())
    requires forall r :: 0 <= r < |pieces| && !pieces[r].masked ==>
      pool.Fits(Logical(pieces[r], tail, chunk, pool.Size())) && 0 <= pieces[r].loc / slotsPerPage < out.Length0
    modifies out
    ensures forall page, slot :: 0 <= page < out.Length0 && 0 <= slot < slotsPerPage ==>
      out[page, slot] == SlotAfter(seq(|pieces|, r requires 0 <= r < |pieces| =>
        PieceWrite(pool, pieces[r], tail, chunk, slotsPerPage)), zeros, page, slot)
  {
    hide PoolVector, Logical;
    forall page, slot | 0 <= page < out.Length0 && 0 <= slot < out.Length1 { out[page, slot] := zeros; }
    ghost var writes: seq<Write> := [];
    for r := 0 to |pieces|
      invariant |writes| == r && forall q :: 0 <= q < r ==> writes[q] == PieceWrite(pool, pieces[q], tail, chunk, slotsPerPage)
      invariant forall page, slot :: 0 <= page < out.Length0 && 0 <= slot < slotsPerPage ==>
        out[page, slot] == SlotAfter(writes, zeros, page, slot)
    {
      ghost var next := writes + [PieceWrite(pool, pieces[r], tail, chunk, slotsPerPage)];
      assert next[..r] == writes;
      if !pieces[r].masked {
        var vector := AssembleOne(pool, pieces[r], tail, chunk);
        DivMod(pieces[r].loc, slotsPerPage);
        out[pieces[r].loc / slotsPerPage, pieces[r].loc % slotsPerPage] := vector;
      }
      writes := next;
    }
    assert writes == seq(|pieces|, r requires 0 <= r < |pieces| => PieceWrite(pool, pieces[r], tail, chunk, slotsPerPage));
  }

  // ---- dsa_kpool_decode_update -------------------------------------------------------------

  /** One row of a decode batch: a token of request req at position pos. */
  datatype Step = Step(token: Token, req: int, pos: int, seqLen: int, cacheLoc: int, table: seq<int>)
  {
    predicate Valid(requests: nat) {
      0 <= req < requests && cacheLoc != 0 && 0 <= pos < seqLen
    }

    /** The row's token is the last of its pool. */
    predicate Completes(requests: nat, size: nat)
      requires size > 0
    {
      Valid(requests) && pos % size == size - 1
    }

    /** The page the block table names for the pool, index clipped as the code does. */
    function Page(size: nat, slotsPerPage: nat): int
      requires size > 0 && slotsPerPage > 0 && |table| > 0
    {
      var i := pos / size / slotsPerPage * size;
      table[if i < 0 then 0 else if i > |table| - 1 then |table| - 1 else i]
    }

    function Slot(size: nat, slotsPerPage: nat): int
      requires size > 0 && slotsPerPage > 0
    {
      pos / size % slotsPerPage
    }
  }

  /** The shape of a decode call: slots a page, pages of the output. */
  datatype Shape = Shape(slots: nat, pages: nat)
  {
    predicate Good() { slots > 0 }

    /** numpy counts negative pages from the end. */
    function Index(page: int): int { if page < 0 then page + pages else page }

    predicate Has(page: int) { 0 <= Index(page) < pages }
  }

  /** The row completes a pool and its page does not exist. */
  predicate Fails(step: Step, requests: nat, size: nat, shape: Shape)
    requires size > 0 && shape.Good() && |step.table| > 0
  {
    step.Completes(requests, size) && !shape.Has(step.Page(size, shape.slots))
  }

  ghost predicate Tailed(tail: seq<seq<Token>>) { forall r :: 0 <= r < |tail| ==> |tail[r]| > 0 }

  /** The tail after one row: its token at its position, if the row is valid. */
  function Remembered(tail: seq<seq<Token>>, step: Step): (r: seq<seq<Token>>)
    requires Tailed(tail)
    ensures |r| == |tail| && forall q :: 0 <= q < |tail| ==> |r[q]| == |tail[q]|
  {
    if step.Valid(|tail|) then
      tail[step.req := tail[step.req][Physical(step.pos, |tail[step.req]|) := step.token]]
    else tail
  }

  function TailAfter(tail: seq<seq<Token>>, steps: seq<Step>): (r: seq<seq<Token>>)
    requires Tailed(tail)
    ensures |r| == |tail| && forall q :: 0 <= q < |tail| ==> |r[q]| == |tail[q]|
  {
    if steps == [] then tail else Remembered(TailAfter(tail, steps[..|steps| - 1]), steps[|steps| - 1])
  }

  /** The tokens the pool loop of a completing row reads. */
  function PoolTokens(tail: seq<seq<Token>>, step: Step, size: nat): (r: seq<Token>)
    requires Tailed(tail) && size > 0 && step.Valid(|tail|)
    ensures |r| == size
  {
    seq(size, p => if p == step.pos % size then step.token
                   else tail[step.req][Physical(step.pos - step.pos % size + p, |tail[step.req]|)])
  }

  /** What one row writes to the output. */
  function RowWrite(pool: Pool, tail: seq<seq<Token>>, step: Step, shape: Shape): Write
    requires Tailed(tail) && pool.Size() > 0 && shape.Good() && |step.table| > 0
  {
    if step.Completes(|tail|, pool.Size()) then
      Write(shape.Index(step.Page(pool.Size(), shape.slots)), step.Slot(pool.Size(), shape.slots),
            PoolVector(pool, PoolTokens(tail, step, pool.Size())))
    else Skip
  }

  /** Where a row writes, in its own numbers: only a valid row whose token is the last of
      its pool does; pool p = pos / size goes to slot p % slots of the page at table entry
      p / slots * size, or at the last entry if there are not so many. */
  lemma WhereWritten(pool: Pool, tail: seq<seq<Token>>, step: Step, shape: Shape)
    requires Tailed(tail) && pool.Size() > 0 && shape.slots > 0 && |step.table| > 0
    ensures var write, size, slots := RowWrite(pool, tail, step, shape), |pool.ape|, shape.slots;
      && (write.Write? <==>
        (0 <= step.req < |tail| && step.cacheLoc != 0 && 0 <= step.pos < step.seqLen && step.pos % size == size - 1))
      && (Fails(step, |tail|, pool.Size(), shape) <==> write.Write? && !(0 <= write.page < shape.pages))
      && (write.Write? ==>
        var i := step.pos / size / slots * size;
        && 0 <= i && write.slot == step.pos / size % slots
        && var page := if i < |step.table| then step.table[i] else step.table[|step.table| - 1];
          write.page == if page < 0 then shape.pages + page else page)
  {
    hide PoolVector, PoolTokens;
    if 0 <= step.pos {
      QuotientNat(step.pos, pool.Size());
      QuotientNat(step.pos / pool.Size(), shape.slots);
      MulMono(0, step.pos / pool.Size() / shape.slots, pool.Size());
    }
  }

  /** The table entry pool p's page is taken from. */
  function TableEntry(p: int, size: nat, slots: nat, entries: nat): (e: int)
    requires size > 0 && slots > 0 && entries > 0 && p >= 0
    ensures 0 <= e < entries
  {
    QuotientNat(p, slots);
    MulMono(0, p / slots, size);
    Least(p / slots * size, entries - 1)
  }

  lemma WrittenEntry(pool: Pool, tail: seq<seq<Token>>, step: Step, shape: Shape)
    requires Tailed(tail) && pool.Size() > 0 && shape.slots > 0 && |step.table| > 0
    requires RowWrite(pool, tail, step, shape).Write?
    ensures var write, p := RowWrite(pool, tail, step, shape), step.pos / |pool.ape|;
      && p >= 0 && step.pos == p * |pool.ape| + (|pool.ape| - 1)
      && write.page == shape.Index(step.table[TableEntry(p, |pool.ape|, shape.slots, |step.table|)])
      && write.slot == p % shape.slots
  {
    WhereWritten(pool, tail, step, shape);
    QuotientNat(step.pos, pool.Size());
    DivMod(step.pos, pool.Size());
    hide RowWrite;
  }

  /** Two pools of one request, its table naming every page once, overwrite each other
      exactly when they have the same slot and both fall on the table's last entry or
      past it. */
  lemma OverwritesIff(pool: Pool, tail: seq<seq<Token>>, a: Step, b: Step, shape: Shape)
    requires Tailed(tail) && pool.Size() > 0 && shape.slots > 0 && |a.table| > 0 && a.table == b.table && a.pos != b.pos
    requires forall i, k :: 0 <= i < k < |a.table| ==> shape.Index(a.table[i]) != shape.Index(a.table[k])
    requires RowWrite(pool, tail, a, shape).Write? && RowWrite(pool, tail, b, shape).Write?
    ensures var u, v, size, slots := RowWrite(pool, tail, a, shape), RowWrite(pool, tail, b, shape), |pool.ape|, shape.slots;
      (u.page == v.page && u.slot == v.slot)
      <==> (a.pos / size % slots == b.pos / size % slots
        && a.pos / size / slots * size >= |a.table| - 1 && b.pos / size / slots * size >= |a.table| - 1)
  {
    WrittenEntry(pool, tail, a, shape);
    WrittenEntry(pool, tail, b, shape);
    hide RowWrite;
    var size, slots, last := |pool.ape|, shape.slots, |a.table| - 1;
    var p, q := a.pos / size, b.pos / size;
    if p % slots == q % slots {
      DivMod(p, slots);
      DivMod(q, slots);
      assert p / slots != q / slots;
      ScaledApart(p / slots, q / slots, size);
    }
  }

  lemma ScaledApart(m: int, n: int, size: nat)
    requires m != n && size > 0
    ensures m * size != n * size
  {
    if m < n { BlockFits(m, n, size); } else { BlockFits(n, m, size); }
  }

  ghost predicate Tabled(steps: seq<Step>) { forall r :: 0 <= r < |steps| ==> |steps[r].table| > 0 }

  /** The batch's writes, each reading the tail as the rows before it left it. */
  function RowWrites(pool: Pool, tail: seq<seq<Token>>, steps: seq<Step>, shape: Shape): (r: seq<Write>)
    requires Tailed(tail) && pool.Size() > 0 && shape.Good() && Tabled(steps)
    ensures |r| == |steps|
  {
    if steps == [] then []
    else
      var before := steps[..|steps| - 1];
      RowWrites(pool, tail, before, shape) + [RowWrite(pool, TailAfter(tail, before), steps[|steps| - 1], shape)]
  }

  lemma OneMoreRow(pool: Pool, tail: seq<seq<Token>>, steps: seq<Step>, r: nat, shape: Shape)
    requires Tailed(tail) && pool.Size() > 0 && shape.Good() && Tabled(steps) && r < |steps|
    ensures TailAfter(tail, steps[..r + 1]) == Remembered(TailAfter(tail, steps[..r]), steps[r])
    ensures RowWrites(pool, tail, steps[..r + 1], shape)
      == RowWrites(pool, tail, steps[..r], shape) + [RowWrite(pool, TailAfter(tail, steps[..r]), steps[r], shape)]
  {
    assert steps[..r + 1][..r] == steps[..r];
    hide RowWrite, Remembered;
  }

  lemma LastWrite(writes: seq<Write>, write: Write, zeros: seq<real>, page: int, slot: int)
    ensures SlotAfter(writes + [write], zeros, page, slot) ==
      if write.Write? && write.page == page && write.slot == slot then write.vector
      else SlotAfter(writes, zeros, page, slot)
  {
    assert (writes + [write])[..|writes|] == writes;
  }

  /** Rows of other requests leave a request's tail alone. */
  lemma {:induction false} OthersLeave(tail: seq<seq<Token>>, steps: seq<Step>, req: nat)
    requires Tailed(tail) && req < |tail|
    requires forall r :: 0 <= r < |steps| && steps[r].Valid(|tail|) ==> steps[r].req != req
    ensures TailAfter(tail, steps)[req] == tail[req]
  {
    if steps != [] {
      OthersLeave(tail, steps[..|steps| - 1], req);
      assert steps[|steps| - 1].Valid(|tail|) ==> steps[|steps| - 1].req != req;
    }
  }

  ghost predicate TokensFit(pool: Pool, tail: seq<seq<Token>>) {
    forall r, j :: 0 <= r < |tail| && 0 <= j < |tail[r]| ==> |tail[r][j].key| == |tail[r][j].score| == pool.dim
  }

  lemma PoolTokensFit(pool: Pool, tail: seq<seq<Token>>, step: Step)
    requires pool.Good() && Tailed(tail) && TokensFit(pool, tail) && step.Completes(|tail|, pool.Size())
    requires |step.token.key| == |step.token.score| == pool.dim
    ensures pool.Fits(PoolTokens(tail, step, pool.Size()))
  {
    var tokens := PoolTokens(tail, step, pool.Size());
    forall p | 0 <= p < |tokens| ensures |tokens[p].key| == |tokens[p].score| == pool.dim {
      var phys := Physical(step.pos - step.pos % pool.Size() + p, |tail[step.req]|);
      assert |tail[step.req][phys].key| == |tail[step.req][phys].score| == pool.dim;
    }
  }

  /** The live tails, one circular row a request. */
  class Cache {
    const requests: nat
    const tailSize: nat
    var tail: array2<Token>
    ghost var rows: seq<seq<Token>>

    ghost predicate Valid()
      reads this, tail
    {
      && tail.Length0 == requests == |rows| && tail.Length1 == tailSize > 0
      && (forall req :: 0 <= req < requests ==> |rows[req]| == tailSize)
      && forall req, phys :: 0 <= req < requests && 0 <= phys < tailSize ==> tail[req, phys] == rows[req][phys]
    }

    constructor (requests: nat, tailSize: nat, blank: Token)
      requires tailSize > 0
      ensures Valid() && rows == seq(requests, _ => seq(tailSize, _ => blank))
      ensures this.requests == requests && this.tailSize == tailSize && fresh(tail)
    {
      this.requests, this.tailSize := requests, tailSize;
      tail := new Token[requests, tailSize]((_, _) => blank);
      rows := seq(requests, _ => seq(tailSize, _ => blank));
    }

    lemma Shapes()
      requires Valid()
      ensures tail.Length0 == requests == |rows| && tail.Length1 == tailSize > 0 && Tailed(rows)
      ensures forall req :: 0 <= req < requests ==> |rows[req]| == tailSize
    {
    }

    lemma TailTokenAt(step: Step, size: nat, p: nat)
      requires Valid() && size > 0 && p < size && step.Valid(requests)
      ensures |rows| == requests && Tailed(rows)
      ensures PoolTokens(rows, step, size)[p] ==
        if p == step.pos % size then step.token else tail[step.req, Physical(step.pos - step.pos % size + p, tailSize)]
    {
    }

    /** The pool loop of a completing row, the current token standing in the last slot. */
    method PoolFromTail(pool: Pool, step: Step) returns (vector: seq<real>)
      requires Valid() && pool.Good() && TokensFit(pool, rows)
      requires step.Completes(requests, pool.Size()) && |step.token.key| == |step.token.score| == pool.dim
      ensures |rows| == requests && Tailed(rows)
      ensures vector == PoolVector(pool, PoolTokens(rows, step, pool.Size()))
    {
      Shapes();
      var slot := step.pos % pool.Size();
      var start := step.pos - slot;
      ghost var tokens := PoolTokens(rows, step, pool.Size());
      PoolTokensFit(pool, rows, step);
      hide AllFollow, PoolVector, PoolTokens, TokensFit, Pool.Fits, Physical, Valid;
      var st := seq(pool.dim, _ => START);
      NothingAdded(pool, st, tokens);
      for p := 0 to pool.Size()
        invariant AllFollow(pool, st, tokens, p)
      {
        TailTokenAt(step, pool.Size(), p);
        var t := if p == slot then step.token else tail[step.req, Physical(start + p, tailSize)];
        st := AddToken(pool, st, t, p, tokens);
      }
      vector := Finish(pool, st, tokens);
    }

    /** The live-tail write of a valid row. */
    method Remember(step: Step)
      requires Valid() && step.Valid(requests)
      modifies this`rows, tail
      ensures Valid() && tail == old(tail) && Tailed(old(rows)) && rows == Remembered(old(rows), step)
    {
      tail[step.req, Physical(step.pos, tailSize)] := step.token;
      rows := Remembered(rows, step);
    }

    /** One row of the batch: a write if it completes its pool, then the tail write;
        an invalid row changes nothing, nor does a page that does not exist. */
    method DecodeRow(pool: Pool, step: Step, shape: Shape, out: array2<seq<real>>) returns (ok: bool)
      requires Valid() && pool.Good() && TokensFit(pool, rows) && shape.Good() && |step.table| > 0
      requires |step.token.key| == |step.token.score| == pool.dim
      requires out.Length0 == shape.pages && out.Length1 == shape.slots
      modifies this`rows, tail, out
      ensures Valid() && tail == old(tail) && Tailed(old(rows)) && TokensFit(pool, rows)
      ensures ok <==> !Fails(step, requests, pool.Size(), shape)
      ensures rows == if ok then Remembered(old(rows), step) else old(rows)
      ensures forall page, slot :: 0 <= page < out.Length0 && 0 <= slot < out.Length1 ==>
        var write := RowWrite(pool, old(rows), step, shape);
        out[page, slot] == if ok && write.Write? && write.page == page && write.slot == slot then write.vector
                           else old(out[page, slot])
    {
      Shapes();
      hide PoolVector, PoolTokens, Step.Page;
      if step.Completes(requests, pool.Size()) {
        var page := step.Page(pool.Size(), shape.slots);
        if !shape.Has(page) { return false; }
        var vector := PoolFromTail(pool, step);
        DivMod(step.pos / pool.Size(), shape.slots);
        out[shape.Index(page), step.Slot(pool.Size(), shape.slots)] := vector;
      }
      if step.Valid(requests) { Remember(step); }
      ok := true;
    }

    /** dsa_kpool_decode_update over a batch: the output is cleared, then the rows run
        in order; it stops with an index error at the first page that does not exist,
        the rows before it done. */
    method DecodeUpdate(pool: Pool, steps: seq<Step>, shape: Shape, zeros: seq<real>, out: array2<seq<real>>)
        returns (done: nat)
      requires Valid() && pool.Good() && TokensFit(pool, rows) && shape.Good() && Tabled(steps)
      requires forall r :: 0 <= r < |steps| ==> |steps[r].token.key| == |steps[r].token.score| == pool.dim
      requires out.Length0 == shape.pages && out.Length1 == shape.slots
      modifies this`rows, tail, out
      ensures Valid() && tail == old(tail) && Tailed(old(rows)) && TokensFit(pool, rows)
      ensures done <= |steps| && forall r :: 0 <= r < done ==> !Fails(steps[r], requests, pool.Size(), shape)
      ensures done < |steps| ==> Fails(steps[done], requests, pool.Size(), shape)
      ensures rows == TailAfter(old(rows), steps[..done])
      ensures forall page, slot :: 0 <= page < out.Length0 && 0 <= slot < out.Length1 ==>
        out[page, slot] == SlotAfter(RowWrites(pool, old(rows), steps[..done], shape), zeros, page, slot)
    {
      Shapes();
      hide Valid, SlotAfter, RowWrites, RowWrite, TailAfter, Remembered, TokensFit, Fails;
      ghost var start := rows;
      forall page, slot | 0 <= page < out.Length0 && 0 <= slot < out.Length1 { out[page, slot] := zeros; }
      NothingYet(pool, start, shape, zeros);
      assert steps[..0] == [];
      done := 0;
      while done < |steps|
        invariant done <= |steps| && forall r :: 0 <= r < done ==> !Fails(steps[r], requests, pool.Size(), shape)
        invariant Valid() && tail == old(tail) && TokensFit(pool, rows) && rows == TailAfter(start, steps[..done])
        invariant forall page, slot :: 0 <= page < out.Length0 && 0 <= slot < out.Length1 ==>
          out[page, slot] == SlotAfter(RowWrites(pool, start, steps[..done], shape), zeros, page, slot)
      {
        OneMoreRow(pool, start, steps, done, shape);
        forall page, slot {
          LastWrite(RowWrites(pool, start, steps[..done], shape), RowWrite(pool, rows, steps[done], shape), zeros, page, slot);
        }
        var ok := DecodeRow(pool, steps[done], shape, out);
        if !ok { return; }
        done := done + 1;
      }
    }
  }

  lemma NothingYet(pool: Pool, tail: seq<seq<Token>>, shape: Shape, zeros: seq<real>)
    requires Tailed(tail) && pool.Size() > 0 && shape.Good()
    ensures TailAfter(tail, []) == tail
    ensures forall page, slot :: SlotAfter(RowWrites(pool, tail, [], shape), zeros, page, slot) == zeros
  {
  }

  // ---- What the tail holds -------------------------------------------------------------------

  /** Every slot holds the latest token whose position falls on it. */
  ghost predicate Holds(tail: seq<seq<Token>>, history: seq<seq<Token>>) {
    && Tailed(tail) && |tail| == |history|
    && forall req, phys :: 0 <= req < |tail| && 0 <= phys < |tail[req]| ==> SlotHolds(tail[req], history[req], phys)
  }

  ghost predicate SlotHolds(row: seq<Token>, history: seq<Token>, phys: nat)
    requires phys < |row|
  {
    Held(|history|, |row|, phys) >= 0 ==> row[phys] == history[Held(|history|, |row|, phys)]
  }

  /** The histories after a batch: each valid row's token appended to its request. */
  function Appended(history: seq<seq<Token>>, steps: seq<Step>): (r: seq<seq<Token>>)
    ensures |r| == |history|
  {
    if steps == [] then history
    else
      var h, last := Appended(history, steps[..|steps| - 1]), steps[|steps| - 1];
      if last.Valid(|history|) then h[last.req := h[last.req] + [last.token]] else h
  }

  /** Row r, if valid, continues its request as the rows before it have left it. */
  ghost predicate ContinuesAt(history: seq<seq<Token>>, steps: seq<Step>, r: nat)
    requires r < |steps|
  {
    steps[r].Valid(|history|) ==> steps[r].pos == |Appended(history, steps[..r])[steps[r].req]|
  }

  ghost predicate Continues(history: seq<seq<Token>>, steps: seq<Step>) {
    forall r :: 0 <= r < |steps| ==> ContinuesAt(history, steps, r)
  }

  lemma ContinuesSoFar(history: seq<seq<Token>>, steps: seq<Step>, n: nat)
    requires Continues(history, steps) && n <= |steps|
    ensures Continues(history, steps[..n])
  {
    hide Appended;
    forall r | 0 <= r < n ensures ContinuesAt(history, steps[..n], r) {
      assert steps[..n][..r] == steps[..r] && steps[..n][r] == steps[r];
      assert ContinuesAt(history, steps, r);
    }
  }

  /** A request that has had no tokens yet: any tail will do. */
  lemma NothingHeld(tail: seq<seq<Token>>)
    requires Tailed(tail)
    ensures Holds(tail, seq(|tail|, _ => []))
  {
  }

  lemma RowHolds(tail: seq<seq<Token>>, history: seq<seq<Token>>, step: Step)
    requires Holds(tail, history) && step.Valid(|tail|) && step.pos == |history[step.req]|
    ensures Holds(Remembered(tail, step), history[step.req := history[step.req] + [step.token]])
  {
    var t, h := Remembered(tail, step), history[step.req := history[step.req] + [step.token]];
    forall req, phys | 0 <= req < |t| && 0 <= phys < |t[req]| ensures SlotHolds(t[req], h[req], phys) {
      assert SlotHolds(tail[req], history[req], phys);
    }
  }

  /** A batch that continues the histories leaves the tails holding their ends. */
  lemma {:induction false} BatchHolds(tail: seq<seq<Token>>, history: seq<seq<Token>>, steps: seq<Step>)
    requires Holds(tail, history) && Continues(history, steps)
    ensures Holds(TailAfter(tail, steps), Appended(history, steps))
  {
    if steps != [] {
      var n := |steps| - 1;
      ContinuesSoFar(history, steps, n);
      BatchHolds(tail, history, steps[..n]);
      assert ContinuesAt(history, steps, n);
      if steps[n].Valid(|tail|) { RowHolds(TailAfter(tail, steps[..n]), Appended(history, steps[..n]), steps[n]); }
      hide Holds;
    }
  }

  /** Then a tail holds its request's last tokens, each at its position mod the tail size. */
  lemma LastTokens(tail: seq<seq<Token>>, history: seq<seq<Token>>, req: nat, j: nat)
    requires Holds(tail, history) && req < |tail| && j < |history[req]| && |history[req]| - j <= |tail[req]|
    ensures 0 <= j % |tail[req]| < |tail[req]| && tail[req][j % |tail[req]|] == history[req][j]
  {
    DivMod(j, |tail[req]|);
    HeldRecent(|history[req]|, |tail[req]|, j);
    assert SlotHolds(tail[req], history[req], Physical(j, |tail[req]|));
  }

  /** The true tokens of a pool whose last one is arriving. */
  function PoolOf(history: seq<Token>, token: Token, size: nat): seq<Token>
    requires 0 < size <= |history| + 1
  {
    history[|history| - (size - 1)..] + [token]
  }

  lemma PoolOfIsHistory(history: seq<Token>, token: Token, size: nat)
    requires 0 < size <= |history| + 1
    ensures var h := history + [token]; PoolOf(history, token, size) == h[|h| - size..]
  {
  }

  lemma CompletePool(pos: nat, size: nat)
    requires size > 0 && pos % size == size - 1
    ensures size - 1 <= pos
  {
    DivMod(pos, size);
    if pos / size < 0 { MulMono(pos / size, -1, size); }
    MulMono(0, pos / size, size);
  }

  /** With a tail of at least size - 1 slots the pool loop reads the true tokens: the last
      `size` of the history, its own included. */
  lemma TruePool(tail: seq<seq<Token>>, history: seq<seq<Token>>, step: Step, size: nat)
    requires Holds(tail, history) && size > 0 && step.Completes(|tail|, size)
    requires step.pos == |history[step.req]| && size <= |tail[step.req]| + 1
    ensures size - 1 <= step.pos
    ensures PoolTokens(tail, step, size) == PoolOf(history[step.req], step.token, size)
    ensures var h := history[step.req] + [step.token]; PoolTokens(tail, step, size) == h[|h| - size..]
  {
    CompletePool(step.pos, size);
    PoolOfIsHistory(history[step.req], step.token, size);
    var start := step.pos - step.pos % size;
    forall p | 0 <= p < size - 1 ensures PoolTokens(tail, step, size)[p] == history[step.req][start + p] {
      LastTokens(tail, history, step.req, start + p);
      assert PoolTokens(tail, step, size)[p] == tail[step.req][Physical(start + p, |tail[step.req]|)];
    }
  }

  /** What row r writes if the pool's true tokens are read. */
  function TrueWrite(pool: Pool, history: seq<seq<Token>>, step: Step, shape: Shape): Write
    requires pool.Size() > 0 && shape.Good() && |step.table| > 0
    requires step.Valid(|history|) ==> step.pos == |history[step.req]|
  {
    if step.Completes(|history|, pool.Size()) then
      CompletePool(step.pos, pool.Size());
      Write(shape.Index(step.Page(pool.Size(), shape.slots)), step.Slot(pool.Size(), shape.slots),
            PoolVector(pool, PoolOf(history[step.req], step.token, pool.Size())))
    else Skip
  }

  lemma RowIsTrue(pool: Pool, tail: seq<seq<Token>>, history: seq<seq<Token>>, step: Step, shape: Shape)
    requires Holds(tail, history) && pool.Size() > 0 && shape.Good() && |step.table| > 0
    requires forall req :: 0 <= req < |tail| ==> pool.Size() <= |tail[req]| + 1
    requires step.Valid(|history|) ==> step.pos == |history[step.req]|
    ensures RowWrite(pool, tail, step, shape) == TrueWrite(pool, history, step, shape)
  {
    hide PoolVector, Step.Page, Step.Slot;
    if step.Completes(|tail|, pool.Size()) { TruePool(tail, history, step, pool.Size()); }
    hide Holds, PoolTokens, PoolOf;
  }

  /** A batch that continues the histories writes, row by row, the vector of the
      pool's true tokens. */
  lemma TrueWrites(pool: Pool, tail: seq<seq<Token>>, history: seq<seq<Token>>, steps: seq<Step>, shape: Shape, r: nat)
    requires Holds(tail, history) && Continues(history, steps) && r < |steps|
    requires pool.Size() > 0 && shape.Good() && Tabled(steps)
    requires forall req :: 0 <= req < |tail| ==> pool.Size() <= |tail[req]| + 1
    ensures ContinuesAt(history, steps, r)
    ensures RowWrites(pool, tail, steps, shape)[r] == TrueWrite(pool, Appended(history, steps[..r]), steps[r], shape)
  {
    WriteAt(pool, tail, steps, shape, r);
    ContinuesSoFar(history, steps, r);
    BatchHolds(tail, history, steps[..r]);
    hide Holds, RowWrites, RowWrite, TrueWrite, TailAfter, Appended;
    assert ContinuesAt(history, steps, r);
    RowIsTrue(pool, TailAfter(tail, steps[..r]), Appended(history, steps[..r]), steps[r], shape);
  }

  lemma {:induction false} WriteAt(pool: Pool, tail: seq<seq<Token>>, steps: seq<Step>, shape: Shape, r: nat)
    requires Tailed(tail) && pool.Size() > 0 && shape.Good() && Tabled(steps) && r < |steps|
    ensures RowWrites(pool, tail, steps, shape)[r] == RowWrite(pool, TailAfter(tail, steps[..r]), steps[r], shape)
  {
    hide RowWrite, TailAfter;
    if r < |steps| - 1 {
      WriteAt(pool, tail, steps[..|steps| - 1], shape, r);
      assert steps[..|steps| - 1][..r] == steps[..r];
    }
  }

  /** The vector a completing row writes is the one dsa_kpool_assemble gives for the
      same pool, however that pool is cut between tail and chunk. */
  lemma DecodeAgreesWithAssemble(pool: Pool, decoded: seq<seq<Token>>, history: seq<seq<Token>>, step: Step, shape: Shape,
                                 piece: Piece, tail: seq<seq<Token>>, chunk: seq<Token>)
    requires Holds(decoded, history) && pool.Size() > 0 && shape.Good() && |step.table| > 0
    requires step.Completes(|decoded|, pool.Size()) && step.pos == |history[step.req]|
    requires forall req :: 0 <= req < |decoded| ==> pool.Size() <= |decoded[req]| + 1
    requires PieceOk(piece, tail, chunk, pool.Size()) && !piece.masked && pool.Size() - 1 <= step.pos
    requires forall s: nat :: s < pool.Size() ==>
      ReadsAt(piece, tail, chunk, s, PoolOf(history[step.req], step.token, pool.Size())[s])
    ensures PieceWrite(pool, piece, tail, chunk, shape.slots).vector == RowWrite(pool, decoded, step, shape).vector
  {
    hide PoolVector;
    RowIsTrue(pool, decoded, history, step, shape);
    SplitIrrelevant(piece, tail, chunk, pool.Size(), PoolOf(history[step.req], step.token, pool.Size()));
  }
}
