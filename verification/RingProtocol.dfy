/** Ring all-reduce as a protocol: `world` ranks over FIFO edges, two phases of
    world - 1 steps each. Addition is uninterpreted, so the results below say
    which additions are made, in which order and operand position. */
module RingProtocol {
  import opened IntArith
  import opened Totals

  /** sends[r], recvs[r]: operations rank r has completed. edges[r] is the queue
      from r to its successor. local[r][c] is rank r's chunk c. */
  datatype State<T> = State(sends: seq<nat>, recvs: seq<nat>, local: seq<seq<T>>, edges: seq<seq<T>>)

  function Next(w: nat, r: nat): (n: nat)
    requires r < w
    ensures n < w
  {
    DivMod(r + 1, w);
    (r + 1) % w
  }

  function Prev(w: nat, r: nat): (n: nat)
    requires r < w
    ensures n < w
  {
    DivMod(r - 1, w);
    (r - 1) % w
  }

  /** Chunk sent at step n: (rank - t), then (rank - t + 1) in phase 2. */
  function SendChunk(w: nat, r: nat, n: nat): (c: nat)
    requires w > 0
    ensures c < w
  {
    DivMod(r - n, w);
    DivMod(r - (n - (w - 1)) + 1, w);
    if n < w - 1 then (r - n) % w else (r - (n - (w - 1)) + 1) % w
  }

  /** Chunk received at step n: (rank - t - 1), then (rank - t) in phase 2. */
  function RecvChunk(w: nat, r: nat, n: nat): (c: nat)
    requires w > 0
    ensures c < w
  {
    DivMod(r - n - 1, w);
    DivMod(r - (n - (w - 1)), w);
    if n < w - 1 then (r - n - 1) % w else (r - (n - (w - 1))) % w
  }

  /** Steps each rank makes. */
  function Steps(w: nat): nat
    requires w > 0
  {
    2 * (w - 1)
  }

  ghost predicate Shaped<T>(w: nat, s: State<T>) {
    && w > 0 && |s.sends| == |s.recvs| == |s.local| == |s.edges| == w
    && forall r :: 0 <= r < w ==> |s.local[r]| == w
  }

  ghost predicate CanSend<T>(w: nat, s: State<T>, r: nat)
    requires Shaped(w, s) && r < w
  {
    s.sends[r] == s.recvs[r] < Steps(w)
  }

  ghost predicate CanRecv<T>(w: nat, s: State<T>, r: nat)
    requires Shaped(w, s) && r < w
  {
    s.sends[r] == s.recvs[r] + 1 && s.recvs[r] < Steps(w) && |s.edges[Prev(w, r)]| > 0
  }

  /** next_ch.send(chunk_of(send_c)). */
  ghost function DoSend<T>(w: nat, s: State<T>, r: nat): State<T>
    requires Shaped(w, s) && r < w
  {
    s.(sends := s.sends[r := s.sends[r] + 1],
       edges := s.edges[r := s.edges[r] + [s.local[r][SendChunk(w, r, s.sends[r])]]])
  }

  /** got = prev_ch.recv(), then the chunk is added to or replaced. */
  ghost function DoRecv<T>(add: (T, T) -> T, w: nat, s: State<T>, r: nat): State<T>
    requires Shaped(w, s) && r < w && |s.edges[Prev(w, r)]| > 0
  {
    var p := Prev(w, r);
    var got := s.edges[p][0];
    var c := RecvChunk(w, r, s.recvs[r]);
    var v := if s.recvs[r] < w - 1 then add(s.local[r][c], got) else got;
    s.(recvs := s.recvs[r := s.recvs[r] + 1],
       local := s.local[r := s.local[r][c := v]],
       edges := s.edges[p := s.edges[p][1..]])
  }

  /** Rank r can take its next action. */
  ghost predicate Enabled<T>(w: nat, s: State<T>, r: nat)
    requires Shaped(w, s)
  {
    r < w && (CanSend(w, s, r) || CanRecv(w, s, r))
  }

  ghost function Act<T>(add: (T, T) -> T, w: nat, s: State<T>, r: nat): (s': State<T>)
    requires Shaped(w, s) && Enabled(w, s, r)
    ensures Shaped(w, s')
  {
    if CanSend(w, s, r) then DoSend(w, s, r) else DoRecv(add, w, s, r)
  }

  ghost function Init<T>(w: nat, x: seq<seq<T>>): State<T> {
    State(seq(w, _ => 0), seq(w, _ => 0), x, seq(w, _ => []))
  }

  ghost predicate Finished<T>(w: nat, s: State<T>)
    requires Shaped(w, s)
  {
    forall r :: 0 <= r < w ==> s.recvs[r] == Steps(w)
  }

  /** A run is the sequence of ranks the scheduler picks; each pick is enabled. */
  ghost predicate IsRun<T>(add: (T, T) -> T, w: nat, x: seq<seq<T>>, run: seq<nat>)
    requires Shaped(w, Init(w, x))
    decreases |run|, 0
  {
    run == [] || (IsRun(add, w, x, run[..|run| - 1]) && Enabled(w, After(add, w, x, run[..|run| - 1]), run[|run| - 1]))
  }

  ghost function After<T>(add: (T, T) -> T, w: nat, x: seq<seq<T>>, run: seq<nat>): (s: State<T>)
    requires Shaped(w, Init(w, x)) && IsRun(add, w, x, run)
    ensures Shaped(w, s)
    decreases |run|, 1
  {
    if run == [] then Init(w, x)
    else Act(add, w, After(add, w, x, run[..|run| - 1]), run[|run| - 1])
  }

  // ---- What every rank holds, as a function of its own progress ---------------

  /** add(x_{c+j}, ... add(x_{c+1}, x_c)) on chunk c, ranks mod w. */
  ghost function Partial<T>(add: (T, T) -> T, w: nat, x: seq<seq<T>>, c: nat, j: nat): T
    requires Shaped(w, Init(w, x)) && c < w
  {
    if j == 0 then x[c][c]
    else
      DivBounds(c + j, w);
      DivMod(c + j, w);
      add(x[(c + j) % w][c], Partial(add, w, x, c, j - 1))
  }

  /** The all-reduced value of chunk c. */
  ghost function Reduced<T>(add: (T, T) -> T, w: nat, x: seq<seq<T>>, c: nat): T
    requires Shaped(w, Init(w, x)) && c < w
  {
    Partial(add, w, x, c, w - 1)
  }

  /** How far rank r is past the rank that owns chunk c. */
  function Dist(w: nat, r: nat, c: nat): (d: nat)
    requires r < w && c < w
    ensures d < w
  {
    if c <= r then r - c else r - c + w
  }

  /** Chunk c of rank r after n receives. */
  ghost function Value<T>(add: (T, T) -> T, w: nat, x: seq<seq<T>>, r: nat, c: nat, n: nat): T
    requires Shaped(w, Init(w, x)) && r < w && c < w
  {
    var d, m := Dist(w, r, c), w - 1;
    if n <= m then (if d <= n then Partial(add, w, x, c, d) else x[r][c])
    else if d < n - m || d == m then Reduced(add, w, x, c)
    else Partial(add, w, x, c, d)
  }

  /** a % w for -w <= a < 2w. */
  lemma ModNear(a: int, w: nat)
    requires 0 <= a + w && a < 2 * w && w > 0
    ensures a % w == if a < 0 then a + w else if a < w then a else a - w
  {
    if a < 0 {
      DivUnique(a, w, -1);
    } else if a < w {
      DivUnique(a, w, 0);
    } else {
      DivUnique(a, w, 1);
    }
  }

  lemma Neighbours(w: nat, r: nat)
    requires r < w
    ensures Next(w, r) == if r + 1 == w then 0 else r + 1
    ensures Prev(w, r) == if r == 0 then w - 1 else r - 1
    ensures Next(w, Prev(w, r)) == r && Prev(w, Next(w, r)) == r
  {
    ModNear(r + 1, w);
    ModNear(r - 1, w);
    ModNear(w, w);
    ModNear(-1, w);
    ModNear(r, w);
  }

  /** The chunk rank r receives at step n is the one its predecessor sends then,
      and where it stands on the ring. */
  lemma ChunkArithmetic(w: nat, r: nat, n: nat)
    requires r < w && n < Steps(w)
    ensures SendChunk(w, Prev(w, r), n) == RecvChunk(w, r, n)
    ensures n < w - 1 ==> Dist(w, r, RecvChunk(w, r, n)) == n + 1 && Dist(w, Prev(w, r), RecvChunk(w, r, n)) == n
    ensures n >= w - 1 ==> Dist(w, r, RecvChunk(w, r, n)) == n - (w - 1)
    ensures n >= w - 1 ==> Dist(w, Prev(w, r), RecvChunk(w, r, n)) == if n == w - 1 then w - 1 else n - (w - 1) - 1
  {
    Neighbours(w, r);
    var p := Prev(w, r);
    if n < w - 1 {
      ModNear(r - n, w);
      ModNear(r - n - 1, w);
      ModNear(p - n, w);
    } else {
      var t := n - (w - 1);
      ModNear(r - t + 1, w);
      ModNear(r - t, w);
      ModNear(p - t + 1, w);
    }
  }

  /** The message rank r sends at step n. */
  ghost function Message<T>(add: (T, T) -> T, w: nat, x: seq<seq<T>>, r: nat, n: nat): T
    requires Shaped(w, Init(w, x)) && r < w
  {
    Value(add, w, x, r, SendChunk(w, r, n), n)
  }

  /** The message rank r receives at step n: its predecessor's. */
  ghost function Incoming<T>(add: (T, T) -> T, w: nat, x: seq<seq<T>>, r: nat, n: nat): T
    requires Shaped(w, Init(w, x)) && r < w
  {
    Message(add, w, x, Prev(w, r), n)
  }

  /** One receive takes the ring values from n to n + 1. */
  lemma ReceiveAdvances<T>(add: (T, T) -> T, w: nat, x: seq<seq<T>>, r: nat, n: nat, c: nat)
    requires Shaped(w, Init(w, x)) && r < w && n < Steps(w) && c < w
    ensures Value(add, w, x, r, c, n + 1) ==
            if c != RecvChunk(w, r, n) then Value(add, w, x, r, c, n)
            else if n < w - 1 then add(Value(add, w, x, r, c, n), Incoming(add, w, x, r, n))
            else Incoming(add, w, x, r, n)
  {
    Neighbours(w, r);
    ChunkArithmetic(w, r, n);
    if c == RecvChunk(w, r, n) {
      if n < w - 1 {
        ModNear(c + n + 1, w);
        assert (c + (n + 1)) % w == r;
      }
    }
  }

  // ---- The invariant over every run -------------------------------------------

  ghost predicate RankOk<T>(add: (T, T) -> T, w: nat, x: seq<seq<T>>, s: State<T>, r: nat)
    requires Shaped(w, Init(w, x)) && Shaped(w, s) && r < w
  {
    && s.recvs[r] <= s.sends[r] <= s.recvs[r] + 1 && s.sends[r] <= Steps(w)
    && forall c :: 0 <= c < w ==> s.local[r][c] == Value(add, w, x, r, c, s.recvs[r])
  }

  /** The edge out of r holds exactly r's messages its successor has not taken. */
  ghost predicate EdgeOk<T>(add: (T, T) -> T, w: nat, x: seq<seq<T>>, s: State<T>, r: nat)
    requires Shaped(w, Init(w, x)) && Shaped(w, s) && r < w
  {
    var taken := s.recvs[Next(w, r)];
    && |s.edges[r]| == s.sends[r] - taken
    && forall k :: 0 <= k < |s.edges[r]| ==> s.edges[r][k] == Message(add, w, x, r, taken + k)
  }

  ghost predicate Inv<T>(add: (T, T) -> T, w: nat, x: seq<seq<T>>, s: State<T>)
    requires Shaped(w, Init(w, x))
  {
    && Shaped(w, s)
    && (forall r :: 0 <= r < w ==> RankOk(add, w, x, s, r))
    && (forall r :: 0 <= r < w ==> EdgeOk(add, w, x, s, r))
  }

  lemma InitInv<T>(add: (T, T) -> T, w: nat, x: seq<seq<T>>)
    requires Shaped(w, Init(w, x))
    ensures Inv(add, w, x, Init(w, x))
  {
    forall r | 0 <= r < w ensures EdgeOk(add, w, x, Init(w, x), r) {
      Neighbours(w, r);
    }
    forall r, c | 0 <= r < w && 0 <= c < w ensures Value(add, w, x, r, c, 0) == x[r][c] {
    }
  }

  lemma SendInv<T>(add: (T, T) -> T, w: nat, x: seq<seq<T>>, s: State<T>, r: nat)
    requires Shaped(w, Init(w, x)) && Inv(add, w, x, s) && r < w && CanSend(w, s, r)
    ensures Inv(add, w, x, DoSend(w, s, r))
  {
    hide Value, SendChunk, Next;
    var s' := DoSend(w, s, r);
    assert RankOk(add, w, x, s, r);
    forall q | 0 <= q < w ensures RankOk(add, w, x, s', q) {
      assert RankOk(add, w, x, s, q);
    }
    forall q | 0 <= q < w ensures EdgeOk(add, w, x, s', q) {
      assert EdgeOk(add, w, x, s, q);
    }
  }

  lemma RecvRankOk<T>(add: (T, T) -> T, w: nat, x: seq<seq<T>>, s: State<T>, r: nat, q: nat)
    requires Shaped(w, Init(w, x)) && Shaped(w, s) && r < w && q < w && CanRecv(w, s, r)
    requires RankOk(add, w, x, s, r) && RankOk(add, w, x, s, q)
    requires s.edges[Prev(w, r)][0] == Incoming(add, w, x, r, s.recvs[r])
    ensures RankOk(add, w, x, DoRecv(add, w, s, r), q)
  {
    hide Value, Incoming, Prev, RecvChunk;
    var n := s.recvs[r];
    var s' := DoRecv(add, w, s, r);
    assert s'.sends == s.sends && s'.recvs == s.recvs[r := n + 1];
    if q == r {
      var got, rc := s.edges[Prev(w, r)][0], RecvChunk(w, r, n);
      assert s'.local[r] == s.local[r][rc := if n < w - 1 then add(s.local[r][rc], got) else got];
      assert s'.recvs[r] <= s'.sends[r] <= s'.recvs[r] + 1 && s'.sends[r] <= Steps(w);
      forall c: nat | c < w ensures s'.local[r][c] == Value(add, w, x, r, c, n + 1) {
        ReceiveAdvances(add, w, x, r, n, c);
        assert s.local[r][c] == Value(add, w, x, r, c, n);
      }
      assert RankOk(add, w, x, s', r);
    } else {
      assert s'.local[q] == s.local[q];
      assert RankOk(add, w, x, s', q);
    }
  }

  lemma RecvEdgeOk<T>(add: (T, T) -> T, w: nat, x: seq<seq<T>>, s: State<T>, r: nat, q: nat)
    requires Shaped(w, Init(w, x)) && Shaped(w, s) && r < w && q < w && CanRecv(w, s, r)
    requires EdgeOk(add, w, x, s, q)
    ensures EdgeOk(add, w, x, DoRecv(add, w, s, r), q)
  {
    Neighbours(w, r);
    Neighbours(w, q);
    hide Message, RecvChunk, Next, Prev;
  }

  lemma RecvInv<T>(add: (T, T) -> T, w: nat, x: seq<seq<T>>, s: State<T>, r: nat)
    requires Shaped(w, Init(w, x)) && Inv(add, w, x, s) && r < w && CanRecv(w, s, r)
    ensures Inv(add, w, x, DoRecv(add, w, s, r))
  {
    Neighbours(w, r);
    assert EdgeOk(add, w, x, s, Prev(w, r)) && RankOk(add, w, x, s, r);
    hide RankOk;
    forall q | 0 <= q < w ensures RankOk(add, w, x, DoRecv(add, w, s, r), q) && EdgeOk(add, w, x, DoRecv(add, w, s, r), q) {
      assert RankOk(add, w, x, s, q) && EdgeOk(add, w, x, s, q);
      RecvRankOk(add, w, x, s, r, q);
      RecvEdgeOk(add, w, x, s, r, q);
    }
  }

  lemma ActInv<T>(add: (T, T) -> T, w: nat, x: seq<seq<T>>, s: State<T>, r: nat)
    requires Shaped(w, Init(w, x)) && Inv(add, w, x, s) && Enabled(w, s, r)
    ensures Inv(add, w, x, Act(add, w, s, r))
  {
    if CanSend(w, s, r) {
      SendInv(add, w, x, s, r);
    } else {
      RecvInv(add, w, x, s, r);
    }
  }

  lemma {:induction false} RunInv<T>(add: (T, T) -> T, w: nat, x: seq<seq<T>>, run: seq<nat>)
    requires Shaped(w, Init(w, x)) && IsRun(add, w, x, run)
    ensures Inv(add, w, x, After(add, w, x, run))
    decreases |run|
  {
    if run == [] {
      InitInv(add, w, x);
    } else {
      var before := run[..|run| - 1];
      RunInv(add, w, x, before);
      ActInv(add, w, x, After(add, w, x, before), run[|run| - 1]);
    }
  }

  // ---- Main results --------------------------------------------------------------

  /** A finished state holds the one nested sum everywhere, with empty edges. */
  lemma FinishedReduced<T>(add: (T, T) -> T, w: nat, x: seq<seq<T>>, s: State<T>, r: nat, c: nat)
    requires Shaped(w, Init(w, x)) && Inv(add, w, x, s) && Finished(w, s) && r < w && c < w
    ensures s.local[r][c] == Reduced(add, w, x, c) && s.edges[r] == []
  {
    assert RankOk(add, w, x, s, r) && EdgeOk(add, w, x, s, r) && RankOk(add, w, x, s, Next(w, r));
  }

  /** Determinism: whatever the interleaving, every rank ends with the same value
      of every chunk, the one nested sum, and nothing is left in flight. */
  lemma Deterministic<T>(add: (T, T) -> T, w: nat, x: seq<seq<T>>, run: seq<nat>, r: nat, c: nat)
    requires Shaped(w, Init(w, x)) && IsRun(add, w, x, run) && r < w && c < w
    requires Finished(w, After(add, w, x, run))
    ensures After(add, w, x, run).local[r][c] == Reduced(add, w, x, c)
    ensures After(add, w, x, run).edges[r] == []
  {
    RunInv(add, w, x, run);
    FinishedReduced(add, w, x, After(add, w, x, run), r, c);
  }

  /** In any state the invariant allows, until all have finished some rank can act. */
  lemma SomeoneEnabled<T>(add: (T, T) -> T, w: nat, x: seq<seq<T>>, s: State<T>) returns (r: nat)
    requires Shaped(w, Init(w, x)) && Inv(add, w, x, s) && !Finished(w, s)
    ensures Enabled(w, s, r)
  {
    r := Slowest(s.recvs);
    Neighbours(w, r);
    var p := Prev(w, r);
    assert RankOk(add, w, x, s, r) && RankOk(add, w, x, s, p) && EdgeOk(add, w, x, s, p);
    var unfinished :| 0 <= unfinished < w && s.recvs[unfinished] != Steps(w);
    assert RankOk(add, w, x, s, unfinished);
    if !CanSend(w, s, r) && s.sends[p] == s.recvs[r] {
      // The predecessor is no further than r, so it can send.
      assert CanSend(w, s, p);
      r := p;
    }
  }

  /** Progress: no reachable unfinished state is stuck. */
  lemma NeverStuck<T>(add: (T, T) -> T, w: nat, x: seq<seq<T>>, run: seq<nat>) returns (r: nat)
    requires Shaped(w, Init(w, x)) && IsRun(add, w, x, run)
    requires !Finished(w, After(add, w, x, run))
    ensures Enabled(w, After(add, w, x, run), r) && IsRun(add, w, x, run + [r])
  {
    RunInv(add, w, x, run);
    r := SomeoneEnabled(add, w, x, After(add, w, x, run));
    assert (run + [r])[..|run|] == run;
  }

  lemma Slowest(n: seq<nat>) returns (r: nat)
    requires |n| > 0
    ensures r < |n| && forall q :: 0 <= q < |n| ==> n[r] <= n[q]
  {
    r := 0;
    for q := 1 to |n|
      invariant r < |n| && forall k :: 0 <= k < q ==> n[r] <= n[k]
    {
      if n[q] < n[r] {
        r := q;
      }
    }
  }

  lemma ActCounts<T>(add: (T, T) -> T, w: nat, s: State<T>, r: nat)
    requires Shaped(w, s) && Enabled(w, s, r)
    ensures Total(Act(add, w, s, r).sends) + Total(Act(add, w, s, r).recvs) == Total(s.sends) + Total(s.recvs) + 1
  {
    hide Total, RecvChunk, SendChunk, Prev, Next;
    TotalUpdate(s.sends, r, s.sends[r] + 1);
    TotalUpdate(s.recvs, r, s.recvs[r] + 1);
  }

  /** Every action is one send or one receive, so the totals count the run. */
  lemma {:induction false} RunCounts<T>(add: (T, T) -> T, w: nat, x: seq<seq<T>>, run: seq<nat>)
    requires Shaped(w, Init(w, x)) && IsRun(add, w, x, run)
    ensures Total(After(add, w, x, run).sends) + Total(After(add, w, x, run).recvs) == |run|
    decreases |run|
  {
    if run == [] {
      TotalOfEqual(Init(w, x).sends, 0);
    } else {
      hide Total, Act, Enabled;
      var before := run[..|run| - 1];
      RunCounts(add, w, x, before);
      ActCounts(add, w, After(add, w, x, before), run[|run| - 1]);
    }
  }

  /** Every finished run makes exactly 2 w (w - 1) sends and as many receives. */
  lemma ExactCost<T>(add: (T, T) -> T, w: nat, x: seq<seq<T>>, run: seq<nat>)
    requires Shaped(w, Init(w, x)) && IsRun(add, w, x, run) && Finished(w, After(add, w, x, run))
    ensures Total(After(add, w, x, run).sends) == Total(After(add, w, x, run).recvs) == w * Steps(w)
    ensures |run| == 2 * (w * Steps(w))
  {
    var s := After(add, w, x, run);
    RunInv(add, w, x, run);
    forall r | 0 <= r < w ensures s.sends[r] == Steps(w) {
      assert RankOk(add, w, x, s, r);
    }
    TotalOfEqual(s.sends, Steps(w));
    TotalOfEqual(s.recvs, Steps(w));
    RunCounts(add, w, x, run);
  }

  /** What is left to do in a state the invariant allows. */
  lemma WorkBounded<T>(add: (T, T) -> T, w: nat, x: seq<seq<T>>, s: State<T>)
    requires Shaped(w, Init(w, x)) && Inv(add, w, x, s)
    ensures Total(s.sends) + Total(s.recvs) <= 2 * (w * Steps(w))
  {
    var full := seq(w, _ => Steps(w));
    forall r | 0 <= r < w ensures s.sends[r] <= full[r] && s.recvs[r] <= full[r] {
      assert RankOk(add, w, x, s, r);
    }
    TotalMono(s.sends, full, 0);
    TotalMono(s.recvs, full, 0);
    TotalOfEqual(full, Steps(w));
  }

  /** No run is longer than the finished ones, so every run can be completed. */
  lemma RunBounded<T>(add: (T, T) -> T, w: nat, x: seq<seq<T>>, run: seq<nat>)
    requires Shaped(w, Init(w, x)) && IsRun(add, w, x, run)
    ensures |run| <= 2 * (w * Steps(w))
  {
    RunInv(add, w, x, run);
    WorkBounded(add, w, x, After(add, w, x, run));
    RunCounts(add, w, x, run);
  }

  ghost function Lengths<T>(edges: seq<seq<T>>): (n: seq<nat>)
    ensures |n| == |edges| && forall r :: 0 <= r < |n| ==> n[r] == |edges[r]|
  {
    seq(|edges|, r requires 0 <= r < |edges| => |edges[r]|)
  }

  /** At most w messages are in flight at any time. */
  lemma InFlightBound<T>(add: (T, T) -> T, w: nat, x: seq<seq<T>>, run: seq<nat>)
    requires Shaped(w, Init(w, x)) && IsRun(add, w, x, run)
    ensures Total(Lengths(After(add, w, x, run).edges)) <= w
  {
    var s := After(add, w, x, run);
    RunInv(add, w, x, run);
    hide Value, Message, After, IsRun, Next, Total;
    forall r | 0 <= r < w ensures s.sends[r] <= s.recvs[r] + 1 && s.sends[r] == Lengths(s.edges)[r] + s.recvs[Next(w, r)] {
      assert RankOk(add, w, x, s, r) && EdgeOk(add, w, x, s, r);
    }
    QueuedTotal(w, s.sends, s.recvs, Lengths(s.edges));
  }

  lemma QueuedTotal(w: nat, sends: seq<nat>, recvs: seq<nat>, queued: seq<nat>)
    requires w > 0 && |sends| == |recvs| == |queued| == w
    requires forall r :: 0 <= r < w ==> sends[r] <= recvs[r] + 1 && sends[r] == queued[r] + recvs[Next(w, r)]
    ensures Total(queued) <= w
  {
    TotalMono(sends, recvs, 1);
    var rotated := seq(w, r requires 0 <= r < w => recvs[Next(w, r)]);
    RotateTotal(w, recvs, rotated);
    TotalSum(queued, rotated, sends);
  }

  lemma RotateTotal(w: nat, n: seq<nat>, rotated: seq<nat>)
    requires w > 0 && |n| == |rotated| == w
    requires forall r :: 0 <= r < w ==> rotated[r] == n[Next(w, r)]
    ensures Total(rotated) == Total(n)
  {
    forall r | 0 <= r < w ensures Next(w, r) == if r + 1 == w then 0 else r + 1 {
      Neighbours(w, r);
    }
    assert rotated[..w - 1] == n[1..];
    TotalTail(n);
  }
}
