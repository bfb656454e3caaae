# vkernels: verified models

A Dafny model of the algorithm-bearing parts of vkernels, with proofs of what they
promise. `dafny verify dfyconfig.toml` checks everything.

| part | files |
|---|---|
| KDA delta rule, chunked and scalar-gate forms | `KdaRecurrence`, `KdaChunkAlgebra`, `KdaChunk`, `KdaScalarAlgebra`, `KdaScalar`, `KdaRulesCompared`, `KdaFormula`, `UnitLower`, `LowerInverse` |
| Routed mixture of experts, tensor and expert parallel | `MoeAlign`, `MoeWeights`, `MoeGates`, `MoeSpec`, `MoeTiles`, `MoeFused`, `MoeStages`, `MoeBlocks`, `MoeTp`, `MoeEp`, `MoeAgreement`, `MoeFormula` |
| Ring all-reduce | `RingProtocol`, `RingAllReduce` |
| Grid barrier, persistent megakernel, probes | `CounterBarrier`, `Tasks`, `GridStride`, `GridCalls`, `GridMachine`, `SpineTasks`, `SpineLayer`, `Megakernel`, `SpineFormula`, `BarrierProbes` |
| Stream and overlap executor | `StreamMonitor`, `OverlapExecutor` |
| Pooled-key cache | `KpoolMean`, `KpoolCache` |
| Number formats, four-bit quantisation and its combine | `Formats`, `MxfpQuant`, `MxfpCombine` |
| Tiled GEMM traversal | `TiledGemm` |
| Sums, products, index arithmetic, buffers | `Sums`, `Totals`, `RealArith`, `IntArith`, `ExpLaws`, `Buffers` |

## How the model reads the code

- Arithmetic is over `real`. `exp` is a parameter of which only positivity and
  exp(a + b) = exp(a) exp(b) are assumed; log-gates go through it, so the floor the
  code uses for non-positive gates is kept as a value. bf16 rounding, the E2M1 decode of
  the MoE weights and the fused kernel's activation are parameters applied exactly where
  the code applies them, so those results hold for any rounding and activation; the scale
  bytes are decoded as each side of the code decodes them (`Reader`), and the distributed
  forwards take the activation their name selects, with exp and tanh as parameters.
- A concurrent part is a state machine whose steps are the atomic actions; a run is
  any sequence of steps, chosen by an arbitrary scheduler, and results are about
  every run. The imperative versions (`Ring.Run`, `RunWorkers`,
  `KdaSpineMegakernel.Run`, `Executor.Run`) pick any thread that can step, and are
  proved to end.
- The ring's addition, the megakernel's task bodies and the executor's callbacks are
  arbitrary functions.
- A stream's wait set is explicit: a parked thread runs again only when a notify picks
  it, and a notify may pick any parked thread.
- The megakernel's workspace keeps the source's offsets; a task loads its inputs and
  then stores its results, one cell a step. Inside one KDA head task the source
  interleaves the loads and stores of its own conv cells, which nobody else touches and
  which it loads before overwriting; mHC pre-mix loads its stream row more than once.
- The MoE stages and the fused kernel are for hidden and intermediate sizes that are
  multiples of 64, as src/c/vkernels/kernels/moe_fused.hpp:78-80 and `tp_plan` demand.
- Packed MoE weights are flat byte sequences with the source's base offsets and
  strides. Activations, projections and outputs are two-dimensional.

## Where the code and its texts differ

- The binding's text (src/python/vkernels/_core.cpp:965) presents the per-token oracle
  as the reference of the scalar-gate pipeline. They are different rules;
  `KdaRulesCompared.OutputsAgreeIff` says for exactly which gates they agree.
- `ep_plan`'s docstring gives the extra experts to the last ranks; the code, and the
  model, give them to the first.
- `dist_moe_tp`'s docstring promises the fused kernel's result, and `dist_moe_ep`'s
  outputs are meant to add up to it. Two things stand between them. The fused kernel's
  tile dequant takes one scale per byte and counts groups from the start of the tile,
  which is right exactly when a tile is whole groups of more than one column or a group
  is whole tiles; the plan also accepts group size 1, or 48 with 192 columns, where it
  is not. And `dist.py` decodes scale byte 0xFF as 1.0, against its own docstring's 0.0
  and the fused kernel's 0.0. `MoeAgreement.AgreeIff` says the two computations agree on
  every layer and input exactly when the group size fits and no scale byte is 0xFF,
  which a caller can check before the call. The C++ header
  (src/c/vkernels/kernels/moe_fused.hpp:81) asks for group size 32, which fits.
- `dist_moe_tp` and `dist_moe_ep` take a block size, but their stages always walk 16
  rows at a time: they are right for all inputs exactly at 16 (`MoeBlocks.BlockSizeIff`).
- `mxfp4_moe_quant`'s public text says the scale byte is clamped to [0, 254]; the code
  clamps to [1, 254].
- `dsa_kpool_decode_update`'s docstring (src/python/vkernels/kernels.py:1757) takes the
  page and slot from pos // slots_per_page; the code takes them from pos // pool_size.
- `check_shape` reports uncovered outputs when k is 0, where "updated exactly k times"
  still holds.
- Running the megakernel again without a reload composes decode steps for even L only, in
  its state and in its output (`Megakernel.StepsComposeIff`, `OutputsComposeIff`).
- Nothing in `Stream` stops a submit after close; `StreamMonitor.LateSubmitStrands` says
  exactly when one is lost.

## Model

| member | source | states |
|---|---|---|
| KdaRecurrence.NaiveForward | src/python/vkernels/_fallback.py:1829-1855 | The token loop (gate the state, predict with the gated state, rank-one update, read out) leaves in every row the output of the recurrence S_t = G_t S_{t-1} + b_t k_t (v_t - (G_t S_{t-1})^T k_t)^T. |
| KdaRecurrence.TokenStep | src/python/vkernels/_fallback.py:1835-1854 | One token of that loop, in place, is one step of the recurrence. |
| KdaFormula.NaiveFormula | src/python/vkernels/_fallback.py:1829-1855 | In the arrays: out[t, d] is q_t times the state after token t, for any states that start at zero and step by S[e, d] = g[t, e] S[e, d] + k[t, e] beta[t] (v[t, d] - the sum over c of k[t, c] g[t, c] S[c, d]). |
| KdaChunk.ChunkForward | bench/vllm_kda_parity.py:30-81 | For every length, chunk size, dimension, gate, beta and initial state, the chunked form (padding, WY matrix, in-place triangular inverse, chunk loop) returns exactly the recurrence's rows and final state. |
| KdaChunk.OracleAgrees | bench/vllm_kda_parity.py:30-81 | From a zero state and square heads these are the rows of the per-token oracle on gates exp(g) and scaled queries. |
| KdaFormula.ChunkFormula | bench/vllm_kda_parity.py:30-81 | In the arrays, for every chunk size: out[t, d] is scale times q_t times the state after token t, the states starting at the one given and stepping with gates exp(g[t, e]). |
| KdaFormula.ChunkState | bench/vllm_kda_parity.py:30-81 | And the state returned is the one after the last token. |
| KdaChunk.GateCumsum | bench/vllm_kda_parity.py:53-53 | The per-key cumulative log gates restart at every chunk. |
| KdaChunk.InvertedAttn | bench/vllm_kda_parity.py:55-61 | The masked matrix plus the row updates plus the identity is the inverse of the unit lower-triangular system of the chunk. |
| KdaChunk.VNew | bench/vllm_kda_parity.py:73-74 | v_new is the chunk's residuals of the recurrence: value rows minus k_cumdecay times the carried state. |
| KdaChunk.AdvanceState | bench/vllm_kda_parity.py:76-77 | The state update at the end of a chunk is the recurrence's state after its last token. |
| KdaChunkAlgebra.ClosedForm | bench/vllm_kda_parity.py:71-77 | Within a chunk the recurrence's state is the decayed carried state plus the decayed rank-one terms of the residuals. |
| KdaChunkAlgebra.ResidualsSolve | bench/vllm_kda_parity.py:55-61 | The residuals solve the chunk's unit lower-triangular system. |
| KdaChunkAlgebra.VNewIsResidual | bench/vllm_kda_parity.py:62-74 | Inverse times scaled values minus inverse times decayed keys times state is the vector of residuals. |
| KdaChunkAlgebra.ChunkOutput | bench/vllm_kda_parity.py:71-75 | Inter-chunk read plus masked intra-chunk read is the recurrence's output row. |
| KdaChunkAlgebra.PaddingKeepsState | bench/vllm_kda_parity.py:36-43 | Zero keys, values, betas and log gates at the end leave the state as it was. |
| UnitLower.InvLeft | bench/kda_state_bisect.py:94-99 | The matrix the row recurrence defines is a left inverse of I - M for strictly lower M. |
| UnitLower.InvRight | bench/kda_state_bisect.py:94-99 | And a right inverse. |
| UnitLower.Solve | bench/vllm_kda_parity.py:57-62 | Multiplying by it solves any system x = r + M x, row by row. |
| LowerInverse.RowRecurrence | bench/kda_state_bisect.py:94-97 | The in-place row updates leave (I - M)^-1 - I, whatever the size. |
| LowerInverse.AddEye | bench/kda_state_bisect.py:98-98 | Adding the identity leaves the inverse itself. |
| LowerInverse.MergeIdentity | bench/kda_state_bisect.py:361-368 | The block below the diagonal of the inverse is A22 M21 A11. |
| LowerInverse.BaseBlocks | bench/kda_state_bisect.py:351-360 | Substitution on the base blocks gives the inverse's diagonal blocks. |
| LowerInverse.MergePass | bench/kda_state_bisect.py:361-368 | One doubling pass takes exact blocks of size h to exact blocks of size 2h. |
| LowerInverse.BlockwiseInverse | bench/kda_state_bisect.py:345-369 | Base blocks and any number of doublings give the identical matrix, for any base size. |
| KdaScalar.GateChunkCumsum | src/python/vkernels/_fallback.py:1775-1801 | Inclusive in-chunk and exclusive cross-chunk log-gate sums. |
| KdaScalar.GateProdIntra | src/python/vkernels/_fallback.py:1736-1740 | exp(L_b - L_{a-1}) is the product of the gates in between; 1 for an empty range. |
| KdaScalar.DeltaRuleIntra | src/python/vkernels/_fallback.py:1858-1906 | The in-chunk triangular solve stores the recurrence's residuals v_t - S_{t-1} k_t. |
| KdaScalar.DeltaRuleInter | src/python/vkernels/_fallback.py:1909-1949 | The next chunk's entry state is the recurrence's state after this chunk; other blocks are kept. |
| KdaScalar.OutChunk | src/python/vkernels/_fallback.py:1952-2000 | The combine stores the recurrence's output rows of the chunk. |
| KdaScalar.DeltaRuleFwd | src/python/vkernels/_fallback.py:2003-2032 | Ok exactly when D is positive and the chunk size is positive and divides the length, and then the rows are the recurrence's; otherwise the error and untouched output. |
| KdaScalar.CheckChunk | src/python/vkernels/_fallback.py:2047-2051 | Accepts exactly the positive chunk sizes that cut the length into whole chunks, for a positive D; reports D first. |
| KdaScalar.GivenGates | src/python/vkernels/_fallback.py:1725-1740 | For all gates the rows are S_t = g_t S_{t-1} + b_t (v_t - S_{t-1} k_t) k_t^T, o_t = S_t q_t in the given gates, exp(-1e9) standing for those not positive: no chunk size and no logarithm left. |
| KdaFormula.PipelineFormula | src/python/vkernels/_fallback.py:2003-2032 | In the arrays, for every accepted chunk size: out[t, d] is the state after token t times q_t, the states starting at zero and stepping by S[d, e] = g[t] S[d, e] + beta[t] (v[t, d] - the sum over c of S[d, c] k[t, c]) k[t, e]. |
| KdaFormula.StatesOf | src/python/vkernels/_fallback.py:1829-1855 | Such states exist for any tokens. |
| KdaScalarAlgebra.ClosedForm | src/python/vkernels/_fallback.py:1925-1948 | Closed form of the scalar-gate state across any span of tokens. |
| KdaScalarAlgebra.ResidualClosed | src/python/vkernels/_fallback.py:1881-1905 | The solve's right-hand side and coefficients are the residual's closed form. |
| KdaScalarAlgebra.OutClosed | src/python/vkernels/_fallback.py:1977-1999 | The combine's inter and intra terms are the output's closed form. |
| KdaRulesCompared.OutputsAgreeIff | src/python/vkernels/_core.cpp:965-967 | The binding's text gives the per-token oracle as the pipeline's reference. For a given sequence of gates the two give the same output rows, for all queries, keys, values, strengths and dimensions, if and only if every gate after the first is 1. |
| KdaRulesCompared.RulesAgreeIff | src/python/vkernels/_fallback.py:2003-2032 | In a given run the two rules keep equal states throughout if and only if every token has zero strength, unit gate, zero key or zero prediction. |
| KdaRulesCompared.UnitGates | src/python/vkernels/_fallback.py:2003-2032 | With every gate after the first 1, the two states agree after every token of every run. |
| KdaRulesCompared.PulseTells | src/python/vkernels/_fallback.py:1804-1855 | For any gate, a run whose row t is that gate under the scalar rule and 1 under the oracle. |
| MoeAlign.Align | src/python/vkernels/_fallback.py:407-448 | The loops produce the expert-grouped padded layout, with the two error conditions exactly. |
| MoeAlign.ValidAppears | src/python/vkernels/_fallback.py:416-438 | Every flat index with an in-range expert appears in the layout. |
| MoeAlign.RowsOk | src/python/vkernels/_fallback.py:427-447 | Every row is the sentinel or an index routed to its own block's expert. |
| MoeAlign.RowsInOrder | src/python/vkernels/_fallback.py:416-438 | Real rows are ordered by expert and, within one expert, by index: no index twice, and the grouping is stable. |
| MoeAlign.OwnerIsExpertId | src/python/vkernels/_fallback.py:440-447 | expert_ids names the expert whose chunk the block is in. |
| MoeAlign.BlockHasRow | src/python/vkernels/_fallback.py:440-447 | Every block starts with a real row, so no block is ever -1. |
| MoeAlign.LayoutIs | src/python/vkernels/_fallback.py:407-448 | The layout by its two arrays: blocks in order of expert, each row the sentinel or an index routed to its block's expert, and within one expert the indices first, increasing, then the sentinels. |
| MoeAlign.EmBounded | src/python/vkernels/_core.cpp:291-299 | EM never exceeds the binding's allocation (ceil(N/bs) + E) * bs. |
| MoeAlign.SumOverSorted | src/python/vkernels/_fallback.py:407-448 | Summing any quantity over the padded layout is summing it over the valid indices. |
| MoeWeights.ShardIsColumns | src/python/vkernels/dist.py:75-87 | Dequantising a rank's packed shard gives exactly its columns of the dequantised matrix. |
| MoeWeights.ShardGood | src/python/vkernels/dist.py:299-333 | A shard has the full layout with the last axis narrowed. |
| MoeWeights.PlanSplits | src/python/vkernels/dist.py:258-296 | An accepted plan splits both matrices into whole bytes, groups and tiles, and its byte counts are the shards' sizes. |
| MoeWeights.PlanIff | src/python/vkernels/dist.py:275-285 | A plan is accepted exactly when tp is positive and both sizes are tp equal parts of whole 64-column tiles and whole groups; each error is the first of these to fail. |
| MoeWeights.TileIsMatrix | src/python/vkernels/_fallback.py:385-404 | The fused kernel's tile dequant, tile by tile, is the matrix itself when a tile is whole groups of more than one column or a group is whole tiles. |
| MoeWeights.TileGroupsRightIff | src/python/vkernels/_fallback.py:395-403 | Over any row of whole tiles and whole groups, every tile's scale index is each column's own if and only if the group size is not 1 and divides 64 or is a multiple of it. |
| MoeWeights.UnfitGroup | src/python/vkernels/_fallback.py:395-403 | For every other group size, a tile and a column that take a wrong group. |
| Formats.DecodersAgreeIff | src/python/vkernels/dist.py:69-72 | The distributed stages' scale decoder gives what the fused kernel's gives for every byte but 0xFF, which is 1 in one and 0 in the other. |
| MoeTiles.FittingRouted | src/python/vkernels/_fallback.py:385-404 | For a fitting group size the layer the tiles show gives the routed sum of the layer itself, under the kernel's own decoder always, under the stages' when no scale byte is 0xFF. |
| MoeAgreement.AgreeIff | src/python/vkernels/dist.py:347-352 | For given number formats, shape, group size and set of allowed scale bytes, the fused kernel and the distributed forward compute the same for every layer, routing and input if and only if the group size fits the tiles and 0xFF is not allowed. The formats need only tell the two readings of 0xFF apart, and two allowed scales. |
| MoeAgreement.MarkDiffers | src/python/vkernels/dist.py:69-72 | For every shape and group size, a layer with scale bytes 0xFF and an input whose outputs differ. |
| MoeAgreement.UnfitDiffers | src/python/vkernels/_fallback.py:395-403 | For every group size that does not fit, a layer with scale bytes from the allowed set, 0xFF not among them, and an input whose outputs differ. |
| MoeAgreement.RealAgreeIff | src/python/vkernels/dist.py:46-72 | So for the repository's E2M1 values, its scale decoders, any monotone rounding that keeps 0, 1/2, 1 and 2, and unclamped SwiGLU, once bytes 127 and 128 are allowed. |
| MoeFused.DequantTile | src/python/vkernels/_fallback.py:385-404 | The loop over rows and bytes fills the transposed tile, from flat base offsets, for any group size that divides the row. |
| MoeFused.AccumulateTile | src/python/vkernels/_fallback.py:562-577 | One k tile extends every accumulated dot product by 64 columns. |
| MoeFused.GateUpBlock | src/python/vkernels/_fallback.py:514-577 | The gate and up accumulators of a block are its rows' projections onto the weights the tiles show; zero for padding rows. Sizes as moe_fused.hpp:78-81 demands them, any group size. |
| MoeFused.Stage0 | src/python/vkernels/_fallback.py:508-606 | Every real row of the activation buffer is bf16(act(gate + bias, up + bias)) of its expert, on the weights the tiles show, and token; all else untouched. |
| MoeFused.Stage1 | src/python/vkernels/_fallback.py:614-670 | Every output gains exactly the weighted, biased down projections, on the weights the tiles show, of its token's real rows. |
| MoeFused.FusedMoe | src/python/vkernels/_fallback.py:451-670 | The whole kernel, on any well-formed layout, any prior output and any group size: out gains the combine of the layer its tiles show, and that is the layer itself, scales read as the kernel reads them, for a fitting group size. |
| MoeFused.AlignAndFuse | src/python/vkernels/_fallback.py:407-670 | Aligning and then fusing on zeroed output gives, per token, the sum over its selections of weight times expert output: of the layer as tiled; of the layer itself for a fitting group size; and as the distributed stages read it, if also no scale byte is 0xFF. |
| MoeSpec.AlignedMeansRouted | src/python/vkernels/_fallback.py:407-448 | Over the padded layout each valid (token, selection) is counted once, with its own expert, and nothing else is. |
| MoeFormula.ExpertFormula | src/python/vkernels/_fallback.py:514-660 | From the packed bytes: an expert's output for a token is the sum over n of h_n times down row col, plus its down bias, where h_n is bf16 of act of (gate row n dot the token plus bias n, up row ispp + n dot the token plus bias ispp + n) and each weight is its half of byte c / 2 times scale c / group, rounded once. |
| MoeFormula.TileEntry | src/python/vkernels/_fallback.py:385-404 | For any group size a fused tile shows the same byte and half, with the scale at the tile's first group plus the byte's even column in the tile over the group size. |
| MoeFormula.ActivationFormula | src/python/vkernels/_fallback.py:580-606 | A real row of the activation buffer is that h, for its block's expert and the token its flat index belongs to. |
| MoeFormula.RoutedFormula | src/python/vkernels/_fallback.py:407-670 | The routed sum is, over a token's selections with an expert in range, the routing weight times that output. |
| MoeFormula.OutputFormula | src/python/vkernels/dist.py:347-352 | So for the arrays AlignAndFuse and DistMoeTp leave, each under its own reading of the scale bytes. |
| MoeFormula.MatricesOf | src/python/vkernels/dist.py:75-87 | Every expert's packed rows decode to such matrices. |
| MoeGates.ActsAgree | src/python/vkernels/_fallback.py:589-605 | The fused kernel's activation and the stages', which clamp in different orders, are the same function for both activations and all settings. |
| MoeGates.SituIs | src/python/vkernels/dist.py:171-176 | SiTU: beta tanh(gate / beta) sigmoid(gate) times the up projection, softly capped when linear_beta is positive. |
| MoeGates.SwiGluIs | src/python/vkernels/dist.py:177-183 | SwiGLU: silu of the gate capped at a positive limit, times the up projection kept within it on both sides. |
| MoeGates.NamedIs | src/python/vkernels/dist.py:385-387 | SiTU is selected by that name in any mixture of cases, SwiGLU otherwise. |
| MoeGates.KnownIff | src/python/vkernels/dist.py:385-387 | The names dist_moe_tp accepts are swiglu and situ in any mixture of cases. |
| MoeStages.GateUp | src/python/vkernels/dist.py:108-145 | A rank's gate/up partial is its columns' part of the projection, for every row of every owned block. |
| MoeStages.ActEpilogue | src/python/vkernels/dist.py:148-186 | On the summed projections, every real activation is the expert's. |
| MoeStages.Down | src/python/vkernels/dist.py:189-218 | A rank's down partial is its columns' part of the projection. |
| MoeStages.Combine | src/python/vkernels/dist.py:221-245 | Every output gains exactly its token's real rows' contributions. |
| MoeTp.ReduceGateUp | src/python/vkernels/dist.py:391-402 | The ranks' gate/up partials add up to the whole projection before the nonlinearity. |
| MoeTp.ReduceDown | src/python/vkernels/dist.py:410-419 | And so do the down partials. |
| MoeBlocks.StageLayout | src/python/vkernels/dist.py:108-121 | For any block size, the rows the stages visit and the expert they give each 16-row block; errors exactly for a non-positive block size and when the 16-row blocks outnumber expert_ids. |
| MoeBlocks.VisitedRow | src/python/vkernels/dist.py:108-145 | Row p of the walk is row p of the layout with its weight, given to the expert of entry p / 16 of expert_ids, for as many whole 16-row blocks as both have. |
| MoeBlocks.SixteenRows | src/python/vkernels/dist.py:248-250 | At block size 16 these are the aligned layout. |
| MoeBlocks.SmallBlocks | src/python/vkernels/dist.py:117-121 | At smaller ones a single routed token is never visited. |
| MoeBlocks.LargeBlocks | src/python/vkernels/dist.py:117-121 | At larger ones 16 blocks' worth of one expert's rows run past expert_ids. |
| MoeBlocks.BlockSizeIff | src/python/vkernels/dist.py:336-340 | Whatever the weights, the stages finish and combine to the routed sum for all biases, routings and inputs if and only if the block size is 16. |
| MoeTp.DistMoeTp | src/python/vkernels/dist.py:336-425 | For every tp the plan accepts and every block size, each rank's output is the combine of the rows the stages visit, which at the default block size is the routed sum of the layer as dist.py reads it; errors exactly on a wrong column count, else a rejected plan, else a non-positive block size, else an unknown activation name, else a walk past expert_ids. |
| MoeEp.PlanRanges | src/python/vkernels/dist.py:433-446 | The expert ranges are consecutive, cover [0, E), and differ in size by at most one, the larger ones first. |
| MoeEp.PlanErrors | src/python/vkernels/dist.py:436-441 | The three errors, in the order they are raised. |
| MoeEp.OwnedByOne | src/python/vkernels/dist.py:433-446 | Every expert belongs to exactly one rank. |
| MoeEp.BlocksOwned | src/python/vkernels/dist.py:449-471 | Every block of a rank's masked layout has one of its own experts, so the local ids are in range. |
| MoeEp.LocalLayoutGood | src/python/vkernels/dist.py:449-471 | The local layout is well formed for the rank's own experts. |
| MoeEp.LocalOutput | src/python/vkernels/dist.py:512-519 | A rank's compact weights compute what the same experts compute in the whole layer. |
| MoeEp.LocalForward | src/python/vkernels/dist.py:532-551 | The four stages on one rank's experts give its layout's combine. |
| MoeEp.DistMoeEp | src/python/vkernels/dist.py:474-529 | For every block size each rank returns the combine of the rows its stages visit; at the default one that is the routed sum over its own experts of the layer as dist.py reads it, and the returned arrays add up to the whole routed sum. Errors exactly for non-positive ep, else fewer experts than ranks, else a non-positive block size, else a rank whose walk runs past expert_ids. |
| MoeEp.PartialsSum | src/python/vkernels/dist.py:474-529 | The routed sums over the ranks' own experts add up to the whole one (DistMoeEp states it of the arrays it returns). |
| RingProtocol.Deterministic | src/python/vkernels/_fallback.py:2125-2161 | In every interleaving every rank ends with the one nested sum of each chunk, for an addition that need not be associative or commutative, and all edges are empty. |
| RingProtocol.ActInv | src/python/vkernels/_fallback.py:2148-2161 | Every send and every receive of every rank keeps the invariant that names the value of every chunk and message. |
| RingProtocol.NeverStuck | src/python/vkernels/_fallback.py:2073-2122 | No reachable unfinished state is stuck. |
| RingProtocol.ExactCost | src/python/vkernels/_fallback.py:2147-2161 | A finished run makes exactly 2 w (w - 1) sends and as many receives. |
| RingProtocol.RunBounded | src/python/vkernels/_fallback.py:2147-2161 | No run is longer than that. |
| RingProtocol.InFlightBound | src/python/vkernels/_fallback.py:2118-2122 | At most w messages are in flight at any time. |
| RingProtocol.ChunkArithmetic | src/python/vkernels/_fallback.py:2149-2160 | The chunk a rank receives is the chunk its predecessor sends at that step. |
| RingAllReduce.Ring.Send | src/python/vkernels/_fallback.py:2151-2151 | Copies the chunk onto the outgoing edge. |
| RingAllReduce.Ring.Recv | src/python/vkernels/_fallback.py:2152-2161 | Takes the oldest message and adds it in (phase 1) or stores it (phase 2), in place. |
| RingAllReduce.Ring.Run | src/python/vkernels/_fallback.py:2178-2187 | The threads run to completion in any order; every buffer holds the nested sums. |
| RingAllReduce.AllReduce | src/python/vkernels/_fallback.py:2164-2188 | The errors of empty, unequal and indivisible inputs, else the element-wise nested sum from rank i / chunk around the ring, the same on every rank. |
| RingAllReduce.AroundIsSum | src/python/vkernels/_fallback.py:2164-2188 | For exact addition that nested sum is the sum over all ranks. |
| CounterBarrier.ReleasedIff | src/python/vkernels/compiler/device_triton.py:79-95 | A spinning worker is let through exactly when every worker has arrived at that barrier. |
| CounterBarrier.LeaveInv | src/python/vkernels/compiler/device_triton.py:79-95 | Nobody leaves round r before all P have arrived at it. |
| CounterBarrier.ArrivalsClose | meta/scripts/probe_bar4.py:61-86 | Arrivals of two workers never differ by more than one. |
| CounterBarrier.CounterAfter | meta/scripts/probe_bar4.py:61-86 | After n rounds the counter is base + P n. |
| Tasks.PhaseCells | bench/glm53_e1_spine_bench.py:344-395 | A race-free phase leaves every task's results computed from the memory the phase started with, and nothing else changed. |
| GridStride.Stride | src/python/vkernels/compiler/triton_dense.py:151-162 | The loop `task = worker; task += P` visits exactly the worker's own indices, in order. |
| GridCalls.Visit | bench/glm53_e1_spine_bench.py:353-362 | Several calls in a row, each dealt from worker 0, visit the worker's share of the phase. |
| GridMachine.StepInv | bench/glm53_e1_spine_bench.py:344-395 | Every load, store, arrival and departure of every worker keeps the invariant. |
| GridMachine.RunsAgree | bench/glm53_e1_spine_bench.py:344-395 | Every complete interleaving ends with the sequential run's memory and the counter at base + P per barrier. |
| GridMachine.LoadsAreSettled | bench/glm53_e1_spine_bench.py:344-395 | Whatever a worker has loaded, in any state of any run, is what the sequential run has there when that phase begins. |
| GridMachine.NeverStuck | src/python/vkernels/compiler/device_triton.py:79-95 | No reachable unfinished state is stuck on a barrier. |
| GridMachine.ExactCost | bench/glm53_e1_spine_bench.py:344-395 | Work done plus work left is the same number in every state of every run. |
| GridMachine.RunWorkers | bench/glm53_e1_spine_bench.py:344-395 | Stepping any able worker until none is able finishes with the sequential run's memory. |
| SpineTasks.PhaseRaceFree | bench/glm53_e1_spine_bench.py:347-387 | In no phase of any layer do two tasks, of one call or of different calls, touch a cell one of them writes. |
| SpineTasks.PingPong | bench/glm53_e1_spine_bench.py:345-346 | The two stream buffers alternate and do not overlap. |
| SpineLayer.LayerComputed | bench/glm53_e1_spine_bench.py:344-387 | The seven workspace phases compute the plain chain of maps of one layer: new streams in the other buffer, old ones kept, pools moved one step. |
| SpineFormula.StreamFormula | src/python/vkernels/compiler/triton_recurrent.py:273-311 | Entry c of new stream j is the post-compose of post gate j, the body row, the old streams and entries k * HC + j of the mixing matrix, k = 0..3, all rows of the layer being written out by index from the weights' maps. |
| SpineFormula.PoolFormula | src/python/vkernels/compiler/triton_recurrent.py:460-591 | Head h reads its stripes of q, k, v, decay and gate rows, its beta, its columns of every tap row and its state, and its results go back to the cells they came from. |
| SpineFormula.PoolsOfOthers | src/python/vkernels/compiler/triton_recurrent.py:460-591 | Every pool cell outside the layer is kept. |
| SpineFormula.PartsOf | bench/glm53_e1_spine_bench.py:344-387 | Such rows exist for every layer. |
| SpineFormula.Mixes | bench/glm53_e1_spine_bench.py:154-155 | For the real arithmetic: new[j, c] = post[j] body[c] + the sum over k of comb[k, j] old[k, c]. |
| SpineFormula.LaunchMixes | bench/glm53_e1_spine_bench.py:306-395 | So for what any finished launch shows, of the streams the layers before the last left. |
| SpineLayer.MapResult | src/python/vkernels/compiler/triton_dense.py:132-163 | A tiled row map stores every output once, whatever the tiling. |
| SpineLayer.KdaResult | src/python/vkernels/compiler/triton_recurrent.py:460-591 | The per-head tasks leave the head outputs and the in-place pool updates of every head, and touch nothing else. |
| SpineLayer.PostResult | src/python/vkernels/compiler/triton_recurrent.py:273-311 | The post-compose tasks write every row of the other stream buffer. |
| SpineLayer.PhaseFrame | bench/glm53_e1_spine_bench.py:279-302 | A phase writes only its own workspace regions. |
| Megakernel.BarrierTarget | bench/glm53_e1_spine_bench.py:347-387 | The spin target at phase p of layer l is base + (7 l + p + 1) P: the count at which all have arrived. |
| Megakernel.WorkerTasks | bench/glm53_e1_spine_bench.py:350-390 | A worker's loops visit exactly the tasks the machine gives it. |
| Megakernel.LaunchRefinesLayers | bench/glm53_e1_spine_bench.py:306-395 | For any P >= 1 and any interleaving, a finished launch has the streams (in buffer L mod 2), pools and output of the plain layer-by-layer run, and the counter at base + 7 L P. |
| Megakernel.WholeLaunch | bench/glm53_e1_spine_bench.py:388-395 | The last block copies the live buffer out; the buffer layer 0 reads next is the live one only for even L. |
| Megakernel.ComposesIff | bench/glm53_e1_spine_bench.py:464-473 | Launching again without a reload continues from the live streams, for all bodies and starts, if and only if the number of layers is even. |
| Megakernel.StepsComposeIff | bench/glm53_e1_spine_bench.py:579-591 | Any number of launches without a reload is as many decode steps if and only if the number of layers is even. |
| Megakernel.OutputsComposeIff | bench/glm53_e1_spine_bench.py:579-591 | The same of what a caller sees: the n-th launch's output is the n-th decode step's, for all bodies, starts and n, if and only if the number of layers is even. |
| Megakernel.SecondOutput | bench/glm53_e1_spine_bench.py:579-591 | For any odd L, bodies whose second output is 2 L - 1 where two decode steps give 2 L. |
| Megakernel.KdaSpineMegakernel.LoadStreams | bench/glm53_e1_spine_bench.py:427-428 | Writes the buffer layer 0 reads and nothing else. |
| Megakernel.KdaSpineMegakernel.Launch | bench/glm53_e1_spine_bench.py:306-395 | The launch, workers stepping in any order. |
| Megakernel.KdaSpineMegakernel.Run | bench/glm53_e1_spine_bench.py:464-473 | The host's base matches the counter after every run, the output is the live streams, and the next run's start is NextStart. |
| Megakernel.KdaSpineMegakernel.RunMany | bench/glm53_e1_spine_bench.py:579-591 | n runs without a reload: for even L the streams and the last output are those of n decode steps, in general each run starts where NextStart says; no counter drift. |
| BarrierProbes.JudgeExact | meta/scripts/probe_bar4.py:61-86 | In every interleaving worker w's final sum is that of nb * 1000 + r over the rounds, in closed form, nb being w + 1 or 0 after the last worker, and the counter ends at base + P ROUNDS. |
| BarrierProbes.VisReadsExact | meta/scripts/probe_vis2.py:25-38 | A round-r read of the reused slot is r or r + 1; worker 0 and the last round read r. |
| BarrierProbes.LateRead | meta/scripts/probe_vis2.py:25-38 | For every number of workers above 1, every worker but 0 and every round but the last, a run whose round-r read is r + 1. |
| BarrierProbes.ReadsIff | meta/scripts/probe_vis2.py:25-38 | So a value is read by worker w in round r in some run if and only if it is r, or r + 1 with w not 0 and r not the last round. |
| StreamMonitor.StepInv | src/python/vkernels/_fallback.py:109-153 | Every critical section of every thread, whichever thread notify() wakes, keeps the monitor invariant. |
| StreamMonitor.NoLostWakeup | src/python/vkernels/_fallback.py:109-141 | A worker parked un-notified has an empty queue, nothing outstanding, no stop and no blocked waiter beside it; a blocked waiter is owed a completion. |
| StreamMonitor.OneNotifyIsEnough | src/python/vkernels/_fallback.py:129-134 | When the worker is parked it is the only thread a single notify() can wake. |
| StreamMonitor.InOrder | src/python/vkernels/_fallback.py:109-134 | Completed, held and queued tasks stay in submission order through every step. |
| StreamMonitor.RunOrder | src/python/vkernels/_fallback.py:109-148 | Over any run the tasks submitted are, in order and each once, those completed, the one held and those queued; submitted() counts them and outstanding is those not completed. |
| StreamMonitor.WaitReturns | src/python/vkernels/_fallback.py:136-141 | wait() returns exactly when every submitted task has completed, raises the first failure since the last return, and clears it. |
| StreamMonitor.FirstErrorIs | src/python/vkernels/_fallback.py:119-122 | The kept failure is the first in submission order, and there is none exactly when all succeeded. |
| StreamMonitor.WorkerMoves | src/python/vkernels/_fallback.py:109-127 | While anything is outstanding the worker can move, unless it has left work behind. |
| StreamMonitor.LastCompletionWakes | src/python/vkernels/_fallback.py:124-127 | With nothing outstanding no wait() stays parked. |
| StreamMonitor.EffortDrops | src/python/vkernels/_fallback.py:109-127 | Each such step brings the last completion nearer and no other thread's step puts it off. |
| StreamMonitor.RunInv | src/python/vkernels/_fallback.py:99-153 | Over every run from a fresh stream the invariant holds, and with no submit after close nothing is left behind. |
| StreamMonitor.LateSubmitStrands | src/python/vkernels/_fallback.py:147-153 | In every run, work is left that will never be run if and only if some submit came after the worker had left. |
| StreamMonitor.LateSubmitHappens | src/python/vkernels/_fallback.py:147-153 | Close, the worker leaves, submit: such a run. |
| StreamMonitor.StrandedForever | src/python/vkernels/_fallback.py:136-141 | And then no wait() returns again. |
| StreamMonitor.Stream.constructor | src/python/vkernels/_fallback.py:99-107 | The fresh stream. |
| StreamMonitor.Stream.Submit | src/python/vkernels/_fallback.py:129-134 | One critical section of the machine; afterwards the worker is not asleep. |
| StreamMonitor.Stream.Close | src/python/vkernels/_fallback.py:147-152 | The same for close, and no effect when already closed. |
| StreamMonitor.Stream.WaitCheck | src/python/vkernels/_fallback.py:136-141 | Returns with the first failure, or parks. |
| StreamMonitor.Stream.LoopTake | src/python/vkernels/_fallback.py:110-115 | Parks, leaves, or takes the oldest task. |
| StreamMonitor.Stream.LoopRecord | src/python/vkernels/_fallback.py:118-121 | Keeps the first failure only. |
| StreamMonitor.Stream.LoopComplete | src/python/vkernels/_fallback.py:124-127 | Publishes the completion; the last one wakes everybody. |
| OverlapExecutor.OverlapStepInv | src/python/vkernels/_fallback.py:2201-2231 | Every step of the caller and of both workers keeps the invariant. |
| OverlapExecutor.RunOutcome | src/python/vkernels/_fallback.py:2201-2231 | In every interleaving comm has been called exactly for the successful computes of a prefix, in order, with their values, after those computes ended; when run is done it has raised the verdict and left both streams quiet. |
| OverlapExecutor.CallsAre | src/python/vkernels/_fallback.py:2201-2231 | Those calls are (i, v) exactly where compute(i) succeeds with v, in order of i. |
| OverlapExecutor.NormalIff | src/python/vkernels/_fallback.py:2220-2231 | run returns normally if and only if no callback raised. |
| OverlapExecutor.WhichFailure | src/python/vkernels/_fallback.py:2220-2231 | It raises the first compute failure if there is one, else the first comm failure. |
| OverlapExecutor.NeverStuck | src/python/vkernels/_fallback.py:2201-2231 | Until run is done some thread can step. |
| OverlapExecutor.StepWorks | src/python/vkernels/_fallback.py:2201-2231 | Every step leaves less to do, so every run ends. |
| OverlapExecutor.Executor.Run | src/python/vkernels/_fallback.py:2201-2231 | The threads in any order: the verdict, the comm calls, and quiet streams for the next run. |
| KpoolMean.AddFollows | src/python/vkernels/_fallback.py:1344-1357 | After n slots the running-maximum loop holds the two-pass sums at the maximum so far. |
| KpoolMean.AnyShift | src/python/vkernels/_fallback.py:1341-1358 | The weighted mean does not depend on the shift. |
| KpoolMean.Finish | src/python/vkernels/_fallback.py:1358-1359 | acc / denom, rotated, is the rotated two-pass softmax mean, for every pool size. |
| KpoolMean.SoftmaxMean | src/python/vkernels/_fallback.py:1341-1359 | Component d of a pool's vector is, before the rotation, the mean of its keys weighted by exp(score + ape). |
| KpoolCache.AssembleOne | src/python/vkernels/_fallback.py:1340-1359 | The loop over tail and chunk gives the vector of the logical token sequence. |
| KpoolCache.SplitIrrelevant | src/python/vkernels/_fallback.py:1345-1350 | That sequence does not depend on where the pool is cut between tail and chunk. |
| KpoolCache.Assemble | src/python/vkernels/_fallback.py:1300-1365 | After a call every slot holds the last vector written to it, or zero. |
| KpoolCache.WrittenAtLoc | src/python/vkernels/_fallback.py:1300-1365 | An unmasked pool is written at flat slot loc: page * slots_per_page + slot. |
| KpoolCache.TailLongEnoughIff | src/python/vkernels/_fallback.py:1420-1425 | The tail still has every earlier token of a completing pool if and only if it is long enough. |
| KpoolCache.HeldIs | src/python/vkernels/_fallback.py:1420-1425 | A tail slot holds the last position before n that falls on it. |
| KpoolCache.NothingHeld | src/python/vkernels/_fallback.py:1441-1446 | Whatever the tail starts with, it holds the empty histories: the start of every run. |
| KpoolCache.BatchHolds | src/python/vkernels/_fallback.py:1401-1446 | A batch whose rows continue their requests' histories, one or more rows a request, leaves every tail slot holding the latest token whose position falls on it. |
| KpoolCache.LastTokens | src/python/vkernels/_fallback.py:1441-1446 | Such a tail holds its request's last tail_size tokens at pos mod tail_size. |
| KpoolCache.TruePool | src/python/vkernels/_fallback.py:1414-1433 | A completing row with a tail of at least pool_size - 1 slots reads exactly its pool's true tokens. |
| KpoolCache.TrueWrites | src/python/vkernels/_fallback.py:1401-1446 | Over a batch that continues the histories, every row's write is the vector of its pool's true tokens. |
| KpoolCache.WhereWritten | src/python/vkernels/_fallback.py:1401-1440 | Only a valid row at the last place of its pool writes: pool p = pos // pool_size, to slot p % slots_per_page of the page at table entry p // slots_per_page * pool_size, the last entry standing for those past it; it fails exactly when that page does not exist. |
| KpoolCache.OverwritesIff | src/python/vkernels/_fallback.py:1434-1440 | Two pools of one request, its table naming no page twice, overwrite each other if and only if they have the same slot and both take the table's last entry. |
| KpoolCache.OthersLeave | src/python/vkernels/_fallback.py:1441-1446 | Rows of other requests leave a request's tail alone, for any positions. |
| KpoolCache.Cache.PoolFromTail | src/python/vkernels/_fallback.py:1407-1433 | A completing row's vector is that of the tokens at its pool's positions in the tail, its own token standing in the last slot. |
| KpoolCache.Cache.Remember | src/python/vkernels/_fallback.py:1441-1446 | The live-tail write changes one slot of one request. |
| KpoolCache.Cache.DecodeUpdate | src/python/vkernels/_fallback.py:1396-1446 | For any positions and pages: the tail after the rows done, and every output slot holding the last vector written to it or zero, each read from the tail as the rows before it left it; all rows are done, or those before the first completing row whose page does not exist. |
| KpoolCache.DecodeAgreesWithAssemble | src/python/vkernels/_fallback.py:1406-1440 | On a tail that holds the histories the decode write is the vector assemble gives for that pool, however the pool is cut. |
| MxfpQuant.NibbleError | src/python/vkernels/_fallback.py:688-702 | Within range the code is a nearest one of the twelve, of two the one of larger magnitude, with the sign of x; at most half the widest gap away. |
| MxfpQuant.CeilOf | src/python/vkernels/_fallback.py:737-740 | The exponent the code takes, ceil(log2), exists for every positive number. |
| MxfpQuant.ScaleCovers | src/python/vkernels/_fallback.py:737-746 | For finite bf16 data the clamp at 254 never binds and the scaled group is in range. |
| MxfpQuant.ScaleLeast | src/python/vkernels/_fallback.py:737-746 | And the scale is the least that covers: 255 exactly for a group of zeros, 1 exactly up to 3 * 2^-126, and any other byte s exactly with 3 * 2^(s-128) < amax <= 3 * 2^(s-127). |
| MxfpQuant.ElementError | src/python/vkernels/_fallback.py:748-754 | An element errs by at most half its group's scale. |
| MxfpQuant.ReadBack | src/python/vkernels/_fallback.py:754-759 | The packed layout gives each column its own nibble and its own group's scale. |
| MxfpQuant.RowError | src/python/vkernels/_fallback.py:705-759 | Both together, for every element of a finite row. |
| MxfpQuant.ErrorByData | src/python/vkernels/_fallback.py:705-759 | In the data only: every element errs by less than a third of the largest magnitude of its group, or by at most 2^-127. |
| MxfpQuant.Layout | src/python/vkernels/_fallback.py:748-759 | The even column of a byte is its low half; each half is a nearest code to its element over two to its group's scale byte minus 127. |
| MxfpCombine.ScatterReduce | src/python/vkernels/_fallback.py:816-832 | Each output is the weighted sum over its token's rows; padding rows are skipped. |
| MxfpCombine.ScatterReduceQ | src/python/vkernels/_fallback.py:835-876 | The same of the values read back from nibbles and scales. |
| MxfpCombine.CombineError | src/python/vkernels/_fallback.py:816-876 | The two differ by at most the sum over the token's rows of the weight size times half the row's group scale. |
| MxfpCombine.CombineErrorByData | src/python/vkernels/_fallback.py:816-876 | The same bound in the data only: any e(r) of at least 2^-127 and a third of every element of the group serves for the half scale. |
| TiledGemm.TiledTriples | verifier/smt/gemm_index_equivalence.py:40-51 | For all shapes and all tile sizes the tiled nest is a permutation of the naive one, and visits each (i, j, k) in range once and nothing else. |
| TiledGemm.EveryOutputKTimes | verifier/smt/gemm_index_equivalence.py:66-75 | Every output is updated exactly k times. |
| TiledGemm.CountWrites | verifier/smt/gemm_index_equivalence.py:69-71 | The dictionary holds each output's update count. |
| TiledGemm.CheckShape | verifier/smt/gemm_index_equivalence.py:54-80 | The check reports nothing, except uncovered outputs when k is 0 and there are outputs. |
| TiledGemm.FlattenInverse | verifier/smt/gemm_index_equivalence.py:97-128 | Every tile-local index is recovered from its flat offset, which is in range. |
| TiledGemm.UnflattenInverse | verifier/smt/gemm_index_equivalence.py:97-128 | Every offset in range comes from a tile-local index. |
| TiledGemm.FlattenInjective | verifier/smt/gemm_index_equivalence.py:112-124 | No two local iterations share a slot. |

## Left out

- Floating point: rounding (except where a parameter stands for it), NaN, infinities, log of zero, float32 accumulation order. Results are over the reals.
- GPU memory ordering: sequential consistency, one worker per block; the CDNA barrier's 32-bit comparison and cache modifiers are not modelled.
- Batch and head loops and flat offsets of the KDA routines: one (batch, head) slice is modelled, on two-dimensional buffers.
- Shape and size `ValueError`s, except where a row above names them.
- `_kda_chunk_ref` with sequence length 0: the model returns no rows and the initial state; what the tensor library's reshape does there is not modelled.
- `ref_instrumented`'s captures: the values it records are the ones the chunked form computes.
- KdaRecurrence.NaiveForward: the early return for empty batch, head or length is the empty loop.
- MoeFused.FusedMoe: hidden and ispp are multiples of 64 and blocks have 16 rows, which is what the kernel asks of its callers (src/c/vkernels/kernels/moe_fused.hpp:78-80); with other sizes it leaves out partial tiles. The group size is any that divides a row.
- MoeEp.DistMoeEp: the same sizes (with others the stages read activations nobody wrote) and a routing table of the stated shape.
- MoeTp.DistMoeTp: the partials are added as they are made instead of being listed first.
- MoeAgreement.RealAgreeIff: codes 6, 7, 14 and 15 (infinities and NaNs) may have any real value, and the SwiGLU clamp is off, its default.
- Megakernel.KdaSpineMegakernel.Run: the slot table is the bench's own (one row, slot 0); padded slots are not modelled. Residency, which the barrier needs in order to make progress, is an assumption that all P workers step.
- StreamMonitor: tasks do not wait on their own stream; thread start and the join of `close` are not modelled.
- OverlapExecutor: callbacks are functions of their arguments, and submitting does not fail.
- RingAllReduce: `BlockingQueue.close`, which the ring never calls.
- KpoolCache.Cache.DecodeUpdate: shapes as the Python wrapper checks them; a page that does not exist is numpy's index error, which the C++ form does not raise.
- MxfpQuant: the bit-level decode of a scale byte is its power of two; nibble codes 6, 7, 14 and 15 are not produced and get no meaning; groups hold an even number of columns.
- `mxfp4_moe_sort`, `mxfp4_moe_sort_scales`, pipeline-parallel transfers, elementwise kernels, table selectors, bindings and benchmarks: easy members or I/O.
