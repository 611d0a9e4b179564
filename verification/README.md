# Verified model of the inference engine

This project models, in Dafny 4.11, how a local language-model engine keeps, batches, rolls
back, schedules and streams its state, and proves the properties that hold over all inputs
and all runs. Arithmetic is exact; matrix products, norms, rotary embedding, attention
kernels, softmax and the tokenizer are arbitrary functions.

Run `dafny verify dfyconfig.toml` to check everything.

## What is modelled

**Sequence state.** `LoopInterchange` proves, for any stack of stateful layers, that running
a batch layer by layer is running its items one by one. `Transformer` instantiates it with
attention and DeltaNet layers; `TokenRuns` names the result `Run(m, cache, tokens)`, the
token-major meaning of a token sequence, and `LayerLaws` says part by part what a run does
to a row in every layer, without the step function. Every entry point of `GenericModel`
(decode step, ping-pong prefill, chunked, decomposed and M-RoPE prefill, draft verification)
is a method on a mutable cache that is proved against `Run`. `Rollback` and `PrefixCache`
show when truncation and prefix reuse are exact, `CpuBackend` puts the backend's `prefill`
paths, `truncate_kv` and `verify_draft` together, and `ConcurrentPrefill` lets requests
interleave over one store; `Eviction` is that store's least-recently-used eviction.
`EagleHead` is the EAGLE-3 draft head on the target's hidden states, `Speculative` proves
its rounds and whole generations against sequential judgement, `HybridRounds` looks at
recurrent layers, and `SpeculativeLaw` finds when a round keeps the target's distribution.
`H2oCompact` and `H2o` cover eviction from a cache: in-place compaction, selection, and what
any run of decode steps keeps; `KvRows` says how close quantised rows are to what was
appended.

**Mixture of experts.** `MoeRouting`, `Moe` and `MoeParallel` state the per-token meaning of
a layer once (`MoeOut`) and prove the per-token, the expert-batched and the parallel
implementation against it, the last for any schedule and interleaving of workers; `MoeLaws`
says entry by entry what that row adds up to. `Lpt` proves Graham's bound for the schedule.

**Streaming.** `StreamEvents` gives the block grammar, a parser that is the inverse of
rendering, and the collector; `Inference` is the token-driven machine that sends the events,
`Responses` what it sends by its flags, and `ResponseLaws` the same by the positions of the
markers. `Sampling` and `Thinking` cover the sampler and the think budget, `Metrics` the
counters under concurrency as interleaved atomic steps.

**Vision, dates, recurrences.** `Vision` and `Patches` share one mixed-radix order of
patches; `ResizeBudget` refines the resize dimensions by whole numbers and finds when they
keep the pixel budget; `Calendar` proves the date arithmetic; `Convolution` and `DeltaNet`
relate fused or batched loops to the recurrences they compute, and `DeltaLaws` says what a
DeltaNet state reads back.

## Findings

Some properties one might expect hold only under a condition, which is proved to be the
exact one:

- Rolling back is exact for all models of a layer pattern exactly when every layer is
  attention (`Rollback.RollbackNeedsAttention`): a DeltaNet state is not restored. So a
  speculative round leaves the states of a recurrent layer with the rejected drafts
  (`HybridRounds.RoundsNeedAttention`, `HybridRounds.StaleRound`).
- Cutting a cache back under a budget panics on a model with a layer other than attention
  (`H2o.Session.DecodeNext`), and after a cut new rows get rotary positions that are not
  their absolute ones, unless text positions are counted apart
  (`H2o.Session.RotaryIsAbsolute`).
- Reusing a prefix is exact exactly when, besides, the cache that was saved and the cache
  that reads the entry both use BF16 storage (`PrefixCache.ReuseNeedsBf16Attention`). Other
  formats, among them the command line's default, save zeros and read back no rows
  (`CpuBackend.MisleadingHit`).
- A speculative round does not in general keep the target's distribution, as its
  documentation says it does: the exact condition is
  `SpeculativeLaw.FirstTokenHasTargetLaw`, and an uncertain draft is always favoured
  (`SpeculativeLaw.DraftIsFavoured`, `SpeculativeLaw.FavouredRound`). With a target that is
  certain of its tokens whole runs are exact (`Speculative.RoundsAreTargetOnly`).
- A prefill agrees with decoding exactly when its start position is the number of tokens
  before it (`TokenRuns.StartMustBeLength`, `GenericModel.MisplacedPrefill`); the chunked
  prefill counts from zero and so needs an empty cache (`TokenRuns.ChunkedNeedsEmpty`,
  `GenericModel.MisplacedChunks`).
- The parallel expert paths agree with the layer exactly when every expert is SwiGLU
  (`MoeParallel.ParallelNeedsSwiGlu`). The layer type allows others; the loaders build SwiGLU
  experts only.
- The think budget holds for a block that the prompt has opened exactly when there is none
  (`Thinking.PromptMustBeClosed`, `Thinking.OverrunTurn`): `set_in_think` would tell the
  controller of it and has no caller. It is enforced exactly at temperatures that are not
  negative (`Thinking.ForcingNeedsTemperature`), which the command line does not check.
- A resized image keeps the pixel budget exactly under the conditions of
  `ResizeBudget.BudgetKept`; thin images and narrow budgets break it
  (`ResizeBudget.ThinImage`, `ResizeBudget.NarrowBudget`), the application's budget never does
  (`ResizeBudget.RoomyBudgetKept`).
- The event stream is well formed exactly when no block opens inside another
  (`Inference.RunInference`): `<think>` while text is open, or a tool call that ends inside
  thinking, breaks it (`Inference.CrossedRun`).
- A convolution prefill after other tokens gives the outputs and the register of decoding
  exactly when the forgotten values are zero (`Convolution.ContinuedOutput`,
  `Convolution.ContinuedRegister`, `Convolution.ForgottenToken`).
- Once all requests are done the active count is exactly the number that failed after being
  counted (`Metrics.AllDone`, `Metrics.FailedRun`), so it returns to zero exactly when none
  did.

## Model

| member | source | states |
|---|---|---|
| LoopInterchange.Interchange | crates/backends/backend_common/src/generic_model.rs:205-225 | Running a batch layer by layer gives the same layer states and the same items as running it item by item through all layers, for any stack of stateful layers. |
| LoopInterchange.ItemMajorAppend | crates/backends/backend_common/src/generic_model.rs:451-522 | Feeding a batch in two parts, the second at the position where the first ended, is feeding it at once: what makes chunks and cached prefixes exact. |
| LoopInterchange.RunLayerAt | crates/backends/backend_common/src/generic_model.rs:131-326 | What a layer passes up for item i depends only on the items up to i. |
| Transformer.BatchBlockIsRun | crates/backends/backend_common/src/generic_layer.rs:1131-1330 | Computing all keys and values first and then all queries under the causal mask, or the recurrence over projected rows, is the block applied token by token. |
| Transformer.BatchLayerIsRun | crates/backends/backend_common/src/generic_layer.rs:1131-1330 | The same for a whole layer with norms, residuals and feed-forward in either norm layout. |
| Transformer.BatchStackIsLayerMajor | crates/backends/backend_common/src/generic_model.rs:205-225 | The layer loop of prefill, started at the cache length, is layer-major running of the decode step. |
| TokenRuns.ForwardIsRun | crates/backends/backend_common/src/generic_model.rs:131-326 | Layer-major forward from the cache length gives the cache and hidden rows of decoding the tokens one by one. |
| TokenRuns.RunAppend | crates/backends/backend_common/src/generic_model.rs:524-735 | Decoding a + b is decoding a and then b, on the cache and on the hidden rows. |
| TokenRuns.RunKeepsAligned | crates/backends/backend_common/src/generic_model.rs:524-735 | After any run every attention layer holds one row for each cached position. |
| TokenRuns.RunRowAt | crates/backends/backend_common/src/generic_model.rs:737-838 | Hidden row i of a batch is the last hidden row of decoding the first i + 1 tokens. |
| TokenRuns.StartMustBeLength | crates/backends/backend_common/src/generic_model.rs:451-522 | After any earlier tokens, a forward told to start at a position agrees with decoding, for every model that takes the calls, exactly when the position is the number of those tokens. |
| TokenRuns.ChunkedNeedsEmpty | crates/backends/backend_common/src/generic_model.rs:474-500 | A chunked prefill after earlier tokens leaves the cache of decoding, for every model that takes the call and whatever the chunk size, exactly when there are no earlier tokens: its chunks count their positions from zero. |
| TokenRuns.ChunkedIsRun | crates/backends/backend_common/src/generic_model.rs:474-500 | On an empty cache the chunks, of any size, leave the cache and the last hidden row of decoding all tokens. |
| TokenRuns.ErrorInChunk | crates/backends/backend_common/src/generic_model.rs:451-522 | The first error met chunk by chunk is the error of checking the whole input. |
| TokenRuns.LastMax | crates/backends/backend_common/src/generic_model.rs:301-306 | The argmax that prefill and decode report is the last of the greatest logits. |
| LayerLaws.RowAddsBoth | crates/backends/backend_common/src/generic_layer.rs:974-1020 | What a layer passes up is the row plus the block's output plus the feed-forward of that sum, each normed where the layout norms it: entry by entry, in both norm layouts. |
| LayerLaws.OnlyBlock | crates/backends/backend_common/src/generic_layer.rs:974-1020 | With a feed-forward that adds nothing, entry j of what is passed up is entry j of the row plus entry j of the block's output, normed if it is, in both layouts. |
| LayerLaws.OnlyFfn | crates/backends/backend_common/src/generic_layer.rs:974-1020 | With a block that adds nothing it is entry j of the row plus entry j of the feed-forward of the row. |
| LayerLaws.LayerPasses | crates/backends/backend_common/src/generic_layer.rs:855-1038 | One layer step, part by part: the key and the value of the normed row at its position join the rows, its query attends over all of them, or the recurrence moves on by its projection and gates; and both outputs are added to the row. |
| LayerLaws.TokenPasses | crates/backends/backend_common/src/generic_model.rs:524-735 | Decoding a token takes its embedding through every layer in that way, each layer's row to the next, at the next position; the captured rows are those that left their layers. |
| LayerLaws.RunPasses | crates/backends/backend_common/src/generic_model.rs:131-326 | In a run every token goes through the layers on the cache that the tokens before it left, and its last row is the hidden row of the run. |
| LayerLaws.SilentRun | crates/backends/backend_common/src/generic_model.rs:131-326 | A stack whose blocks and feed-forwards all add nothing passes up the embedding of every token. |
| LayerLaws.SilentLogits | crates/backends/backend_common/src/generic_model.rs:524-735 | The logits of such a model are those of the last token's normed embedding, whatever is cached. |
| GenericModel.ForwardDecode | crates/backends/backend_common/src/generic_layer.rs:855-1038 | One row through one layer: appends the row's key and value, or advances the recurrent state, and passes up the row plus both normed outputs, part by part as in `LayerLaws.LayerPasses`. |
| GenericModel.DecodeStep | crates/backends/backend_common/src/generic_model.rs:524-735 | Leaves the cache of the one-token run and returns its logits: the embedding goes through every layer part by part, and if all of them add nothing the logits are those of the normed embedding. With extraction on it captures for every slot the row that left its layer. It fails without a change exactly when the context is full or the token is out of range, naming which. |
| GenericModel.AttentionPrefill | crates/backends/backend_common/src/generic_layer.rs:1131-1330 | Projects the whole batch, appends all rows, then attends: the batch block on the layer's cache. |
| GenericModel.DeltaNetPrefill | crates/backends/backend_common/src/generic_layer.rs:644-712 | The sequential recurrence over a projected batch, written into the output buffer. |
| GenericModel.ForwardPrefill | crates/backends/backend_common/src/generic_layer.rs:1131-1330 | One layer over a batch, reading one buffer and writing the other: the rows of the layer's batch step, which `Transformer.BatchLayerIsRun` makes the decode step of each row. |
| GenericModel.ForwardLayers | crates/backends/backend_common/src/generic_model.rs:205-225 | The ping-pong loop over two buffers: for any number of layers of either parity the result sits in one of the two buffers and equals the layer-major stack. |
| GenericModel.PrefillWithToken | crates/backends/backend_common/src/generic_model.rs:131-326 | Succeeds exactly when the input is not empty, fits the context and has no unknown token, else fails with the first such error and an unchanged cache; started at the cache length it ends in the cache and the output of decoding the tokens one by one, which for layers that add nothing is that of the last token's embedding. |
| GenericModel.PrefillWithEmbedsMrope | crates/backends/backend_common/src/generic_model.rs:970-1160 | The same for embedded rows with separate text positions. |
| GenericModel.PrefillWithTokenChunked | crates/backends/backend_common/src/generic_model.rs:451-522 | On any cache: succeeds exactly when the input is not empty, fits behind the cached length and has no unknown token, names the first error, and leaves the fold of the chunk forwards counted from zero; on an empty cache that is the cache and output of decoding the whole input for any chunk size, and a call that fails on a token has run exactly the whole chunks before its chunk. |
| GenericModel.MisplacedPrefill | crates/backends/backend_common/src/generic_model.rs:131-326 | For any earlier tokens and any other start, two successful calls whose cache differs from decoding. |
| GenericModel.MisplacedChunks | crates/backends/backend_common/src/generic_model.rs:451-522 | For any earlier tokens and any chunk size, a prefill and a chunked prefill that both succeed and leave a cache that differs from decoding. |
| GenericModel.VerifyDraftTokens | crates/backends/backend_common/src/generic_model.rs:737-838 | Entry i of the result is the logits decoding gives after tokens 0..i, and all tokens are appended to the cache. |
| GenericModel.ForwardPrefillPhaseA | crates/backends/backend_common/src/generic_layer.rs:1334-1365 | Phase A works for attention layers only and leaves the cache alone. |
| GenericModel.ForwardPrefillPhaseB | crates/backends/backend_common/src/generic_layer.rs:1367-1448 | Phase A followed by phase B is the layer's prefill. |
| GenericModel.PrefillWithTokenDecomposed | crates/backends/backend_common/src/generic_model.rs:1786-1889 | The prefill split into phases succeeds exactly for a non-empty in-vocabulary input on an attention model, and then equals the unsplit prefill. |
| Rollback.TruncateUndoesRun | crates/backends/backend_common/src/cpu_backend.rs:527-543 | Truncating to the length before b undoes running b: layer rows, length and text position. |
| Rollback.RollbackNeedsAttention | crates/backends/backend_common/src/cpu_backend.rs:527-543 | A layer pattern can be rolled back, for all weights, caches and tokens, exactly when it consists of attention layers: a recurrent state keeps no history. |
| PrefixCache.SavedIsFaithful | crates/backends/backend_common/src/prefix_cache.rs:364-418 | Any non-empty prefix saved from a BF16 cache after a completed run holds exactly the rows decoding that prefix produces. |
| PrefixCache.LoadedIsRun | crates/backends/backend_common/src/prefix_cache.rs:282-327 | Loading a faithful entry into a fresh BF16 cache is running its tokens, for attention models. |
| PrefixCache.HitIsWhole | crates/backends/backend_common/src/cpu_backend.rs:214-299 | A partial or exact hit of a faithful entry by a BF16 cache of an attention model ends in the cache and the last hidden row of running all tokens. |
| PrefixCache.ReuseNeedsBf16Attention | crates/backends/backend_common/src/prefix_cache.rs:254-418 | Saving a prefix of a prompt, hitting it with a later prompt and running the rest is running everything, for all models of a layer pattern and all such prompts, exactly when every layer is attention and both the cache that was saved and the cache that reads the entry use BF16 storage. |
| PrefixCache.ReuseFails | crates/backends/backend_common/src/kv_cache.rs:289-301 | In every other case sixteen tokens saved and seventeen asked for give a different cache: other formats save zeros and read back no rows, and a DeltaNet state is not stored. |
| PrefixCache.PrefixStore.Lookup | crates/backends/backend_common/src/prefix_cache.rs:221-250 | The first stored prefix of the input that is on disk, which is the longest such; inputs under 16 tokens never hit. It advances the clock and marks as accessed the stored prefixes of the input from the longest down to the one it hits, and no others. |
| PrefixCache.PrefixStore.Save | crates/backends/backend_common/src/prefix_cache.rs:336-354 | Adds the entry of the prompt rounded down to a multiple of 16, and exactly that if it fits the size limit and can be written, else what least-recently-used eviction leaves of index and files; nothing below 16 tokens; from BF16 caches exact entries stay exact. |
| PrefixCache.PrefixStore.SaveSystem | crates/backends/backend_common/src/prefix_cache.rs:356-362 | The same for exactly the system prompt. |
| PrefixCache.PrefixStore.SaveInner | crates/backends/backend_common/src/prefix_cache.rs:364-450 | Zeros stand in for a flat copy that is too short; an entry for the same tokens, from whatever format, is kept as it is; a new one counts as just accessed; the index stays sorted, longest first, and complete up to the size limit, above which eviction decides. |
| PrefixCache.PrefixStore.Evict | crates/backends/backend_common/src/prefix_cache.rs:452-490 | Up to the size limit nothing goes. Above it the files that were accessed longest ago go, a file that cannot be removed being passed over, until the rest fits; the index then keeps exactly the entries whose files are left. |
| Eviction.EvictOldest | crates/backends/backend_common/src/prefix_cache.rs:459-478 | A removed file is removable and comes, by last access and then by place in the index, before every removable file that stays; if the rest is still too large everything removable is gone; and without the newest of the removed files the rest did not fit. |
| Eviction.FitsAlready | crates/backends/backend_common/src/prefix_cache.rs:452-456 | Such an eviction removes nothing if everything fits. |
| CpuBackend.TruncateKv | crates/backends/backend_common/src/cpu_backend.rs:527-543 | Rolls every layer, the length and the text position back, and does nothing for a longer target. |
| CpuBackend.VerifyDraft | crates/backends/backend_common/src/cpu_backend.rs:481-511 | Verification from the current length, with and without separate text positions: the cache is the run of the drafts, entry i the logits after drafts 0..i, and text position minus length is unchanged. |
| CpuBackend.PrefillFrom | crates/backends/backend_common/src/cpu_backend.rs:214-299 | Prefilling the rest on top of a cache resumes from whatever it holds, on both rotary paths, and succeeds exactly when all tokens pass the checks. |
| PrefixCache.TrimmedIsRun | crates/backends/backend_common/src/cpu_backend.rs:292-299 | Trimming the last token of an exact hit leaves the run of all tokens but it. |
| PrefixCache.ResumedIsWhole | crates/backends/backend_common/src/cpu_backend.rs:287-299 | A forward of the rest from a cache of the first tokens ends in the run of all tokens. |
| CpuBackend.Prefill | crates/backends/backend_common/src/cpu_backend.rs:165-363 | A failed call names the first error, which with M-RoPE is that of a token before that of a length. A hit is the first usable entry, and resumes from it whatever it holds; a miss or an unreadable file runs every token, chunked or not, and saves the prompt. The cache, logits and first token are those of decoding exactly the input whenever nothing was reused, and with a hit for attention models, BF16 storage and an exact store, which then stays exact. |
| ConcurrentPrefill.RunsAreExact | crates/backends/backend_common/src/cpu_backend.rs:800-1011 | For prefills side by side, the store locked for each look-up, read and save only, in every interleaving and whatever is evicted or unreadable: with attention layers, BF16 storage and a store that starts exact, the store stays exact and every finished request ends in the cache and the last hidden row of running its own prompt. |
| ConcurrentPrefill.NeverStuck | crates/backends/backend_common/src/cpu_backend.rs:800-1011 | A request that is neither done nor failed can always take a step, so the interleavings leave none out. |
| CpuBackend.MisleadingHit | crates/backends/backend_common/src/cpu_backend.rs:165-363 | For any layer pattern, saved format and reading format other than attention and BF16 throughout, two prefills through one store: the second hits sixteen tokens, succeeds, and leaves a cache that is not the run of its tokens. |
| Speculative.SpecDecoder.Step | crates/backends/backend_common/src/eagle3_speculative.rs:83-261 | One round, drafted by the head from the hidden states the target captured while decoding the current token, emits exactly what judging those drafts one decode at a time would emit, draw by draw; if the head's choice depends on the fed token only, the drafts are next(current), next(next(current)) and so on; accepted + 1 tokens, the accepted drafts first; the target cache is that of all drafts run and the rejected ones truncated, which for attention models is the run of the current token and the accepted drafts, the head keeps the rows of as many drafts; totals advance; it fails exactly when the target cannot take the tokens, there are no drafts, or extraction is off. |
| Speculative.DraftAndVerify | crates/backends/backend_common/src/eagle3_speculative.rs:91-159 | The logits gathered by one decode and one verification are those of decoding every draft in turn. |
| Speculative.SpecDecoder.JudgeDrafts | crates/backends/backend_common/src/eagle3_speculative.rs:165-236 | The accept/reject loop over gathered logits is the sequential judgement, and emits by position what `Speculative.JudgedInTurn` says. |
| Speculative.JudgedInTurn | crates/backends/backend_common/src/eagle3_speculative.rs:165-236 | Judgement by position: with n tokens emitted the first n - 1 are drafts, each accepted under the target's logits after the drafts before it and with its own draw; then comes the replacement for the first rejected draft, or the bonus token if there is none; and so many draws are used. |
| Speculative.DropRejected | crates/backends/backend_common/src/eagle3_speculative.rs:240-248 | Truncating both caches leaves the run of the current token and the accepted drafts. |
| Speculative.RollbackStep | crates/backends/backend_common/src/eagle3_speculative.rs:240-244 | The kept length is that of the current token and the accepted drafts, in every layer and in the text position. |
| Speculative.Generate | crates/cli/src/main.rs:1160-1219 | Over whole runs of attention models the emitted tokens are those of as many rounds of the sequential reference, each drafted from the hidden states of the run so far, cut after the first end token; after every completed round the target cache is the run of the prompt and all emitted tokens but the last, and emitted tokens are the totals produced; on any model every attention layer keeps one row per position and a run stops at the first end token. |
| HybridRounds.RoundsNeedAttention | crates/backends/backend_common/src/eagle3_speculative.rs:240-248 | A round leaves the layers of running the current token and the accepted drafts, for all models of a layer pattern, drafts and numbers accepted, exactly when every layer is attention. |
| HybridRounds.StaleRound | crates/backends/backend_common/src/eagle3_speculative.rs:83-261 | For every pattern with a recurrent layer a round that succeeds, accepts nothing, and leaves states that have seen the rejected draft. |
| Speculative.StepIsLossless | crates/backends/backend_common/src/eagle3_speculative.rs:165-236 | For a target that puts all probability on one token, a step emits the tokens the target alone would decode, whatever is drafted, as long as the drafts have positive draft probability. |
| Speculative.RoundsAreTargetOnly | crates/backends/backend_common/src/eagle3_speculative.rs:83-261 | For such a target any number of rounds of any size, drafted by any head, emits exactly the first token and the tokens the target alone would decode after it. |
| SpeculativeLaw.FirstTokenBoxes | crates/backends/backend_common/src/eagle3_speculative.rs:165-236 | The pairs of draws for which a round emits a given token first are two disjoint boxes: acceptance if it is the draft, and rejection times its stretch of the replacement law. |
| SpeculativeLaw.DrawFinds | crates/backends/backend_common/src/speculative.rs:273-284 | A uniform draw finds a token on a stretch as long as its probability. |
| SpeculativeLaw.BonusFinds | crates/backends/backend_common/src/speculative.rs:273-284 | The bonus token is the one on whose stretch of the target's law the draw falls. |
| SpeculativeLaw.AcceptedWhen | crates/backends/backend_common/src/eagle3_speculative.rs:165-236 | A draft is accepted exactly if its draft probability is zero or the draw times that is below its target probability; a draft without a draft probability counts as drafted with 1e-10. |
| SpeculativeLaw.ReplacementIsLaw | crates/backends/backend_common/src/speculative.rs:248-270 | The weights a replacement is drawn from are a distribution, also when the residual is empty. |
| SpeculativeLaw.DraftLawIsLaw | crates/backends/backend_common/src/eagle3_speculative.rs:182-224 | For a draft of the head's vocabulary the probability used in acceptance is that of the scattered draft distribution, which is a distribution over the target vocabulary. |
| SpeculativeLaw.FirstTokenHasTargetLaw | crates/backends/backend_common/src/eagle3_speculative.rs:165-236 | With uniform draws the first token of a round has the target's distribution exactly when the head is certain of its draft, or the target is, or the target never emits the draft and the head's distribution is proportional to the target's where the target has probability. Line 5 of the file says it always has, which would need a sampled draft; `eagle3.rs:474-484` takes the most likely one. |
| SpeculativeLaw.DraftIsFavoured | crates/backends/backend_common/src/eagle3.rs:474-484 | If neither is certain about the draft, it comes out more often than the target alone would emit it. |
| SpeculativeLaw.FavouredDraft | crates/backends/backend_common/src/eagle3_speculative.rs:165-236 | An undecided target and a head three to one for token 0: it comes out two times in three. |
| SpeculativeLaw.FavouredRound | crates/backends/backend_common/src/eagle3_speculative.rs:165-236 | A round with these laws that drafts token 0 emits it exactly when its first draw is below two thirds. |
| SpeculativeLaw.RoundLaw | crates/backends/backend_common/src/eagle3_speculative.rs:165-236 | For a round that drafts a token of the head's vocabulary: the pairs of draws for which it emits a token first are two disjoint boxes inside the unit square, whose areas add up to the probability that the condition is about. |
| EagleHead.Eagle3Head.DraftStep | crates/backends/backend_common/src/eagle3.rs:303-488 | One decoder layer over the token's embedding and the fused hidden states or the previous output: appends the head's key and value, attends over the head's rows, adds the residuals, and returns the logits with the first of the greatest mapped to the target vocabulary; fails without either input. |
| EagleHead.Eagle3Head.DraftTokens | crates/backends/backend_common/src/eagle3_speculative.rs:112-141 | A round of drafts, part by part: draft i is drafted from draft i - 1, the first from the current token, over the head's own last output, the first over the fused hidden states, at consecutive positions, each on the rows of the drafts before it. |
| EagleHead.DraftIsLikeliest | crates/backends/backend_common/src/eagle3.rs:474-484 | Every draft is the most likely draft id of its own logits, mapped to the target vocabulary. |
| EagleHead.DraftsPass | crates/backends/backend_common/src/eagle3_speculative.rs:112-141 | Every round goes that way for a head of any width: `HeadPasses` says what one pass adds to the fused row and to the cached rows, `DraftedThrough` which token and which row each pass is fed. |
| EagleHead.DraftsFollow | crates/backends/backend_common/src/eagle3_speculative.rs:117-141 | If the head's choice depends on the fed token only and is next(token), draft i is next applied i + 1 times to the current token. |
| EagleHead.RoundIterates | crates/backends/backend_common/src/eagle3_speculative.rs:83-141 | The same for the drafts of a round of any size on any target. |
| EagleHead.LaterDraftsSame | crates/backends/backend_common/src/eagle3_speculative.rs:117-141 | The later drafts of a round depend on what the first pass was fed only through its draft, its output row and its cached row. |
| EagleHead.RoundPasses | crates/backends/backend_common/src/eagle3_speculative.rs:83-141 | A round from target to drafts: the current token goes through every layer of the target, the rows that leave the extracted layers are fused, and the drafts follow from them. |
| EagleHead.AlternatingDrafts | crates/backends/backend_common/src/eagle3_speculative.rs:117-141 | A concrete head, which answers 3 with 9 and everything else with 3, drafts them in turn. |
| EagleVocab.Load | crates/backends/backend_common/src/eagle3.rs:119-139 | The maps built from a mask: d2t is strictly increasing and enumerates exactly the set positions, t2d is its inverse. |
| EagleVocab.MapsAreInverse | crates/backends/backend_common/src/eagle3.rs:279-294 | target_to_draft and draft_to_target are mutually inverse on mapped tokens. |
| EagleVocab.ScatteredAt | crates/backends/backend_common/src/eagle3_speculative.rs:217-224 | Each mapped draft probability lands at its target token. |
| EagleVocab.ScatterConserves | crates/backends/backend_common/src/eagle3_speculative.rs:217-224 | Scattering into the target vocabulary keeps the total when no mapped token is beyond it. |
| EagleVocab.Scatter | crates/backends/backend_common/src/eagle3_speculative.rs:217-224 | The scatter loop computes the scattered vector. |
| H2oCompact.GatherRow | crates/backends/backend_common/src/h2o.rs:205-309 | Row i of what compaction leaves is the old row of the i-th kept position. |
| H2oCompact.GatherRepresents | crates/backends/backend_common/src/h2o.rs:205-309 | Gathering a buffer that encodes a list of rows gives the buffer that encodes the picked rows, whatever the encoding: buffers and row lists move alike. |
| H2oCompact.RowMoves | crates/backends/backend_common/src/h2o.rs:205-309 | Moving rows to the front of the same buffer in increasing order never overwrites a row still to be read. |
| H2oCompact.CompactVec | crates/backends/backend_common/src/h2o.rs:210-222 | In-place compaction of one buffer, source and destination overlapping, is gathering from the unchanged buffer. |
| H2oCompact.Compact | crates/backends/backend_common/src/h2o.rs:205-309 | All layers and heads in the F32, BF16, INT8 and INT4 layouts, their scale arrays and the flat BF16 arrays end up as the gathered rows. |
| KvRows.RoundedStep | crates/backends/backend_common/src/kv_cache.rs:18-63 | A value of a group is at most half a step from the step it is stored as, and never cut off at the ends of its range. |
| KvRows.Int8Close | crates/backends/backend_common/src/kv_cache.rs:18-39 | An INT8 row has as many bytes and scales as `KvFormats` says, and reads back every entry within half its scale. |
| KvRows.Int4Close | crates/backends/backend_common/src/kv_cache.rs:41-90 | The same for INT4: entry e is in the low or high half of a byte of group e / 32 and reads back within half that group's scale. |
| KvRows.PackRow | crates/backends/backend_common/src/kv_cache.rs:66-76 | The packing loop writes that row and returns its scales. |
| KvRows.AppendInt4 | crates/backends/backend_common/src/kv_cache.rs:304-385 | Appending rows to the packed buffer and the scales leaves the buffers of all rows. |
| KvRows.CompactedReads | crates/backends/backend_common/src/h2o.rs:205-309 | After compaction every kept INT4 row still reads back within half a scale of what was appended. |
| H2o.SelectKept | crates/backends/backend_common/src/h2o.rs:164-199 | Strictly increasing positions, exactly min(len, max(budget, 136)) of them, with all sinks first and the recent window last, and no dropped middle position scoring above a kept one. |
| H2o.SelectMiddle | crates/backends/backend_common/src/h2o.rs:177-191 | The best scored positions of the middle, as many as asked for, in order of position. |
| H2o.BudgetNumbers | crates/backends/backend_common/src/h2o.rs:31-35 | The hysteresis is an eighth of the budget, rounded down, and at most 512; a selection drops nothing up to 136 positions or the budget, and beyond that keeps the budget, or 136. |
| H2o.EndsSurvive | crates/backends/backend_common/src/h2o.rs:164-199 | The first eight positions and the last 128 survive every selection. |
| H2o.KeptBound | crates/backends/backend_common/src/h2o.rs:164-199 | A selection never keeps more than the budget and its hysteresis, or 136. |
| H2o.Session.Evict | crates/backends/backend_common/src/h2o.rs:315-341 | Evicts exactly above the budget, down to the selected positions; every cached row of an attention layer stays the row once appended at its tracked position. It panics exactly when rows move and a layer has fewer rows than there are positions. |
| H2o.Session.DecodeNext | crates/backends/backend_common/src/cpu_backend.rs:443-461 | Over any run: cached rows are a strictly increasing selection of all rows appended, keeping the first 8 and the last 128; after each call the length is at most max(budget + hysteresis, 136); with a budget of at least 136 any two consecutive evictions are exactly hysteresis + 1 decodes apart. A model with a layer other than attention runs up to its first cut and panics there, exactly then. |
| H2o.PickRows | crates/backends/backend_common/src/h2o.rs:205-309 | Compaction of the row lists moves row by row and panics exactly when some position is dropped and a layer lacks a row that moves. |
| H2o.Session.RotaryIsAbsolute | crates/backends/backend_common/src/h2o.rs:337-338 | The rotary position of the next row is its absolute position exactly if nothing was evicted or the model counts text positions apart; the comment in the code says it always is. |
| H2o.StepAppends | crates/backends/backend_common/src/cpu_backend.rs:443-447 | A decode step adds one row to every attention layer. |
| MoeRouting.TopKIndices | crates/backends/backend_common/src/generic_moe.rs:1125-1150 | Distinct best positions, as many as asked for or there are, best first, none left out that beats one chosen; at most 256 values, as its buffer demands. |
| MoeRouting.RouteToken | crates/backends/backend_common/src/generic_moe.rs:197-216 | The biased scores decide the choice, the unbiased probabilities are the weights. |
| MoeRouting.NormalisedSum | crates/backends/backend_common/src/generic_moe.rs:419-430 | Renormalised weights sum to one. |
| MoeRouting.NormalisedPermutes | crates/backends/backend_common/src/generic_moe.rs:417-430 | Sorting before renormalising renormalises the same choices. |
| MoeRouting.ExpertPool.RecordAndSort | crates/backends/backend_common/src/expert_pool.rs:74-89 | Counts every use, wrapping at 32 bits, and returns the same choices, most used first. |
| MoeRouting.CountedAt | crates/backends/backend_common/src/expert_pool.rs:80-83 | Each count moves by the number of uses modulo 2^32. |
| Moe.ConfiguredRoutes | crates/backends/backend_common/src/generic_moe.rs:197-216 | A layer that passed the configuration checks sends every token to exactly as many experts as configured, all of which exist. |
| Moe.ShareSumPermutes | crates/backends/backend_common/src/generic_moe.rs:1049-1069 | The weighted sum of contributions to a token does not depend on their order. |
| Moe.ScatteredIsMix | crates/backends/backend_common/src/generic_moe.rs:795-802 | Adding all routed contributions in any order gives every token the weighted sum over its own experts and nothing else. |
| Moe.BuildAssignments | crates/backends/backend_common/src/generic_moe.rs:706-733 | Grouping by expert keeps exactly the routed contributions. |
| Moe.PrefillV5 | crates/backends/backend_common/src/generic_moe.rs:611-683 | Per-token prefill: every token gets the weighted sum of its experts plus the shared expert, the row of `MoeLaws.MoeOutAddsUp`. |
| Moe.PrefillV6 | crates/backends/backend_common/src/generic_moe.rs:687-827 | Prefill batched by expert (gather, run, scatter) gives the same rows. |
| Moe.MixPermutes | crates/backends/backend_common/src/generic_moe.rs:411-417 | Visiting a token's experts in another order gives the same row. |
| MoeLaws.RouteIsBest | crates/backends/backend_common/src/generic_moe.rs:197-216 | A token goes to exactly topK experts, distinct, none of those left out scoring above one of them, each weighted with its router probability. |
| MoeLaws.MoeOutAddsUp | crates/backends/backend_common/src/generic_moe.rs:411-430 | Entry j of a row, under any expert outputs: with normalisation off, or no probability to divide by, the sum over the chosen experts of router probability times entry j of the expert's output, plus the shared expert's part; with it on and a positive total, that sum times the total chosen probability. So for every implementation. |
| MoeLaws.ParallelAddsUp | crates/backends/backend_common/src/generic_moe.rs:643-652 | The same on the parallel paths, with SwiGLU in every expert. |
| MoeParallel.FlattenGroups | crates/backends/backend_common/src/generic_moe.rs:879-906 | The flat arrays hold every assignment once; each group's range holds its expert's assignments, and the ranges together are all positions in order. |
| MoeParallel.ScheduleExperts | crates/backends/backend_common/src/generic_moe.rs:941-973 | Every active expert is on exactly one worker, and the largest load is at most (4m-1)/(3m) times that of any assignment to m workers. |
| MoeParallel.JobListsPartition | crates/backends/backend_common/src/generic_moe.rs:946-957 | The workers' lists hold every job exactly once. |
| MoeParallel.SlotsPartition | crates/backends/backend_common/src/generic_moe.rs:989-1044 | The output slices of all workers are disjoint and fill the buffer. |
| MoeParallel.Dispatch | crates/backends/backend_common/src/generic_moe.rs:989-1044 | For any interleaving of the workers' row writes every slot ends with the value of its task. |
| MoeParallel.RunExperts | crates/backends/backend_common/src/generic_moe.rs:936-1044 | After the parallel phase slot k is the expert output of assignment k. |
| MoeParallel.GatheredPermutes | crates/backends/backend_common/src/generic_moe.rs:1049-1069 | The scatter visits every assignment exactly once in whatever order the experts were sorted. |
| MoeParallel.PrefillV8 | crates/backends/backend_common/src/generic_moe.rs:832-1094 | For any configured layer, worker count, schedule and interleaving every token gets the row of v5 and v6 computed with SwiGLU. |
| MoeParallel.ParallelNeedsSwiGlu | crates/backends/backend_common/src/generic_moe.rs:1028-1028 | The parallel paths agree with the layer's meaning for all configured layers exactly when every expert is SwiGLU. |
| MoeParallel.RoutedSomething | crates/backends/backend_common/src/generic_moe.rs:925-934 | The early return, which skips the shared expert, is never taken on a non-empty batch of a configured layer. |
| MoeParallel.ForwardDecode | crates/backends/backend_common/src/generic_moe.rs:378-585 | Single-token decoding, hottest expert first, in turn or side by side, gives the same row whatever the usage counts. |
| MoeParallel.MixParallel | crates/backends/backend_common/src/generic_moe.rs:441-560 | The parallel branch over any even split of the experts, with its sequential reduction, is the weighted sum with SwiGLU. |
| Lpt.LoadsSumToTotal | crates/backends/backend_common/src/generic_moe.rs:946-957 | Worker loads add up to the total size of the jobs. |
| Lpt.LoadIsListSize | crates/backends/backend_common/src/generic_moe.rs:946-957 | A worker's load is the total size of the jobs on its list. |
| Lpt.BigJobFits | crates/backends/backend_common/src/generic_moe.rs:946-957 | A job larger than a third of a target load fits within the target on the least loaded worker if any schedule meets the target: the case in which longest-first beats plain list scheduling. |
| Lpt.GreedyIsNearOptimal | crates/backends/backend_common/src/generic_moe.rs:941-957 | Longest processing time first is within (4m-1)/(3m) of every schedule, for any sizes and any number of workers. |
| Lpt.Schedule | crates/backends/backend_common/src/generic_moe.rs:943-957 | The scheduling loop builds the greedy assignment's lists and loads. |
| StreamEvents.ParsedIsRendered | crates/server/src/handlers.rs:718-1117 | An event sequence parses only if it is the rendering of the blocks it parses to. |
| StreamEvents.RenderedParses | crates/server/src/handlers.rs:718-1117 | Every rendering of blocks, one possibly still open, parses back to them. |
| StreamEvents.MessageParses | crates/server/src/handlers.rs:1082-1117 | A body followed by the closing pair is a well-formed message exactly when it parses to at least one block with none open and reports tool use exactly if one is a tool block. |
| StreamEvents.Collect | crates/server/src/handlers.rs:350-414 | The non-streaming collector folds a well-formed stream to its blocks in order, each the concatenation of its deltas, with the reported stop reason and token count; text, thinking and tool names of the contents are those of the events. |
| StreamEvents.ContentsCarry | crates/server/src/handlers.rs:350-414 | The contents of blocks carry their text, thinking and tool names, joined in order. |
| StreamEvents.MessageOfEachKind | crates/server/src/handlers.rs:718-1117 | The events of a message of a thinking block, a text block and a tool block, one by one. |
| StreamEvents.ContentsOfEachKind | crates/server/src/handlers.rs:350-414 | The contents of that message. |
| StreamEvents.Collector.Receive | crates/server/src/handlers.rs:364-410 | Each event moves the collector's variables as it moves the parsed blocks. |
| Inference.RunInference | crates/server/src/handlers.rs:718-1117 | By the positions of the tokens taken, and the last marker before each: its text deltas are the decoded plain tokens outside thinking and the whole of every call that does not parse, its thinking deltas the plain tokens inside, in order; it reports exactly the calls closed by token, left open at the end, or, if there is none, written in the text; without markers the text is all tokens but end tokens from the first on. The stream is well formed exactly when no two blocks cross. It ends in the closing pair with the number of tokens taken and the stop reason of its calls and cause. No token before the last taken one stops the run: neither an end token nor, after content, a stop sequence or a repetition; the cause is that of the last token, and only without one is it the token limit, reached exactly. |
| Inference.PlainRun | crates/server/src/handlers.rs:743-779 | A token and the end token: the response is the text of that token. |
| ResponseLaws.ModeByPosition | crates/server/src/handlers.rs:743-987 | After any tokens the flags are those of the last markers: inside a call from its opening on while it is not closed, inside thinking likewise, text open if text was sent after the last marker. |
| ResponseLaws.SentByPosition | crates/server/src/handlers.rs:743-987 | Token k adds its decoding to exactly one of text, thinking and the tokens of a call; closing a call adds the call if it parses and otherwise its whole text, tags included. |
| ResponseLaws.StopByPosition | crates/server/src/handlers.rs:783-987 | Token k stops the run exactly if it is an end token, or content on which a stop sequence or a repetition is found, and with that cause. |
| ResponseLaws.CleanByPosition | crates/server/src/handlers.rs:865-920 | The first tokens leave no blocks crossed exactly if no token opens thinking inside text or closes a call inside thinking. |
| ResponseLaws.RunByPosition | crates/server/src/handlers.rs:718-1117 | All of it for a whole run, with the calls that are found only at its end. |
| ResponseLaws.UnmarkedIsText | crates/server/src/handlers.rs:743-779 | Without think or tool markers the text is the decodings of all tokens but end tokens, from index 0 on, and the thinking is empty. |
| ResponseLaws.UnmarkedIsClean | crates/server/src/handlers.rs:1026-1080 | Without markers nothing crosses, and the calls are those written in the text. |
| ResponseLaws.WrittenCall | crates/server/src/handlers.rs:1026-1080 | In a text the first tag pair gives its call if what is between parses, and the text after it gives the others. |
| Inference.CrossedRun | crates/server/src/handlers.rs:906-920 | Two runs that end normally, one with `<think>` after text and one with a tool call inside thinking, whose streams are not well formed. |
| ResponseLaws.SeparatedRun | crates/server/src/handlers.rs:718-1117 | If `<think>` never arrives while a text block is open and `<tool_call>` never inside thinking, no blocks cross. |
| Inference.Streamer.First | crates/server/src/handlers.rs:743-779 | The first token's branches: flags and events, with its decoding as the first text if it is neither a marker nor an end token. |
| Inference.Streamer.Next | crates/server/src/handlers.rs:783-987 | Every later token's branches keep the events sent in step with the flags, and break the block structure exactly at the two crossings. |
| Inference.Streamer.EmitTool | crates/server/src/handlers.rs:865-881 | A reported tool call is one complete block, unless a thinking block is open. |
| Inference.Streamer.FinishTool | crates/server/src/handlers.rs:989-1024 | An unfinished tool call is reported if it parses, and crosses only inside thinking. |
| Inference.Streamer.FindToolTexts | crates/server/src/handlers.rs:1026-1080 | Exactly the calls between tags in the text that parse are reported, without crossing. |
| Inference.Streamer.Close | crates/server/src/handlers.rs:1082-1101 | What is open is closed, and a message without blocks gets an empty text block. |
| Sampling.Argmax | crates/core/src/sampler.rs:244-254 | The first of the largest logits, or token 0 if all are masked. |
| Sampling.Sample | crates/core/src/sampler.rs:72-145 | For any settings, logits and random number: at temperature zero the argmax; otherwise the token whose stretch of the cumulative softmax of the scaled candidates, cut to the k largest and to the nucleus, holds the random number, never a masked one. Without cuts, for an `exp` that turns sums into products, the stretches are as long as exp(logit / temperature) of each token. If the largest scaled logit is infinite all probabilities are undefined: then it panics exactly when top-p has two of them to compare, and else takes the last candidate. |
| Sampling.SoftmaxRatio | crates/core/src/sampler.rs:98-107 | For every `exp` that turns sums into products and two finite logits at temperature T: p_i exp(l_j / T) = p_j exp(l_i / T). |
| Sampling.SoftmaxGrows | crates/core/src/sampler.rs:98-107 | For a growing `exp` and a positive temperature the larger logit has the larger probability. |
| Sampling.DrawnOnStretch | crates/core/src/sampler.rs:98-144 | Without top-k and top-p the token drawn is one on whose stretch the number falls, when the exponentials of all tokens are laid side by side. |
| Sampling.StretchGrows | crates/core/src/sampler.rs:98-144 | The larger logit has the longer stretch. |
| Sampling.KeepLargest | crates/core/src/sampler.rs:90-95 | Top-k keeps k items, none smaller than a dropped one. |
| Sampling.Nucleus | crates/core/src/sampler.rs:109-131 | Top-p keeps the fewest most probable tokens reaching the threshold and rescales them to a distribution over possible tokens. |
| Sampling.Draw | crates/core/src/sampler.rs:133-144 | The draw inverts the cumulative distribution and never needs the fallback. |
| Sampling.XorshiftNonZero | crates/core/src/sampler.rs:50-57 | The random generator never reaches its fixed point zero. |
| Sampling.Sampler.NextUnit | crates/core/src/sampler.rs:60-62 | Moves the generator on once; the number is the upper 24 bits of its state over 2^24, in [0, 1). |
| Sampling.UnitOfState | crates/core/src/sampler.rs:60-62 | The number is the state divided by 2^40, rounded down, over 2^24. |
| Sampling.XorshiftOf | crates/core/src/sampler.rs:50-57 | Where the three shifts send the lowest and the highest bit. |
| Sampling.Sampler.Next | crates/core/src/sampler.rs:72-86 | One draw of the generator for one token, and none at temperature zero or without logits. |
| Thinking.ThinkBudget.Track | crates/core/src/sampler.rs:202-212 | The controller's flag and count are those of the token history. |
| Thinking.ThinkBudget.ApplyToLogits | crates/core/src/sampler.rs:219-232 | By the position of the open `<think>`: inside the budget, outside a block, or with budget zero the logits stay; at the budget all but the newline are masked, after it all but `</think>`. |
| Thinking.DecodeToken | crates/cli/src/chat.rs:231-243 | Apply, sample, track, under any settings: a forced token that the model leaves unmasked comes out exactly when the temperature is not negative, it is the only token, or it is the last one and neither top-k nor top-p cuts. |
| Thinking.ForcedIsSampled | crates/core/src/sampler.rs:219-242 | The same as a fact about sampling masked logits. |
| Thinking.ForcingNeedsTemperature | crates/core/src/sampler.rs:219-242 | Forcing works on all logits and draws exactly under settings whose temperature is not negative: dividing a masked logit by a negative temperature makes it the largest. |
| Thinking.Run | crates/cli/src/chat.rs:231-243 | Any number of such steps of any model, whose logits depend on what was emitted: at a temperature from zero on, a model that leaves forced tokens unmasked stays within the budget. |
| Thinking.Turn | crates/cli/src/chat.rs:1121-1134 | A turn starts from a reset controller whatever the prompt is: it stays within the budget after a prompt that leaves no `<think>` open. |
| Thinking.PromptMustBeClosed | crates/cli/src/chat.rs:1121-1134 | For every budget, the block a prompt is in followed by a turn is within the budget, for all models that leave forced tokens unmasked and all settings with a temperature from zero on, exactly when the prompt leaves no `<think>` open. |
| Thinking.OverrunTurn | crates/cli/src/chat.rs:1121-1134 | For every budget, every prompt that leaves a `<think>` open and all such settings: a turn that overruns the budget. |
| Thinking.BlocksAreBounded | crates/core/src/sampler.rs:148-232 | Within a budgeted history at most B tokens follow a `<think>` before the next think marker, the B-th is the newline, and the one after it is `</think>`. |
| Metrics.RunInv | crates/server/src/metrics.rs:47-66 | In every interleaving, with stale loads and spurious exchange failures: permits plus permit holders is the limit, waiting and active count exactly the tasks in those phases, and every count not yet covered by the peak belongs to a task that will raise it. |
| Metrics.PeakNeverFalls | crates/server/src/metrics.rs:51-62 | The peak never decreases. |
| Metrics.PeakWasTaken | crates/server/src/metrics.rs:47-62 | The peak is always a value the active count has taken. |
| Metrics.PeakIsMaximum | crates/server/src/metrics.rs:47-62 | Whenever no start is in flight the peak is the largest active count there was. |
| Metrics.ActiveIsBounded | crates/server/src/handlers.rs:510-553 | The active count exceeds the limit by at most the number of failed requests. |
| Metrics.NothingAboveLimit | crates/server/src/handlers.rs:510-553 | In runs without failed requests neither the active count nor the peak is ever above the limit. |
| Metrics.WaitingIsQueue | crates/server/src/handlers.rs:510-551 | The waiting count is the number of tasks in the queue loop whenever none is just leaving it. |
| Metrics.LeaksAreFails | crates/server/src/handlers.rs:510-553 | In every run the requests that stay counted as active without running are as many as the failures in it. |
| Metrics.AllDone | crates/server/src/handlers.rs:1153-1160 | When all tasks are done all permits are back, nobody waits, and the active count is the number of failed requests, which are never subtracted: it is back at zero exactly when none failed. |
| Metrics.FailedRun | crates/server/src/handlers.rs:1149-1160 | A run of one request that is admitted and fails: in the end nothing runs and one request is counted as active. |
| Calendar.YearIsFound | crates/server/src/session_log.rs:168-172 | The dense division formula finds the year of every day of a 400-year era. |
| Calendar.CivilNext | crates/server/src/session_log.rs:166-176 | Consecutive day numbers have consecutive calendar dates, across months, leap years and centuries. |
| Calendar.CivilIsDateAfter | crates/server/src/session_log.rs:166-176 | For every day number the date is the valid Gregorian date that many days after 1 January 1970. |
| Calendar.CivilCountsBack | crates/server/src/session_log.rs:166-176 | Counting whole years, months and days of the date gives the day number back. |
| Calendar.UtcNow | crates/server/src/session_log.rs:156-176 | Date, hours, minutes and seconds are in range and recompose to the seconds. |
| Calendar.IsoTextReads | crates/server/src/session_log.rs:178-181 | The text has the twenty-character form of section 5.6 of RFC 3339, with its separators and digits in place, exactly up to the year 9999, and then reads back to the same stamp. |
| Convolution.ForwardDecode | crates/backends/backend_common/src/generic_layer.rs:187-232 | Shifting the register of every channel and convolving it gives the causal convolution over all tokens so far. |
| Convolution.ForwardPrefill | crates/backends/backend_common/src/generic_layer.rs:234-326 | The batch convolution gives the causal outputs and leaves the zero-padded last values in the register, also for batches shorter than the register. |
| Convolution.DecodeAll | crates/backends/backend_common/src/generic_layer.rs:187-232 | From the zero state, decoding the tokens one by one gives the outputs and the register of the prefill. |
| Convolution.ContinuedRegister | crates/backends/backend_common/src/generic_layer.rs:293-307 | A prefill after other tokens leaves the register of decoding exactly when the earlier values that would still be in it are zero. |
| Convolution.ContinuedOutput | crates/backends/backend_common/src/generic_layer.rs:273-291 | Row t of a prefill after other tokens is that of decoding, for every kernel, output gate and output projection, exactly when the gated values of the earlier tokens within reach of row t are zero; only the first taps - 1 rows reach any. |
| Convolution.ForgottenToken | crates/backends/backend_common/src/generic_layer.rs:234-326 | Two prefills of one token each: the second output and the register are not those of decoding both. |
| Convolution.TapsAreProducts | crates/backends/backend_common/src/generic_layer.rs:273-291 | The sum over the taps is the sum of the kernel's weights times the gated values that many tokens back, zero before the first. |
| Convolution.OutputIsGated | crates/backends/backend_common/src/generic_layer.rs:273-291 | An output row is the projection of the row whose entry h is the output gate times that sum. |
| DeltaNet.DecayAndRead | crates/backends/backend_common/src/generic_layer.rs:523-532 | The first fused pass decays the state and reads it with the key. |
| DeltaNet.WriteAndQuery | crates/backends/backend_common/src/generic_layer.rs:539-548 | The second fused pass adds the outer product and reads the new state with the query. |
| DeltaNet.Head | crates/backends/backend_common/src/generic_layer.rs:523-548 | The two fused passes are the gated delta rule: new state = decayed state + key outer beta (value - decayed state read with key), output = scale times the new state read with the query; no other head is touched. |
| DeltaNet.Move | crates/backends/backend_common/src/generic_layer.rs:484-563 | One row step of one head's worker leaves every other head where its worker stands. |
| DeltaNet.Heads | crates/backends/backend_common/src/generic_layer.rs:484-563 | For any interleaving of the workers' row steps every head ends with the gated delta rule of its own state and input. |
| DeltaLaws.EntryMoves | crates/backends/backend_common/src/generic_layer.rs:523-548 | Entry (i, c) of the new state is the decayed entry plus k_i times beta times the distance of v_c from the decayed reading. |
| DeltaLaws.NewReading | crates/backends/backend_common/src/generic_layer.rs:523-548 | Read with any vector y the new state gives the decayed reading plus the update times k . y. |
| DeltaLaws.ReadBack | crates/backends/backend_common/src/generic_layer.rs:523-548 | Read with its own key it has moved from the decayed reading towards the value by beta times the square of the key, and is the value if that is one. |
| DeltaLaws.QueryGets | crates/backends/backend_common/src/generic_layer.rs:539-548 | The output is the scaled decayed reading and its share of the update, and nothing of the update for a query at a right angle to the key. |
| Vision.IndexPlace | crates/vision/src/encoder.rs:967-988 | Every frame, block and place in a block has a number below the number of patches, from which its digits come back. |
| Vision.PlaceIndex | crates/vision/src/encoder.rs:967-988 | Every number below the number of patches is that of exactly its digits. |
| Vision.CellPlace | crates/vision/src/encoder.rs:615-625 | Places and grid cells correspond one to one. |
| Vision.BuildVisionPosIds | crates/vision/src/encoder.rs:603-629 | Entry p is the row and column of the cell of patch p, for all frames. |
| Vision.InterpolatePosEmbed | crates/vision/src/encoder.rs:913-994 | Entry p is the interpolation at the cell of patch p, for all frames. |
| Vision.MergerGroup | crates/vision/src/encoder.rs:861-892 | Merged token i groups exactly the patches of spatial block i, row by row. |
| Vision.GroupCell | crates/vision/src/encoder.rs:861-892 | On the image that block is a square of cells: place j of block b is row j / ms and column j % ms of the square, for all frames. |
| Patches.Patchify | crates/vision/src/image_process.rs:76-152 | Fails exactly on a buffer of the wrong length; otherwise patch p holds, element by element, the pixels of the cell of patch p. |
| Patches.EachPixel | crates/vision/src/image_process.rs:117-148 | A patch element holds a given pixel exactly at the patch and offset the pixel's coordinates give, in any temporal frame. |
| Patches.PixelHeldOnce | crates/vision/src/image_process.rs:117-148 | Every pixel of the grid is held by exactly one element of each temporal frame. |
| Patches.PixelReadBack | crates/vision/src/image_process.rs:76-152 | Every pixel is read back, in every temporal frame, from the patch and element whose numbers its channel, row and column give by the arithmetic of the layout. |
| Patches.PixelOrder | crates/vision/src/image_process.rs:117-148 | Pixels are numbered column by column, row by row, channel by channel. |
| Patches.PatchesDetermineImage | crates/vision/src/image_process.rs:76-152 | Two images of whole patches with the same patches are the same image. |
| Patches.SmartResize | crates/vision/src/image_process.rs:11-48 | Fails exactly on empty or too elongated images; the dimensions it returns are positive multiples of patch size times merge size: the nearest to the image's within the pixel budget, else the next below or above the image scaled by one factor for both sides, or one unit a side if no pixels are allowed. |
| ResizeBudget.ResizedIsWhole | crates/vision/src/image_process.rs:32-47 | The dimensions, computed by the code with roots and divisions of reals, are a function of whole numbers: halves rounded up, and whole roots rounded down or up. |
| ResizeBudget.BudgetKept | crates/vision/src/image_process.rs:9-10 | The pixel budget that the comment promises, exactly: a shrunk image keeps the maximum if and only if a guard on sides, unit and maximum holds, and has the minimum if and only if some grid within its shares has; a grown image always has the minimum, and keeps the maximum if and only if some grid that covers its shares does; any other image is within both. |
| ResizeBudget.ShrunkFits | crates/vision/src/image_process.rs:37-40 | The guard: with the shorter side low and the longer side high, the square of the unit is at most the maximum, and the maximum times high is below the square of one more than the units in the maximum, times the square of the unit, times low. |
| ResizeBudget.RoomyBudgetKept | crates/vision/src/image_process.rs:11-48 | A maximum of at least four times the minimum and two hundred squared units is always kept, with the minimum, for every accepted aspect ratio. |
| ResizeBudget.ApplicationIsRoomy | crates/desktop/src-tauri/src/commands/vision.rs:80-83 | The budget the application passes is such a one for units of 28 and 32 pixels. |
| ResizeBudget.ThinImage | crates/vision/src/image_process.rs:37-40 | An image of 100 by 20000 pixels with a maximum of 2048 is above it after shrinking. |
| ResizeBudget.NarrowBudget | crates/vision/src/image_process.rs:37-45 | With equal minimum and maximum growing overshoots the one and shrinking falls below the other. |
| Patches.ResizedIsAligned | crates/vision/src/image_process.rs:11-48 | Such dimensions make a grid of whole merge blocks that covers the image. |
| Patches.MergeReshape | crates/vision/src/encoder.rs:861-892 | Row i of the merger's input is the patches of group i side by side. |
| Patches.MergedEntry | crates/vision/src/encoder.rs:861-892 | Entry j of the k-th patch of group i is entry k w + j of merged row i. |

## Left out

- Floating point: sums and products are exact reals, so nothing is said about f32 rounding, NaN or the order of f32 additions; square roots are exact, and `exp`, softmax and activations are arbitrary functions with the few facts a proof needs.
- Bytes of cached rows in the sequence state: there a cache is a list of rows for each layer, and its format says which rows reach files; rounding by a format is part of the arbitrary key and value functions, the same for a row of a file and of the cache. `KvRows` and `H2oCompact` are about the bytes.
- Convolution layers inside the layer stack: they have a module of their own, for the zero state.
- The bidirectional attention of the embedding paths, the layer-hook variants, distributed decode and profiling.
- Image inputs of the language model: text positions are one number, `prefill_vl`, three-dimensional positions and DeepStack features are not part of this model; `build_text_position_ids` stands for consecutive positions.
- Dual rotary caches and sliding-window layers: an attention kernel is one arbitrary function of a query and the visible rows.
- `return_logits` set to false, progress reports and timings.
- PrefixCache.PrefixStore.Lookup: token sequences stand for their hashes, so collisions are not modelled; the header checks and reading errors are a flag that the load failed.
- CpuBackend.Prefill: whether the system prompt and the prompt can be written is one flag.
- ConcurrentPrefill.RunsAreExact: what the index holds after interleaved saves is bounded, not given by an equation, since other requests save in between; it is about attention models and BF16 storage, as a reuse is not exact otherwise.
- GenericModel.PrefillWithTokenDecomposed: it has no context check, as in the code; on a model with another layer it fails midway and the cache it then leaves is not described.
- GenericModel.PrefillWithTokenChunked: what a failed call leaves is stated for an empty cache and models without separate text positions.
- Speculative.SpecDecoder.Step: H2O eviction during a step is left out, as the kept length is computed before it; so are the index panics of a draft beyond the head's rotary table or the embedding table.
- SpeculativeLaw.FirstTokenHasTargetLaw: about one token with two independent uniform draws; that the generator's draws are uniform and independent is not part of this model. The decoder with a separate draft model has the same accept and reject rule and is not modelled.
- Speculative.Generate: stop sequences and interruption by the user are left out.
- H2o.Session.DecodeNext: scores are arbitrary, so the score probe is left out, and with it its own panic on a probed layer without rows. What a panic leaves behind is not described.
- H2o.SelectKept: scores are totally ordered reals.
- H2o.Session.Evict: rows of the row lists move; the same move on the byte buffers is `H2oCompact.Compact`.
- MoeParallel.Dispatch: a step is the write of one row; thread pool internals are left out, and each worker index runs once, which holds because there are no more workers than indices.
- Moe.PrefillV6: statistics and buffer reuse are left out; rows stand for slices of the flat buffers.
- MoeRouting.RouteToken: at most 8 experts for a token, at most 256 experts, and at most 128 with a bias, as the code's fixed buffers demand.
- Inference.RunInference: repetition detection and stop-sequence search are arbitrary predicates; a client that disconnects, backend errors and queue or progress events are left out; JSON parsing, trimming and decoding are arbitrary functions.
- StreamEvents.Collect: the result is stated for well-formed streams.
- Thinking.Run: the budget stays the same during a run; a forced token that the model itself masks is left out.
- Sampling.Sample: a temperature that is infinite or not a number is left out.
- Metrics.RunInv: the token and time totals are left out; a failing request is one that ends with an error after it was counted.
- DeltaNet.Head: the gated norm after the recurrence, the short convolution before it and the sharing of key heads by groups of value heads are left out; inputs are given for each value head.
- DeltaNet.Heads: a step is one row of one pass, or the deltas between the passes; finer interleavings touch the same disjoint elements.
- Vision.InterpolatePosEmbed: the bilinear interpolation at a cell is an arbitrary function of the cell.
- Config parsing, model loading, prompt templates, the autotuner, HTTP, the command line and the GPU backends.
