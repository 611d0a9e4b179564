/**
 The CPU backend over one model: prefill through the prefix store, truncation and draft
 verification. With attention layers and BF16 storage, prefill ends in the same cache and
 the same output whichever path it takes.
 */
module CpuBackend {
  import opened Wrappers
  import opened LoopInterchange
  import opened Transformer
  import opened TokenRuns
  import opened KvFormats
  import opened Rollback
  import opened GenericModel
  import opened PrefixCache

  /** Truncates every layer, leaving the counters to the caller. */
  method TruncateLayers(cache: KvCache, len: nat)
    modifies cache`layers
    ensures cache.layers == TruncatedLayers(old(cache.layers), len)
  {
    for l := 0 to |cache.layers|
      invariant |cache.layers| == |old(cache.layers)|
      invariant forall i :: 0 <= i < l ==> cache.layers[i] == TruncatedLayer(old(cache.layers)[i], len)
      invariant forall i :: l <= i < |cache.layers| ==> cache.layers[i] == old(cache.layers)[i]
    {
      cache.TruncateTo(l, len);
    }
  }

  /** Rolls the cache back to `target` positions; a longer target leaves it alone. */
  method TruncateKv(cache: KvCache, target: nat)
    modifies cache`layers, cache`seqLen, cache`textPos
    ensures cache.State() == Truncated(old(cache.State()), target)
  {
    if cache.seqLen > target {
      var removed := cache.seqLen - target;
      TruncateLayers(cache, target);
      cache.seqLen := target;
      cache.textPos := if removed <= cache.textPos then cache.textPos - removed else 0;
    }
  }

  /** Appends the draft tokens and returns the logits after each of them. */
  method VerifyDraft(m: Model, cache: KvCache, tokens: seq<Token>) returns (r: Result<seq<Row>, Error>)
    requires Aligned(m, cache.State())
    modifies cache`layers, cache`seqLen, cache`textPos
    ensures r.Ok? <==> CheckForward(m, tokens, old(cache.seqLen)).None?
    ensures r.Err? ==> cache.State() == old(cache.State())
    ensures r.Ok? ==> cache.State() == Run(m, old(cache.State()), tokens).0
    ensures r.Ok? ==> |r.value| == |tokens|
    ensures r.Ok? ==> forall i :: 0 <= i < |tokens| ==>
      r.value[i] == LogitsAfter(m, old(cache.State()), tokens[..i + 1])
  {
    hide ItemMajor;
    hide BatchStack;
    var textPos := cache.textPos;
    var rope := if m.mrope then cache.textPos else cache.seqLen;
    r := VerifyDraftTokens(m, tokens, cache, cache.seqLen, rope);
    if r.Ok? && m.mrope {
      cache.textPos := textPos + |tokens|;
    }
  }

  // ----- Prefill -----

  method LoadKv(m: Model, e: Entry, cache: KvCache)
    requires |e.kv| == |m.layers| && cache.State() == Empty(m)
    modifies cache
    ensures cache.State() == Loaded(m, e, cache.format)
  {
    for l := 0 to |m.layers|
      invariant |cache.layers| == |m.layers| && cache.seqLen == cache.textPos == 0
      invariant forall i :: 0 <= i < l ==> cache.layers[i] == LoadedLayer(m.layers[i], e.kv[i], cache.format)
      invariant forall i :: l <= i < |m.layers| ==> cache.layers[i] == EmptyLayer(m.layers[i])
    {
      if cache.format.BF16? {
        cache.layers := cache.layers[l := cache.layers[l].(kv := e.kv[l])];
      }
    }
    cache.seqLen := |e.tokens|;
  }

  /** The error with multi-dimensional rotary positions: tokens are looked up before the lengths are checked. */
  function CheckMrope(m: Model, tokens: seq<Token>, start: nat): (e: Option<Error>)
    ensures e.None? <==> CheckForward(m, tokens, start).None?
    ensures InVocabulary(m, tokens) ==> e == CheckForward(m, tokens, start)
    ensures !InVocabulary(m, tokens) ==> e.Some? && e.value.TokenOutOfRange?
  {
    if CheckTokens(m, tokens).Some? then CheckTokens(m, tokens)
    else if tokens == [] then Some(EmptyInput)
    else if start + |tokens| > m.maxPositions then Some(ContextExceeded)
    else None
  }

  /** The error a prefill reports, if any. */
  function CheckPrefill(m: Model, tokens: seq<Token>): (e: Option<Error>)
    ensures e.None? <==> CheckForward(m, tokens, 0).None?
  {
    if m.mrope then CheckMrope(m, tokens, 0) else CheckForward(m, tokens, 0)
  }

  /** Multi-dimensional rotary prefill of token ids at consecutive text positions from `start`. */
  method PrefillMrope(m: Model, tokens: seq<Token>, cache: KvCache, start: nat)
    returns (r: Result<PrefillOutput, Error>)
    requires m.mrope && |cache.layers| == |m.layers|
    modifies cache
    ensures r.Ok? <==> CheckForward(m, tokens, start).None?
    ensures r.Err? ==> CheckMrope(m, tokens, start) == Some(r.error)
    ensures r.Ok? ==>
      var forward := Forward(m, old(cache.State()).(textPos := start), tokens, start, start);
      && cache.State() == forward.0.(textPos := start + |tokens|)
      && r.value == OutputOf(m, forward.1[|tokens| - 1])
    ensures r.Ok? && Aligned(m, old(cache.State())) && old(cache.seqLen) == start ==>
      && cache.State() == Run(m, old(cache.State()).(textPos := start), tokens).0
      && r.value == OutputAfter(m, old(cache.State()).(textPos := start), tokens)
  {
    hide ItemMajor;
    hide BatchStack;
    var embeds := new Row[|tokens|];
    var e := LoadEmbeddings(m, tokens, embeds);
    if e.Some? {
      return Err(e.value);
    }
    ghost var c := old(cache.State());
    cache.textPos := start;
    r := PrefillWithEmbedsMrope(m, tokens, embeds, cache, start, start);
    if r.Ok? {
      if Aligned(m, c) && c.seqLen == start {
        ForwardIsRun(m, c.(textPos := start), tokens);
      }
      cache.textPos := start + |tokens|;
    }
  }

  datatype Prefilled = Prefilled(cache: KvCache, output: PrefillOutput, cachedPrefixLen: nat)

  /** The result of a prefill that ends in this cache and this last hidden row. */
  ghost predicate EndsIn(m: Model, c: CacheState, output: PrefillOutput, end: (CacheState, Row)) {
    c == end.0 && output == OutputOf(m, end.1)
  }

  /** Tokens `start..` on top of whatever the cache holds. */
  method PrefillFrom(m: Model, tokens: seq<Token>, cache: KvCache, start: nat)
    returns (r: Result<PrefillOutput, Error>)
    requires start < |tokens| && InVocabulary(m, tokens[..start])
    requires |cache.layers| == |m.layers|
    modifies cache
    ensures r.Ok? <==> CheckForward(m, tokens, 0).None?
    ensures r.Err? ==> CheckPrefill(m, tokens) == Some(r.error)
    ensures r.Ok? ==> EndsIn(m, cache.State(), r.value, Resumed(m, old(cache.State()), tokens, start))
  {
    hide Forward;
    hide CheckTokens;
    hide CheckForward;
    hide Run;
    var rest := tokens[start..];
    CheckRest(m, tokens, start);
    if m.mrope {
      r := PrefillMrope(m, rest, cache, start);
    } else {
      r := PrefillWithToken(m, rest, cache, start);
    }
  }

  /** After a clean front, the rest passes or fails the checks as the whole does. */
  lemma CheckRest(m: Model, tokens: seq<Token>, start: nat)
    requires start < |tokens| && InVocabulary(m, tokens[..start])
    ensures CheckForward(m, tokens[start..], start) == CheckForward(m, tokens, 0)
    ensures CheckMrope(m, tokens[start..], start) == CheckMrope(m, tokens, 0)
  {
    CleanFront(m, tokens[..start], tokens[start..]);
    assert tokens == tokens[..start] + tokens[start..];
  }

  /** Nothing reused: prefill everything, then save what may be reused. */
  method PrefillAll(
      m: Model, store: PrefixStore?, tokens: seq<Token>, cache: KvCache, chunkSize: nat, systemLen: Option<nat>,
      disk: Disk)
    returns (r: Result<PrefillOutput, Error>)
    requires store != null ==> store.Valid(m)
    requires cache.State() == Empty(m)
    modifies cache, if store == null then {} else {store}
    ensures store != null ==> store.Valid(m)
    ensures store != null && cache.format.BF16? && old(store.Exact(m)) ==> store.Exact(m)
    ensures r.Ok? <==> CheckForward(m, tokens, 0).None?
    ensures r.Err? ==> CheckPrefill(m, tokens) == Some(r.error)
    ensures r.Ok? ==> EndsIn(m, cache.State(), r.value, Whole(m, tokens))
    ensures store != null && (r.Err? || !disk.writable) ==> store.index == old(store.index)
    ensures store != null && r.Ok? && disk.writable ==>
      var saved := AfterSaves(old(store.index), tokens, cache.State(), systemLen, cache.format, store.kvDim);
      TotalSize(saved, store.kvDim) <= store.maxSize ==> store.index == saved
  {
    hide ItemMajor;
    hide BatchStack;
    hide Forward;
    hide EntryOf;
    hide TotalSize;
    hide Saved;
    if m.mrope {
      r := PrefillMrope(m, tokens, cache, 0);
    } else if chunkSize > 0 {
      r := PrefillWithTokenChunked(m, tokens, cache, chunkSize);
    } else {
      r := PrefillWithToken(m, tokens, cache, 0);
    }
    if r.Ok? && store != null {
      var c := CacheState(cache.layers, cache.seqLen, cache.textPos);
      var files := disk.files;
      SavesFit(store.index, tokens, c, systemLen, cache.format, store.kvDim);
      if systemLen.Some? && 0 < systemLen.value < |tokens| {
        files := store.SaveSystem(m, tokens, systemLen.value, c, cache.format, disk);
      }
      files := store.Save(m, tokens, c, cache.format, disk.(files := files));
    }
  }

  /** If the index fits after both saves it fits after the first. */
  lemma SavesFit(
      index: seq<Entry>, tokens: seq<Token>, c: CacheState, systemLen: Option<nat>, format: KvFormat, kvDim: nat)
    ensures systemLen.Some? && 0 < systemLen.value < |tokens| ==>
      TotalSize(Saved(index, EntryOf(tokens, c, systemLen.value, format, kvDim)), kvDim)
      <= TotalSize(AfterSaves(index, tokens, c, systemLen, format, kvDim), kvDim)
  {
    hide TotalSize;
    hide EntryOf;
    hide Inserted;
    if systemLen.Some? && 0 < systemLen.value < |tokens| {
      var first := Saved(index, EntryOf(tokens, c, systemLen.value, format, kvDim));
      InsertedSize(first, EntryOf(tokens, c, Rounded(|tokens|), format, kvDim), kvDim);
    }
  }

  /**
   Prefill on a fresh cache, through the prefix store if there is one. A hit resumes from
   its entry, whatever the entry holds; otherwise every token is run and the prompt saved.
   With attention layers, BF16 storage and exact entries, the outcome is the run of exactly
   the input tokens whatever the store holds and whatever happens to its files, and the
   entries stay exact.
   */
  method Prefill(
      m: Model, store: PrefixStore?, format: KvFormat, tokens: seq<Token>, chunkSize: nat, systemLen: Option<nat>,
      disk: Disk)
    returns (r: Result<Prefilled, Error>)
    requires store != null ==> store.Valid(m)
    modifies if store == null then {} else {store}
    ensures store != null ==> store.Valid(m)
    ensures store != null && format.BF16? && old(store.Exact(m)) ==> store.Exact(m)
    ensures r.Ok? <==> CheckForward(m, tokens, 0).None?
    ensures r.Err? ==> CheckPrefill(m, tokens) == Some(r.error)
    ensures r.Ok? ==> fresh(r.value.cache)
    ensures r.Ok? ==>
      var hit := if store == null || !disk.readable then None else Hit(old(store.index), tokens, disk.files);
      if hit.Some? then
        && r.value.cachedPrefixLen == |hit.value.tokens|
        && EndsIn(m, r.value.cache.State(), r.value.output, AfterHit(m, format, hit.value, tokens))
      else
        && r.value.cachedPrefixLen == 0
        && EndsIn(m, r.value.cache.State(), r.value.output, Whole(m, tokens))
    ensures r.Ok? && AllAttention(m.layers) && format.BF16? && (store != null ==> old(store.Exact(m))) ==>
      EndsIn(m, r.value.cache.State(), r.value.output, Whole(m, tokens))
    ensures store != null && r.Ok? ==>
      var c := r.value.cache.State();
      var saved := AfterSaves(old(store.index), tokens, c, systemLen, format, store.kvDim);
      if r.value.cachedPrefixLen > 0 || !disk.writable then store.index == old(store.index)
      else TotalSize(saved, store.kvDim) <= store.maxSize ==> store.index == saved
  {
    hide ItemMajor;
    hide BatchStack;
    hide Forward;
    hide Whole;
    hide Resumed;
    hide AfterSaves;
    hide EndsIn;
    hide Hit;
    hide TotalSize;
    hide PrefixesAccessed;
    hide LongestFirst;
    hide DistinctTokens;
    hide CheckForward;
    var cache := new KvCache(m, format);
    var hitLen := 0;
    ghost var e := Entry([], []);
    if store != null {
      var hit := store.Lookup(m, tokens, disk.files);
      if hit.Some? && disk.readable {
        LoadKv(m, hit.value, cache);
        hitLen := |hit.value.tokens|;
        e := hit.value;
      }
    }
    var out;
    if 0 < hitLen < |tokens| {
      out := PrefillFrom(m, tokens, cache, hitLen);
    } else if hitLen > 0 {
      // The whole input is stored: run its last token again for the logits.
      var trimTo := hitLen - 1;
      TruncateLayers(cache, trimTo);
      cache.seqLen := trimTo;
      out := PrefillFrom(m, tokens, cache, trimTo);
    } else {
      out := PrefillAll(m, store, tokens, cache, chunkSize, systemLen, disk);
    }
    if hitLen > 0 && AllAttention(m.layers) && format.BF16? && old(store.Exact(m)) {
      HitIsWhole(m, e, tokens);
    }
    r := if out.Ok? then Ok(Prefilled(cache, out.value, hitLen)) else Err(out.error);
  }

  /**
   Two prefills through one store, for any layer pattern and storage other than attention
   and BF16 throughout: the second call hits what the first one saved and succeeds, and its
   cache is not the run of its tokens.
   */
  method MisleadingHit(pattern: seq<bool>, saved: KvFormat, reading: KvFormat, kvDim: nat)
    returns (m: Model, tokens: seq<Token>, r: Result<Prefilled, Error>)
    requires pattern != [] && kvDim > 0
    requires !((forall l :: 0 <= l < |pattern| ==> pattern[l]) && saved.BF16? && reading.BF16?)
    ensures Pattern(m) == pattern && CheckForward(m, tokens, 0).None?
    ensures r.Ok? && r.value.cachedPrefixLen == 16
    ensures r.value.cache.layers != Run(m, Empty(m), tokens).0.layers
  {
    hide Run;
    hide AfterHit;
    hide EntryOf;
    m, tokens := CountingModel(pattern, kvDim), Repeated(17);
    var prompt := Repeated(16);
    ghost var e := EntryOf(prompt, Run(m, Empty(m), prompt).0, 16, saved, kvDim);
    ReuseFails(pattern, saved, reading, kvDim);
    OnlyEntry(prompt, Run(m, Empty(m), prompt).0, saved, kvDim);
    var store := new PrefixStore(m, [], kvDim, HEADER_SIZE + 2 * |pattern| * (2 * (16 * kvDim)));
    var first := Prefill(m, store, saved, prompt, 0, None, Disk({}, true, true, {}));
    assert store.index == [e];
    r := Prefill(m, store, reading, tokens, 0, None, Disk({prompt}, true, true, {}));
  }

  /** What the first of two prefills leaves in an empty store. */
  lemma OnlyEntry(prompt: seq<Token>, c: CacheState, format: KvFormat, kvDim: nat)
    requires |prompt| == 16
    ensures
      var e := EntryOf(prompt, c, 16, format, kvDim);
      && AfterSaves([], prompt, c, None, format, kvDim) == [e]
      && e.tokens == prompt
      && TotalSize([e], kvDim) == HEADER_SIZE + 2 * |c.layers| * (2 * (16 * kvDim))
  {
    var e := EntryOf(prompt, c, 16, format, kvDim);
    assert [e][1..] == [];
  }
}
