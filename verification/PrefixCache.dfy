/**
 The store of key/value prefixes that `prefill` consults. An entry keeps a row per token for
 every layer; recurrent states are not stored. Token sequences stand for their hashes.
 */
module PrefixCache {
  import opened Wrappers
  import opened LoopInterchange
  import opened KvFormats
  import opened Transformer
  import opened TokenRuns
  import opened Rollback
  import opened Eviction
  import Sorting

  datatype Entry = Entry(tokens: seq<Token>, kv: seq<seq<KvRow>>)

  /** The rows an entry claims for its tokens are the rows decoding them produces. */
  ghost predicate Faithful(m: Model, e: Entry) {
    && CheckForward(m, e.tokens, 0).None?
    && |e.kv| == |m.layers|
    && forall l :: 0 <= l < |m.layers| && m.layers[l].block.Attention? ==>
      e.kv[l] == Run(m, Empty(m), e.tokens).0.layers[l].kv
  }

  // ----- Saving and reading -----

  /** The flat copy of a layer's rows that is written to files: kept up in the BF16 format only. */
  function Flat(st: LayerState, format: KvFormat): seq<KvRow> {
    if format.BF16? then st.kv else []
  }

  function Zeros(n: nat, kvDim: nat): seq<KvRow> {
    var zero := Row(seq(kvDim, i => 0.0));
    seq(n, i => KvRow(zero, zero))
  }

  /** The entry saved for the first `len` tokens of a run that reached `c`: zeros where the flat copy is short. */
  function EntryOf(tokens: seq<Token>, c: CacheState, len: nat, format: KvFormat, kvDim: nat): Entry
    requires len <= |tokens|
  {
    Entry(
      tokens[..len],
      seq(|c.layers|, l requires 0 <= l < |c.layers| =>
        var flat := Flat(c.layers[l], format);
        if len <= |flat| then flat[..len] else Zeros(len, kvDim)))
  }

  /** A layer after its part of an entry has been read: only BF16 storage is rebuilt from a file. */
  function LoadedLayer(ly: Layer, rows: seq<KvRow>, format: KvFormat): LayerState {
    EmptyLayer(ly).(kv := if format.BF16? then rows else [])
  }

  /** A fresh cache after an entry has been read into it; it counts the entry's tokens in any format. */
  function Loaded(m: Model, e: Entry, format: KvFormat): CacheState
    requires |e.kv| == |m.layers|
  {
    CacheState(
      seq(|m.layers|, l requires 0 <= l < |m.layers| => LoadedLayer(m.layers[l], e.kv[l], format)), |e.tokens|, 0)
  }

  /** Reading a faithful entry into a BF16 cache is running its tokens, for attention models. */
  lemma LoadedIsRun(m: Model, e: Entry)
    requires AllAttention(m.layers) && Faithful(m, e)
    ensures Loaded(m, e, BF16).(textPos := if m.mrope then |e.tokens| else 0) == Run(m, Empty(m), e.tokens).0
  {
    hide ItemMajor;
    var run := Run(m, Empty(m), e.tokens).0;
    ItemMajorExtends(m.layers, Empty(m).layers, Embeds(m, e.tokens), RopeOf(m, Empty(m)));
    assert Loaded(m, e, BF16).layers == run.layers;
  }

  /** Attention rows are never rewritten: the first rows of a longer run are those of the shorter. */
  lemma {:induction false} StackKeepsRows(layers: seq<Layer>, sts: seq<LayerState>, x: Row, rope: nat, l: nat)
    requires |layers| == |sts| && l < |layers| && layers[l].block.Attention?
    ensures sts[l].kv <= StepStack(StepLayer, layers, sts, x, rope).0[l].kv
  {
    var n := |layers| - 1;
    if l < n {
      StackKeepsRows(layers[..n], sts[..n], x, rope, l);
    }
  }

  lemma PrefixOfPrefix(a: seq<KvRow>, b: seq<KvRow>, c: seq<KvRow>)
    requires a <= b <= c
    ensures a <= c
  {
  }

  lemma {:induction false} RunKeepsRows(layers: seq<Layer>, sts: seq<LayerState>, xs: seq<Row>, rope: nat, l: nat)
    requires |layers| == |sts| && l < |layers| && layers[l].block.Attention?
    ensures sts[l].kv <= ItemMajor(StepLayer, layers, sts, xs, rope).0[l].kv
  {
    hide StepStack;
    if xs != [] {
      var n := |xs| - 1;
      RunKeepsRows(layers, sts, xs[..n], rope, l);
      var mid := ItemMajor(StepLayer, layers, sts, xs[..n], rope).0;
      StackKeepsRows(layers, mid, xs[n], rope + n, l);
      PrefixOfPrefix(sts[l].kv, mid[l].kv, ItemMajor(StepLayer, layers, sts, xs, rope).0[l].kv);
    }
  }

  /** Saving any non-empty prefix of a completed run from a BF16 cache yields a faithful entry. */
  lemma SavedIsFaithful(m: Model, tokens: seq<Token>, len: nat, kvDim: nat)
    requires 0 < len <= |tokens| && CheckForward(m, tokens, 0).None?
    ensures Faithful(m, EntryOf(tokens, Run(m, Empty(m), tokens).0, len, BF16, kvDim))
  {
    hide ItemMajor;
    var a, b := tokens[..len], tokens[len..];
    assert tokens == a + b;
    var mid, run := Run(m, Empty(m), a).0, Run(m, Empty(m), tokens).0;
    RunAppend(m, Empty(m), a, b);
    RunKeepsAligned(m, Empty(m), a);
    forall l | 0 <= l < |m.layers| && m.layers[l].block.Attention?
      ensures EntryOf(tokens, run, len, BF16, kvDim).kv[l] == mid.layers[l].kv
    {
      RunKeepsRows(m.layers, mid.layers, Embeds(m, b), RopeOf(m, mid), l);
    }
  }

  // ----- Prefill after a hit -----

  /** The cache and the last hidden row of running `tokens` from nothing. */
  function Whole(m: Model, tokens: seq<Token>): (CacheState, Row)
    requires tokens != []
  {
    var run := Run(m, Empty(m), tokens);
    (run.0, run.1[|tokens| - 1])
  }

  /** `c` and the last hidden row after a forward of `tokens[start..]`, text positions counted from `start`. */
  function Resumed(m: Model, c: CacheState, tokens: seq<Token>, start: nat): (CacheState, Row)
    requires |c.layers| == |m.layers| && start < |tokens|
  {
    var forward := Forward(m, if m.mrope then c.(textPos := start) else c, tokens[start..], start, start);
    (if m.mrope then forward.0.(textPos := |tokens|) else forward.0, forward.1[|tokens| - start - 1])
  }

  /** Resuming from a cache of the first `start` tokens is running them all. */
  lemma ResumedIsWhole(m: Model, c: CacheState, tokens: seq<Token>, start: nat)
    requires |c.layers| == |m.layers| && start < |tokens|
    requires (if m.mrope then c.(textPos := start) else c) == Run(m, Empty(m), tokens[..start]).0
    ensures Resumed(m, c, tokens, start) == Whole(m, tokens)
  {
    hide Run;
    hide Forward;
    var front, rest := tokens[..start], tokens[start..];
    var mid := Run(m, Empty(m), front).0;
    RunKeepsAligned(m, Empty(m), front);
    ForwardIsRun(m, mid, rest);
    RunAppend(m, Empty(m), front, rest);
    assert tokens == front + rest;
  }

  /** How many positions a hit leaves in the cache: an exact hit gives up its last one, to run it for the logits. */
  function KeptLen(e: Entry, tokens: seq<Token>): nat
    requires e.tokens != []
  {
    if |e.tokens| < |tokens| then |e.tokens| else |e.tokens| - 1
  }

  function KeptCache(m: Model, format: KvFormat, e: Entry, tokens: seq<Token>): CacheState
    requires |e.kv| == |m.layers| && e.tokens != []
  {
    var loaded, n := Loaded(m, e, format), KeptLen(e, tokens);
    if n < |e.tokens| then CacheState(TruncatedLayers(loaded.layers, n), n, 0) else loaded
  }

  /** The cache and the last hidden row of a prefill of `tokens` that hits entry `e`. */
  function AfterHit(m: Model, format: KvFormat, e: Entry, tokens: seq<Token>): (CacheState, Row)
    requires |e.kv| == |m.layers| && e.tokens != [] && e.tokens <= tokens
  {
    Resumed(m, KeptCache(m, format, e, tokens), tokens, KeptLen(e, tokens))
  }

  lemma TrimmedIsRun(m: Model, tokens: seq<Token>, n: nat)
    requires n + 1 == |tokens|
    ensures AllAttention(m.layers) ==>
      TruncatedLayers(Run(m, Empty(m), tokens).0.layers, n) == Run(m, Empty(m), tokens[..n]).0.layers
  {
    hide ItemMajor;
    if AllAttention(m.layers) {
      assert tokens == tokens[..n] + tokens[n..];
      TruncateUndoesRun(m, Empty(m), tokens[..n], tokens[n..]);
    }
  }

  /** A hit of a faithful entry by a BF16 cache of an attention model is the run of all tokens. */
  lemma HitIsWhole(m: Model, e: Entry, tokens: seq<Token>)
    requires AllAttention(m.layers) && Faithful(m, e) && e.tokens <= tokens
    ensures AfterHit(m, BF16, e, tokens) == Whole(m, tokens)
  {
    hide Run;
    hide Resumed;
    var n := KeptLen(e, tokens);
    LoadedIsRun(m, e);
    if n == |e.tokens| {
      assert tokens[..n] == e.tokens;
    } else {
      assert e.tokens == tokens;
      TrimmedIsRun(m, tokens, n);
    }
    ResumedIsWhole(m, KeptCache(m, BF16, e, tokens), tokens, n);
  }

  // ----- When reuse is exact -----

  /** A prompt that is run, whose first `len` tokens are saved and then hit by a later prompt. */
  ghost predicate Reused(m: Model, prompt: seq<Token>, len: nat, later: seq<Token>) {
    && CheckForward(m, prompt, 0).None? && CheckForward(m, later, 0).None?
    && 0 < len <= |prompt| && prompt[..len] <= later && |later| >= MIN_PREFIX_LEN
  }

  /**
   Running the rest after a hit is running everything, for every model of a layer pattern
   and every reuse, exactly when all layers are attention and the cache that was saved and
   the cache that reads the entry both use BF16 storage.
   */
  lemma {:induction false} ReuseNeedsBf16Attention(pattern: seq<bool>, saved: KvFormat, reading: KvFormat, kvDim: nat)
    requires pattern != [] && kvDim > 0
    ensures
      ((forall l :: 0 <= l < |pattern| ==> pattern[l]) && saved.BF16? && reading.BF16?) <==>
      forall m: Model, prompt: seq<Token>, len: nat, later: seq<Token> ::
        Pattern(m) == pattern && Reused(m, prompt, len, later) ==>
          AfterHit(m, reading, EntryOf(prompt, Run(m, Empty(m), prompt).0, len, saved, kvDim), later)
          == Whole(m, later)
  {
    hide Run;
    hide AfterHit;
    hide CheckForward;
    if (forall l :: 0 <= l < |pattern| ==> pattern[l]) && saved.BF16? && reading.BF16? {
      forall m: Model, prompt: seq<Token>, len: nat, later: seq<Token>
        | Pattern(m) == pattern && Reused(m, prompt, len, later)
        ensures
          AfterHit(m, reading, EntryOf(prompt, Run(m, Empty(m), prompt).0, len, saved, kvDim), later)
          == Whole(m, later)
      {
        assert AllAttention(m.layers) by {
          forall l | 0 <= l < |m.layers| ensures m.layers[l].block.Attention? {
            assert Pattern(m)[l];
          }
        }
        SavedIsFaithful(m, prompt, len, kvDim);
        HitIsWhole(m, EntryOf(prompt, Run(m, Empty(m), prompt).0, len, saved, kvDim), later);
      }
    } else {
      ReuseFails(pattern, saved, reading, kvDim);
    }
  }

  /** `n` times token 0. */
  function Repeated(n: nat): (tokens: seq<Token>)
    ensures |tokens| == n && forall i :: 0 <= i < n ==> tokens[i] == 0
  {
    seq(n, i => 0)
  }

  /** Sixteen tokens saved, seventeen asked for. */
  lemma {:induction false} ReuseFails(pattern: seq<bool>, saved: KvFormat, reading: KvFormat, kvDim: nat)
    requires pattern != [] && kvDim > 0
    requires !((forall l :: 0 <= l < |pattern| ==> pattern[l]) && saved.BF16? && reading.BF16?)
    ensures
      var m, prompt, later := CountingModel(pattern, kvDim), Repeated(16), Repeated(17);
      && Reused(m, prompt, 16, later)
      && AfterHit(m, reading, EntryOf(prompt, Run(m, Empty(m), prompt).0, 16, saved, kvDim), later).0.layers
        != Run(m, Empty(m), later).0.layers
  {
    hide Run;
    hide Forward;
    var m, prompt, later := CountingModel(pattern, kvDim), Repeated(16), Repeated(17);
    assert prompt[..16] == prompt == later[..16];
    var l: nat := if exists l :: 0 <= l < |pattern| && !pattern[l] then
      var l :| 0 <= l < |pattern| && !pattern[l]; l else 0;
    var e := EntryOf(prompt, Run(m, Empty(m), prompt).0, 16, saved, kvDim);
    var kept := KeptCache(m, reading, e, later);
    RunCounts(pattern, kvDim, prompt, l);
    RunCounts(pattern, kvDim, later, l);
    ForwardCounts(pattern, kvDim, kept, later[16..], 16, 16, l);
    var hit, run := AfterHit(m, reading, e, later).0.layers[l], Run(m, Empty(m), later).0.layers[l];
    assert hit == Forward(m, kept, later[16..], 16, 16).0.layers[l];
    if pattern[l] && reading.BF16? {
      assert kept.layers[l].kv == Zeros(16, kvDim);
      assert hit.kv[0].k.vals[0] == 0.0 && run.kv[0].k == Ones(kvDim) && run.kv[0].k.vals[0] == 1.0;
    }
  }

  // ----- The store -----

  const MIN_PREFIX_LEN := 16
  const CHECKPOINT_INTERVAL := 16
  const HEADER_SIZE := 80

  /** The part of a prompt that is saved. */
  function Rounded(len: nat): (r: nat)
    ensures r <= len < r + CHECKPOINT_INTERVAL && r % CHECKPOINT_INTERVAL == 0
  {
    len / CHECKPOINT_INTERVAL * CHECKPOINT_INTERVAL
  }

  /** Bytes of an entry's file: a header, then two bytes a value. */
  function FileSize(e: Entry, kvDim: nat): nat {
    HEADER_SIZE + 2 * |e.kv| * (2 * (|e.tokens| * kvDim))
  }

  function TotalSize(index: seq<Entry>, kvDim: nat): nat {
    if index == [] then 0 else FileSize(index[0], kvDim) + TotalSize(index[1..], kvDim)
  }

  ghost predicate Usable(e: Entry, tokens: seq<Token>, files: set<seq<Token>>) {
    e.tokens <= tokens && e.tokens in files
  }

  /** The first entry whose tokens begin `tokens` and whose file is there. */
  ghost function FirstUsable(index: seq<Entry>, tokens: seq<Token>, files: set<seq<Token>>): (hit: Option<Entry>)
    ensures hit.Some? ==> hit.value in index && Usable(hit.value, tokens, files)
  {
    if index == [] then None
    else if Usable(index[0], tokens, files) then Some(index[0])
    else FirstUsable(index[1..], tokens, files)
  }

  /** The entry a prompt hits, if any. */
  ghost function Hit(index: seq<Entry>, tokens: seq<Token>, files: set<seq<Token>>): (hit: Option<Entry>)
    ensures hit.Some? ==> hit.value in index && Usable(hit.value, tokens, files)
  {
    if |tokens| < MIN_PREFIX_LEN then None else FirstUsable(index, tokens, files)
  }

  lemma {:induction false} FirstUsableAt(index: seq<Entry>, tokens: seq<Token>, files: set<seq<Token>>, i: nat)
    requires i <= |index| && forall j :: 0 <= j < i ==> !Usable(index[j], tokens, files)
    ensures FirstUsable(index, tokens, files) == FirstUsable(index[i..], tokens, files)
  {
    if i > 0 {
      FirstUsableAt(index[1..], tokens, files, i - 1);
      assert index[1..][i - 1..] == index[i..];
    } else {
      assert index[0..] == index;
    }
  }

  /** `e` after the entries that are no shorter. */
  ghost function Inserted(index: seq<Entry>, e: Entry): seq<Entry> {
    if index == [] || |index[0].tokens| < |e.tokens| then [e] + index else [index[0]] + Inserted(index[1..], e)
  }

  lemma {:induction false} InsertedAt(index: seq<Entry>, e: Entry, k: nat)
    requires k <= |index| && forall j :: 0 <= j < k ==> |index[j].tokens| >= |e.tokens|
    requires k < |index| ==> |index[k].tokens| < |e.tokens|
    ensures Inserted(index, e) == index[..k] + [e] + index[k..]
  {
    if k > 0 {
      InsertedAt(index[1..], e, k - 1);
      assert index[..k] == [index[0]] + index[1..][..k - 1] && index[1..][k - 1..] == index[k..];
    }
  }

  /** The index after `e` is saved, before any eviction: an entry for the same tokens stays. */
  ghost function Saved(index: seq<Entry>, e: Entry): seq<Entry> {
    if exists x :: x in index && x.tokens == e.tokens then index else Inserted(index, e)
  }

  lemma {:induction false} InsertedSize(index: seq<Entry>, e: Entry, kvDim: nat)
    ensures TotalSize(Inserted(index, e), kvDim) == TotalSize(index, kvDim) + FileSize(e, kvDim)
  {
    hide FileSize;
    if index == [] || |index[0].tokens| < |e.tokens| {
      assert ([e] + index)[1..] == index;
    } else {
      InsertedSize(index[1..], e, kvDim);
      assert ([index[0]] + Inserted(index[1..], e))[1..] == Inserted(index[1..], e);
    }
  }

  /** The index after a prefill that hit nothing has saved its system prompt and its rounded prompt. */
  ghost function AfterSaves(
      index: seq<Entry>, tokens: seq<Token>, c: CacheState, systemLen: Option<nat>, format: KvFormat, kvDim: nat)
    : seq<Entry>
  {
    var first :=
      if systemLen.Some? && 0 < systemLen.value < |tokens|
      then Saved(index, EntryOf(tokens, c, systemLen.value, format, kvDim)) else index;
    if Rounded(|tokens|) < MIN_PREFIX_LEN then first
    else Saved(first, EntryOf(tokens, c, Rounded(|tokens|), format, kvDim))
  }

  /** An entry of the right shape for a model, whatever its rows. */
  ghost predicate Shaped(m: Model, e: Entry) {
    && CheckForward(m, e.tokens, 0).None?
    && |e.kv| == |m.layers|
    && forall l :: 0 <= l < |e.kv| ==> |e.kv[l]| == |e.tokens|
  }

  lemma SavedIsShaped(m: Model, tokens: seq<Token>, len: nat, format: KvFormat, kvDim: nat)
    requires 0 < len <= |tokens| && CheckForward(m, tokens, 0).None?
    ensures Shaped(m, EntryOf(tokens, Run(m, Empty(m), tokens).0, len, format, kvDim))
  {
    hide Run;
    assert forall i :: 0 <= i < len ==> tokens[..len][i] == tokens[i];
  }

  /** Entries, longest first. */
  /** The entries whose files are there. */
  function Retained(index: seq<Entry>, files: set<seq<Token>>): (r: seq<Entry>)
    ensures forall e :: e in r <==> e in index && e.tokens in files
  {
    if index == [] then []
    else
      var rest := Retained(index[1..], files);
      if index[0].tokens in files then [index[0]] + rest else rest
  }

  ghost predicate LongestFirst(index: seq<Entry>) {
    forall i, j :: 0 <= i < j < |index| ==> |index[i].tokens| >= |index[j].tokens|
  }

  /** No two entries are for the same tokens: a file is named after them. */
  ghost predicate DistinctTokens(index: seq<Entry>) {
    forall i, j :: 0 <= i < j < |index| ==> index[i].tokens != index[j].tokens
  }

  lemma {:induction false} RetainedInOrder(index: seq<Entry>, files: set<seq<Token>>)
    requires LongestFirst(index) && DistinctTokens(index)
    ensures LongestFirst(Retained(index, files)) && DistinctTokens(Retained(index, files))
  {
    if index != [] {
      var rest := Retained(index[1..], files);
      RetainedInOrder(index[1..], files);
      forall x | x in rest ensures |index[0].tokens| >= |x.tokens| && index[0].tokens != x.tokens {
        AfterFirst(index, x);
      }
      PutFirst(index[0], rest);
    }
  }

  lemma AfterFirst(index: seq<Entry>, x: Entry)
    requires LongestFirst(index) && DistinctTokens(index) && index != [] && x in index[1..]
    ensures |index[0].tokens| >= |x.tokens| && index[0].tokens != x.tokens
  {
    var k :| 0 <= k < |index[1..]| && index[1..][k] == x;
    assert index[k + 1] == x;
  }

  lemma PutFirst(e: Entry, rest: seq<Entry>)
    requires LongestFirst(rest) && DistinctTokens(rest)
    requires forall x :: x in rest ==> |e.tokens| >= |x.tokens| && e.tokens != x.tokens
    ensures LongestFirst([e] + rest) && DistinctTokens([e] + rest)
  {
  }

  /** When the file of an entry was last accessed; never since the store was opened if it is not listed. */
  function AgeOf(accessed: map<seq<Token>, nat>, tokens: seq<Token>): nat {
    if tokens in accessed then accessed[tokens] else 0
  }

  function FilesOf(index: seq<Entry>, accessed: map<seq<Token>, nat>, kvDim: nat): (r: seq<File>)
    ensures |r| == |index|
    ensures forall i :: 0 <= i < |r| ==>
      r[i] == File(index[i].tokens, FileSize(index[i], kvDim), AgeOf(accessed, index[i].tokens))
  {
    seq(|index|, i requires 0 <= i < |index| =>
      File(index[i].tokens, FileSize(index[i], kvDim), AgeOf(accessed, index[i].tokens)))
  }

  lemma {:induction false} SizeOfFiles(index: seq<Entry>, accessed: map<seq<Token>, nat>, kvDim: nat)
    ensures Remaining(FilesOf(index, accessed, kvDim), {}) == TotalSize(index, kvDim)
  {
    hide FileSize;
    if index != [] {
      var n := |index| - 1;
      SizeOfFiles(index[..n], accessed, kvDim);
      assert FilesOf(index, accessed, kvDim)[..n] == FilesOf(index[..n], accessed, kvDim);
      SizeSnoc(index[..n], index[n], kvDim);
      assert index == index[..n] + [index[n]];
    }
  }

  lemma {:induction false} SizeSnoc(index: seq<Entry>, e: Entry, kvDim: nat)
    ensures TotalSize(index + [e], kvDim) == TotalSize(index, kvDim) + FileSize(e, kvDim)
  {
    hide FileSize;
    if index == [] {
      assert ([] + [e])[1..] == [];
    } else {
      SizeSnoc(index[1..], e, kvDim);
      assert (index + [e])[1..] == index[1..] + [e];
    }
  }

  /** What files there are, whether they can be read and written, and which of them cannot be removed. */
  datatype Disk = Disk(files: set<seq<Token>>, readable: bool, writable: bool, stuck: set<seq<Token>>)

  /**
   What is left of an index whose files are `files`: the oldest are gone as far as the size limit asks for,
   and once something is gone entries whose file is missing go too.
   */
  ghost predicate LeftOf(
      index: seq<Entry>, accessed: map<seq<Token>, nat>, kvDim: nat, limit: nat, files: set<seq<Token>>,
      stuck: set<seq<Token>>, left: seq<Entry>, filesLeft: set<seq<Token>>)
  {
    exists gone: set<seq<Token>> ::
      && EvictsOldest(FilesOf(index, accessed, kvDim), limit, files - stuck, gone)
      && filesLeft == files - gone
      && left == if gone == {} then index else Retained(index, filesLeft)
  }

  lemma {:induction false} HitIsLongest(index: seq<Entry>, tokens: seq<Token>, files: set<seq<Token>>)
    requires LongestFirst(index)
    ensures forall e :: e in index && e.tokens <= tokens && e.tokens in files ==>
      FirstUsable(index, tokens, files).Some? && |e.tokens| <= |FirstUsable(index, tokens, files).value.tokens|
  {
    if index != [] {
      HitIsLongest(index[1..], tokens, files);
      forall e | e in index ensures |e.tokens| <= |index[0].tokens| && (e == index[0] || e in index[1..]) {
        var i :| 0 <= i < |index| && index[i] == e;
        assert i > 0 ==> index[1..][i - 1] == e;
      }
    }
  }

  lemma HitIs(index: seq<Entry>, tokens: seq<Token>, files: set<seq<Token>>)
    requires LongestFirst(index)
    ensures Hit(index, tokens, files) == if |tokens| < MIN_PREFIX_LEN then None else FirstUsable(index, tokens, files)
    ensures Hit(index, tokens, files).Some? ==>
      Hit(index, tokens, files).value.tokens <= tokens && Hit(index, tokens, files).value.tokens in files
    ensures forall e :: e in index && e.tokens <= tokens && e.tokens in files ==>
      FirstUsable(index, tokens, files).Some? && |e.tokens| <= |FirstUsable(index, tokens, files).value.tokens|
  {
    HitIsLongest(index, tokens, files);
  }

  lemma UsableIs(e: Entry, tokens: seq<Token>, files: set<seq<Token>>)
    ensures
      Usable(e, tokens, files) <==>
      |e.tokens| <= |tokens| && tokens[..|e.tokens|] == e.tokens && e.tokens in files
    ensures e.tokens <= tokens <==> |e.tokens| <= |tokens| && tokens[..|e.tokens|] == e.tokens
  {
  }

  lemma FirstUsableHere(index: seq<Entry>, tokens: seq<Token>, files: set<seq<Token>>, i: nat)
    requires i < |index| && (forall j :: 0 <= j < i ==> !Usable(index[j], tokens, files))
    requires Usable(index[i], tokens, files)
    ensures FirstUsable(index, tokens, files) == Some(index[i])
  {
    FirstUsableAt(index, tokens, files, i);
  }

  lemma NoneUsable(index: seq<Entry>, tokens: seq<Token>, files: set<seq<Token>>)
    requires forall j :: 0 <= j < |index| ==> !Usable(index[j], tokens, files)
    ensures FirstUsable(index, tokens, files) == None
  {
    FirstUsableAt(index, tokens, files, |index|);
  }

  /** A look-up accesses the stored prefixes of `tokens`, the longest first, down to the one it hits; no others. */
  ghost predicate PrefixesAccessed(
      index: seq<Entry>, tokens: seq<Token>, before: map<seq<Token>, nat>, now: map<seq<Token>, nat>, clock: nat,
      hit: Option<Entry>)
  {
    forall e :: e in index ==>
      AgeOf(now, e.tokens) ==
        if e.tokens <= tokens && (hit.Some? ==> |e.tokens| >= |hit.value.tokens|) then clock
        else AgeOf(before, e.tokens)
  }

  /** Of the first `n` entries, those that begin `tokens` have been accessed now. */
  ghost predicate Touched(
      index: seq<Entry>, tokens: seq<Token>, before: map<seq<Token>, nat>, now: map<seq<Token>, nat>, clock: nat,
      n: nat)
  {
    forall j :: 0 <= j < |index| ==>
      AgeOf(now, index[j].tokens) == if j < n && index[j].tokens <= tokens then clock
        else AgeOf(before, index[j].tokens)
  }

  lemma TouchNext(
      index: seq<Entry>, tokens: seq<Token>, before: map<seq<Token>, nat>, now: map<seq<Token>, nat>, clock: nat,
      n: nat)
    requires DistinctTokens(index) && n < |index| && Touched(index, tokens, before, now, clock, n)
    ensures
      var e := index[n];
      Touched(index, tokens, before, if e.tokens <= tokens then now[e.tokens := clock] else now, clock, n + 1)
  {
  }

  lemma TouchedUpTo(
      index: seq<Entry>, tokens: seq<Token>, before: map<seq<Token>, nat>, now: map<seq<Token>, nat>, clock: nat,
      n: nat)
    requires LongestFirst(index) && DistinctTokens(index) && 0 < n <= |index|
    requires Touched(index, tokens, before, now, clock, n) && index[n - 1].tokens <= tokens
    ensures PrefixesAccessed(index, tokens, before, now, clock, Some(index[n - 1]))
  {
    hide AgeOf;
    forall j | 0 <= j < |index| && index[j].tokens <= tokens
      ensures |index[j].tokens| >= |index[n - 1].tokens| <==> j < n
    {
      SamePrefix(index[j].tokens, index[n - 1].tokens, tokens);
    }
  }

  lemma SamePrefix(a: seq<Token>, b: seq<Token>, tokens: seq<Token>)
    requires a <= tokens && b <= tokens
    ensures |a| == |b| ==> a == b
  {
    assert a == tokens[..|a|] && b == tokens[..|b|];
  }

  lemma NothingTouched(index: seq<Entry>, tokens: seq<Token>, before: map<seq<Token>, nat>, clock: nat)
    ensures Touched(index, tokens, before, before, clock, 0)
  {
  }

  lemma AllTouched(
      index: seq<Entry>, tokens: seq<Token>, before: map<seq<Token>, nat>, now: map<seq<Token>, nat>, clock: nat)
    requires Touched(index, tokens, before, now, clock, |index|)
    ensures PrefixesAccessed(index, tokens, before, now, clock, None)
  {
    hide AgeOf;
  }

  class PrefixStore {
    var index: seq<Entry>
    var accessed: map<seq<Token>, nat>
    var clock: nat
    const kvDim: nat
    const maxSize: nat

    ghost predicate Valid(m: Model)
      reads this
    {
      && (forall e :: e in index ==> Shaped(m, e))
      && LongestFirst(index) && DistinctTokens(index)
    }

    /** Every entry holds what decoding its tokens produces. */
    ghost predicate Exact(m: Model)
      reads this
    {
      forall e :: e in index ==> Faithful(m, e)
    }

    /** Opens a store over the files `found`, whichever cache formats they were saved from. */
    constructor (ghost m: Model, found: seq<Entry>, kvDim: nat, maxSize: nat)
      requires (forall e :: e in found ==> Shaped(m, e)) && DistinctTokens(found)
      ensures Valid(m) && multiset(index) == multiset(found)
      ensures this.kvDim == kvDim && this.maxSize == maxSize
    {
      this.kvDim, this.maxSize := kvDim, maxSize;
      var sorted := Sorting.SortBy(found, (e: Entry) => -(|e.tokens| as real));
      index, accessed, clock := sorted, map[], 0;
      new;
      SortedIndex(m, found, index);
    }

    /** The longest stored prefix of `tokens` whose file is on disk. */
    method Lookup(ghost m: Model, tokens: seq<Token>, files: set<seq<Token>>) returns (hit: Option<Entry>)
      requires Valid(m)
      modifies `accessed, `clock
      ensures hit == Hit(index, tokens, files)
      ensures hit.Some? ==> hit.value in index && hit.value.tokens <= tokens && hit.value.tokens in files
      ensures |tokens| >= MIN_PREFIX_LEN ==>
        forall e :: e in index && e.tokens <= tokens && e.tokens in files ==>
          hit.Some? && |e.tokens| <= |hit.value.tokens|
      ensures |tokens| < MIN_PREFIX_LEN ==> hit.None? && clock == old(clock) && accessed == old(accessed)
      ensures |tokens| >= MIN_PREFIX_LEN ==> clock == old(clock) + 1
      ensures |tokens| >= MIN_PREFIX_LEN ==> PrefixesAccessed(index, tokens, old(accessed), accessed, clock, hit)
    {
      hide *;
      assert LongestFirst(index) && DistinctTokens(index) by { ValidIndex(m); }
      HitIs(index, tokens, files);
      if |tokens| < MIN_PREFIX_LEN {
        return None;
      }
      clock := clock + 1;
      NothingTouched(index, tokens, accessed, clock);
      for i := 0 to |index|
        invariant forall j :: 0 <= j < i ==> !Usable(index[j], tokens, files)
        invariant clock == old(clock) + 1
        invariant Touched(index, tokens, old(accessed), accessed, clock, i)
      {
        var e := index[i];
        TouchNext(index, tokens, old(accessed), accessed, clock, i);
        UsableIs(e, tokens, files);
        if |e.tokens| > |tokens| {
          continue;
        }
        if tokens[..|e.tokens|] == e.tokens {
          accessed := accessed[e.tokens := clock];
          if e.tokens in files {
            FirstUsableHere(index, tokens, files, i);
            TouchedUpTo(index, tokens, old(accessed), accessed, clock, i + 1);
            return Some(e);
          }
        }
      }
      NoneUsable(index, tokens, files);
      AllTouched(index, tokens, old(accessed), accessed, clock);
      hit := None;
    }

    lemma ValidIndex(m: Model)
      requires Valid(m)
      ensures LongestFirst(index) && DistinctTokens(index)
    {
    }

    /** Saves the prefix rounded down to the checkpoint interval, if it is long enough. */
    method Save(ghost m: Model, tokens: seq<Token>, c: CacheState, format: KvFormat, disk: Disk)
      returns (files: set<seq<Token>>)
      requires Valid(m)
      requires CheckForward(m, tokens, 0).None? && c == Run(m, Empty(m), tokens).0
      modifies this
      ensures Valid(m) && (format.BF16? && old(Exact(m)) ==> Exact(m)) && clock == old(clock)
      ensures Rounded(|tokens|) < MIN_PREFIX_LEN || !disk.writable ==>
        index == old(index) && accessed == old(accessed) && files == disk.files
      ensures
        var saved := Saved(old(index), EntryOf(tokens, c, Rounded(|tokens|), format, kvDim));
        && (forall e :: e in index ==> e in saved)
        && (Rounded(|tokens|) >= MIN_PREFIX_LEN && disk.writable && TotalSize(saved, kvDim) <= maxSize ==>
              index == saved)
      ensures Rounded(|tokens|) >= MIN_PREFIX_LEN && disk.writable ==>
        var e := EntryOf(tokens, c, Rounded(|tokens|), format, kvDim);
        if Stored(old(index), e.tokens) then
          index == old(index) && accessed == old(accessed) && files == disk.files
        else
          && accessed == old(accessed)[e.tokens := clock]
          && LeftOf(
               Inserted(old(index), e), accessed, kvDim, maxSize, disk.files + {e.tokens}, disk.stuck, index, files)
    {
      var len := (|tokens| / CHECKPOINT_INTERVAL) * CHECKPOINT_INTERVAL;
      SavedKeeps(index, EntryOf(tokens, c, len, format, kvDim));
      if len < MIN_PREFIX_LEN {
        return disk.files;
      }
      files := SaveInner(m, tokens, len, c, format, disk);
    }

    /** Saves a system prompt of exactly `len` tokens. */
    method SaveSystem(ghost m: Model, tokens: seq<Token>, len: nat, c: CacheState, format: KvFormat, disk: Disk)
      returns (files: set<seq<Token>>)
      requires Valid(m) && len <= |tokens|
      requires CheckForward(m, tokens, 0).None? && c == Run(m, Empty(m), tokens).0
      modifies this
      ensures Valid(m) && (format.BF16? && old(Exact(m)) ==> Exact(m)) && clock == old(clock)
      ensures len == 0 || !disk.writable ==> index == old(index) && accessed == old(accessed) && files == disk.files
      ensures
        var saved := Saved(old(index), EntryOf(tokens, c, len, format, kvDim));
        && (forall e :: e in index ==> e in saved)
        && (len > 0 && disk.writable && TotalSize(saved, kvDim) <= maxSize ==> index == saved)
      ensures len > 0 && disk.writable ==>
        var e := EntryOf(tokens, c, len, format, kvDim);
        if Stored(old(index), e.tokens) then
          index == old(index) && accessed == old(accessed) && files == disk.files
        else
          && accessed == old(accessed)[e.tokens := clock]
          && LeftOf(
               Inserted(old(index), e), accessed, kvDim, maxSize, disk.files + {e.tokens}, disk.stuck, index, files)
    {
      SavedKeeps(index, EntryOf(tokens, c, len, format, kvDim));
      if len == 0 {
        return disk.files;
      }
      files := SaveInner(m, tokens, len, c, format, disk);
    }

    /** Writes the file, if that can be done, and then enters it in the index as just accessed. */
    method SaveInner(ghost m: Model, tokens: seq<Token>, len: nat, c: CacheState, format: KvFormat, disk: Disk)
      returns (files: set<seq<Token>>)
      requires Valid(m) && 0 < len <= |tokens|
      requires CheckForward(m, tokens, 0).None? && c == Run(m, Empty(m), tokens).0
      modifies this
      ensures Valid(m) && (format.BF16? && old(Exact(m)) ==> Exact(m)) && clock == old(clock)
      ensures !disk.writable ==> index == old(index) && accessed == old(accessed) && files == disk.files
      ensures
        var saved := Saved(old(index), EntryOf(tokens, c, len, format, kvDim));
        && (forall e :: e in index ==> e in saved)
        && (disk.writable && TotalSize(saved, kvDim) <= maxSize ==> index == saved)
      ensures disk.writable ==>
        var e := EntryOf(tokens, c, len, format, kvDim);
        if Stored(old(index), e.tokens) then
          index == old(index) && accessed == old(accessed) && files == disk.files
        else
          && accessed == old(accessed)[e.tokens := clock]
          && LeftOf(
               Inserted(old(index), e), accessed, kvDim, maxSize, disk.files + {e.tokens}, disk.stuck, index, files)
    {
      hide FileSize;
      hide LeftOf;
      hide Faithful;
      hide LongestFirst;
      var e := EntryOf(tokens, c, len, format, kvDim);
      SavedKeeps(index, e);
      if exists i :: 0 <= i < |index| && index[i].tokens == tokens[..len] {
        return disk.files;
      }
      if !disk.writable {
        return disk.files;
      }
      SavedIsShaped(m, tokens, len, format, kvDim);
      SavedIsFaithful(m, tokens, len, kvDim);
      Insert(m, e);
      accessed := accessed[e.tokens := clock];
      files := Evict(m, disk.files + {e.tokens}, disk.stuck);
    }

    /** Keeps the index sorted, longest first. */
    method Insert(ghost m: Model, e: Entry)
      requires Valid(m) && Shaped(m, e) && !Stored(index, e.tokens)
      modifies `index
      ensures Valid(m)
      ensures index == Inserted(old(index), e)
      ensures forall x :: x in index <==> x in old(index) || x == e
    {
      hide Shaped;
      hide Inserted;
      var k := 0;
      while k < |index| && |index[k].tokens| >= |e.tokens|
        invariant 0 <= k <= |index|
        invariant forall j :: 0 <= j < k ==> |index[j].tokens| >= |e.tokens|
      {
        k := k + 1;
      }
      InsertedAt(index, e, k);
      InsertedKeeps(index, e);
      InsertedInOrder(index, e, k);
      index := index[..k] + [e] + index[k..];
    }

    /** Above the size limit, removes the files that were accessed longest ago, and their entries. */
    method Evict(ghost m: Model, files: set<seq<Token>>, stuck: set<seq<Token>>) returns (left: set<seq<Token>>)
      requires Valid(m)
      modifies `index
      ensures Valid(m)
      ensures TotalSize(old(index), kvDim) <= maxSize ==> index == old(index)
      ensures forall e :: e in index ==> e in old(index)
      ensures LeftOf(old(index), accessed, kvDim, maxSize, files, stuck, index, left)
    {
      hide TotalSize;
      hide EvictsOldest;
      hide Shaped;
      var all := FilesOf(index, accessed, kvDim);
      assert Named(all);
      SizeOfFiles(index, accessed, kvDim);
      var gone := EvictOldest(all, maxSize, files - stuck);
      FitsAlready(all, maxSize, files - stuck, gone);
      left := files - gone;
      if gone != {} {
        RetainedInOrder(index, left);
        index := Retained(index, left);
      }
      assert LeftOf(old(index), accessed, kvDim, maxSize, files, stuck, index, left);
    }
  }

  /** There is an entry for these tokens. */
  ghost predicate Stored(index: seq<Entry>, tokens: seq<Token>) {
    exists x :: x in index && x.tokens == tokens
  }

  lemma SortedIndex(m: Model, found: seq<Entry>, index: seq<Entry>)
    requires multiset(index) == multiset(found) && forall e :: e in found ==> Shaped(m, e)
    requires DistinctTokens(found)
    requires Sorting.SortedBy(index, (e: Entry) => -(|e.tokens| as real))
    ensures (forall e :: e in index ==> Shaped(m, e)) && LongestFirst(index) && DistinctTokens(index)
  {
    hide Shaped;
    forall e | e in index ensures e in found {
      assert e in multiset(index);
    }
    forall i, j | 0 <= i < j < |index| ensures |index[i].tokens| >= |index[j].tokens| {
      assert -(|index[i].tokens| as real) <= -(|index[j].tokens| as real);
    }
    StillDistinct(found, index);
  }

  lemma StillDistinct(found: seq<Entry>, index: seq<Entry>)
    requires multiset(index) == multiset(found) && DistinctTokens(found)
    ensures DistinctTokens(index)
  {
    forall i, j | 0 <= i < j < |index| ensures index[i].tokens != index[j].tokens {
      assert index[i] in multiset(index) && index[j] in multiset(index);
      var a :| 0 <= a < |found| && found[a] == index[i];
      var b :| 0 <= b < |found| && found[b] == index[j];
      if index[i] == index[j] {
        TwiceIn(index, i, j);
        OnceIn(found, a);
      }
    }
  }

  lemma TwiceIn(s: seq<Entry>, i: nat, j: nat)
    requires i < j < |s| && s[i] == s[j]
    ensures multiset(s)[s[i]] >= 2
  {
    assert s == s[..j] + s[j..];
    assert s[..j][i] == s[i] && s[j..][0] == s[j];
    assert s[i] in multiset(s[..j]) && s[j] in multiset(s[j..]);
  }

  lemma OnceIn(s: seq<Entry>, a: nat)
    requires DistinctTokens(s) && a < |s|
    ensures multiset(s)[s[a]] == 1
  {
    assert s == s[..a] + [s[a]] + s[a + 1..];
    assert s[a] !in s[..a] && s[a] !in s[a + 1..];
    assert s[a] !in multiset(s[..a]) && s[a] !in multiset(s[a + 1..]);
  }

  lemma InsertedInOrder(index: seq<Entry>, e: Entry, k: nat)
    requires LongestFirst(index) && DistinctTokens(index) && !Stored(index, e.tokens)
    requires k <= |index| && forall j :: 0 <= j < k ==> |index[j].tokens| >= |e.tokens|
    requires k < |index| ==> |index[k].tokens| < |e.tokens|
    ensures var r := index[..k] + [e] + index[k..]; LongestFirst(r) && DistinctTokens(r)
  {
    var r := index[..k] + [e] + index[k..];
    forall i, j | 0 <= i < j < |r| ensures |r[i].tokens| >= |r[j].tokens| && r[i].tokens != r[j].tokens {
      assert r[i] == if i < k then index[i] else if i == k then e else index[i - 1];
      assert r[j] == if j < k then index[j] else if j == k then e else index[j - 1];
    }
  }

  /** Saving drops nothing from the index. */
  lemma {:induction false} SavedKeeps(index: seq<Entry>, e: Entry)
    ensures forall x :: x in index ==> x in Saved(index, e)
    ensures forall x :: x in Saved(index, e) ==> x in index || x == e
  {
    InsertedKeeps(index, e);
  }

  lemma {:induction false} InsertedKeeps(index: seq<Entry>, e: Entry)
    ensures forall x :: x in Inserted(index, e) <==> x in index || x == e
  {
    if index != [] && |index[0].tokens| >= |e.tokens| {
      InsertedKeeps(index[1..], e);
      assert index == [index[0]] + index[1..];
    }
  }
}
