/**
 Prefills side by side over one prefix store. The store is locked for each look-up, each read
 of a file and each save, and free in between, so requests interleave step by step.
 */
module ConcurrentPrefill {
  import opened Wrappers
  import opened KvFormats
  import opened Transformer
  import opened TokenRuns
  import opened PrefixCache

  datatype Request = Request(prompt: seq<Token>, systemLen: Option<nat>)

  /** Where a request stands; `end` is its cache and last hidden row. */
  datatype Pc =
    | Arrived
    | Looked(hit: Option<Entry>)
    | Loaded(entry: Entry)
    | Missed
    | Computed(end: (CacheState, Row))
    | SystemSaved(end: (CacheState, Row))
    | Done(end: (CacheState, Row))
    | Failed

  /** The index of the store, the files on disk by their tokens, and the requests. */
  datatype State = State(index: seq<Entry>, disk: map<seq<Token>, Entry>, pcs: seq<Pc>)

  /** The model, how caches are stored, the width of a row and what is asked for. */
  datatype Setting = Setting(m: Model, format: KvFormat, kvDim: nat, requests: seq<Request>)

  // ----- Steps -----

  /** A save leaves whichever index and files eviction and the file system decide. */
  datatype Action =
    | Lookup
    | Load(readable: bool)
    | Compute
    | SaveSystem(index: seq<Entry>, disk: map<seq<Token>, Entry>)
    | Save(index: seq<Entry>, disk: map<seq<Token>, Entry>)

  /** Nothing but `e` is added to the index and the files, and nothing changes if there is no entry to save. */
  ghost predicate SavesAtMost(
      s: State, e: Option<Entry>, index: seq<Entry>, disk: map<seq<Token>, Entry>)
  {
    && (e.None? ==> index == s.index && disk == s.disk)
    && (forall x :: x in index ==> x in s.index || e == Some(x))
    && (forall t :: t in disk ==> (t in s.disk && disk[t] == s.disk[t]) || (e == Some(disk[t]) && t == disk[t].tokens))
  }

  /** The entry of the system prompt, if there is one shorter than the prompt. */
  function SystemEntry(at: Setting, i: nat, c: CacheState): Option<Entry>
    requires i < |at.requests|
  {
    var r := at.requests[i];
    if r.systemLen.Some? && 0 < r.systemLen.value < |r.prompt|
    then Some(EntryOf(r.prompt, c, r.systemLen.value, at.format, at.kvDim)) else None
  }

  /** The entry of the rounded prompt, if it is long enough. */
  function PromptEntry(at: Setting, i: nat, c: CacheState): Option<Entry>
    requires i < |at.requests|
  {
    var prompt := at.requests[i].prompt;
    var len := Rounded(|prompt|);
    if len >= MIN_PREFIX_LEN then Some(EntryOf(prompt, c, len, at.format, at.kvDim)) else None
  }

  ghost predicate Enabled(at: Setting, s: State, i: nat, a: Action) {
    && i < |at.requests| == |s.pcs|
    && var pc := s.pcs[i];
       match a
       case Lookup => pc.Arrived?
       case Load(_) => pc.Looked?
       case Compute =>
         || pc.Missed?
         || (pc.Loaded? && |pc.entry.kv| == |at.m.layers|
             && pc.entry.tokens != [] && pc.entry.tokens <= at.requests[i].prompt)
       case SaveSystem(index, disk) => pc.Computed? && SavesAtMost(s, SystemEntry(at, i, pc.end.0), index, disk)
       case Save(index, disk) => pc.SystemSaved? && SavesAtMost(s, PromptEntry(at, i, pc.end.0), index, disk)
  }

  ghost function Apply(at: Setting, s: State, i: nat, a: Action): (t: State)
    requires Enabled(at, s, i, a)
    ensures |t.pcs| == |s.pcs| && forall k :: 0 <= k < |s.pcs| && k != i ==> t.pcs[k] == s.pcs[k]
  {
    var pc, prompt := s.pcs[i], at.requests[i].prompt;
    match a
    case Lookup => s.(pcs := s.pcs[i := Looked(Hit(s.index, prompt, s.disk.Keys))])
    case Load(readable) =>
      var found := readable && pc.hit.Some? && pc.hit.value.tokens in s.disk;
      s.(pcs := s.pcs[i := if found then Loaded(s.disk[pc.hit.value.tokens]) else Missed])
    case Compute =>
      if CheckForward(at.m, prompt, 0).Some? then s.(pcs := s.pcs[i := Failed])
      else if pc.Missed? then s.(pcs := s.pcs[i := Computed(Whole(at.m, prompt))])
      else s.(pcs := s.pcs[i := Done(AfterHit(at.m, at.format, pc.entry, prompt))])
    case SaveSystem(index, disk) => State(index, disk, s.pcs[i := SystemSaved(pc.end)])
    case Save(index, disk) => State(index, disk, s.pcs[i := Done(pc.end)])
  }

  /** The state after a sequence of steps, if each of them could be taken. */
  ghost function Execute(at: Setting, s: State, steps: seq<(nat, Action)>): Option<State> {
    if steps == [] then Some(s)
    else
      var n := |steps| - 1;
      match Execute(at, s, steps[..n])
      case None => None
      case Some(t) =>
        if Enabled(at, t, steps[n].0, steps[n].1) then Some(Apply(at, t, steps[n].0, steps[n].1)) else None
  }

  // ----- The invariant -----

  /** Every entry, on disk or in the index, holds what decoding its tokens produces. */
  ghost predicate ExactStore(m: Model, index: seq<Entry>, disk: map<seq<Token>, Entry>) {
    && (forall e :: e in index ==> Faithful(m, e))
    && (forall t :: t in disk ==> Faithful(m, disk[t]) && disk[t].tokens == t)
  }

  /** What a request has read or computed is about its own prompt. */
  ghost predicate OwnWork(at: Setting, i: nat, pc: Pc)
    requires i < |at.requests|
  {
    var prompt := at.requests[i].prompt;
    match pc
    case Looked(hit) => hit.Some? ==> hit.value.tokens <= prompt
    case Loaded(e) => Faithful(at.m, e) && e.tokens <= prompt
    case Computed(end) => Ends(at.m, prompt, end)
    case SystemSaved(end) => Ends(at.m, prompt, end)
    case Done(end) => Ends(at.m, prompt, end)
    case _ => true
  }

  /** The prompt passes the checks, and `end` is the outcome of running it from nothing. */
  ghost predicate Ends(m: Model, prompt: seq<Token>, end: (CacheState, Row)) {
    CheckForward(m, prompt, 0).None? && end == Whole(m, prompt)
  }

  ghost predicate Inv(at: Setting, s: State) {
    && |s.pcs| == |at.requests| && ExactStore(at.m, s.index, s.disk)
    && forall i :: 0 <= i < |s.pcs| ==> OwnWork(at, i, s.pcs[i])
  }

  lemma SavedEntry(at: Setting, i: nat, end: (CacheState, Row))
    requires i < |at.requests| && at.format.BF16? && Ends(at.m, at.requests[i].prompt, end)
    ensures SystemEntry(at, i, end.0).Some? ==> Faithful(at.m, SystemEntry(at, i, end.0).value)
    ensures PromptEntry(at, i, end.0).Some? ==> Faithful(at.m, PromptEntry(at, i, end.0).value)
  {
    hide Faithful;
    hide EntryOf;
    hide Run;
    var r := at.requests[i];
    if r.systemLen.Some? && 0 < r.systemLen.value < |r.prompt| {
      SavedIsFaithful(at.m, r.prompt, r.systemLen.value, at.kvDim);
    }
    if Rounded(|r.prompt|) >= MIN_PREFIX_LEN {
      SavedIsFaithful(at.m, r.prompt, Rounded(|r.prompt|), at.kvDim);
    }
  }

  lemma SavesKeepExact(
      m: Model, s: State, e: Option<Entry>, index: seq<Entry>, disk: map<seq<Token>, Entry>)
    requires ExactStore(m, s.index, s.disk) && SavesAtMost(s, e, index, disk) && (e.Some? ==> Faithful(m, e.value))
    ensures ExactStore(m, index, disk)
  {
    hide Faithful;
  }

  lemma InvStep(at: Setting, s: State, i: nat, a: Action)
    requires Inv(at, s) && Enabled(at, s, i, a) && at.format.BF16? && AllAttention(at.m.layers)
    ensures Inv(at, Apply(at, s, i, a))
  {
    hide Faithful;
    hide Whole;
    hide AfterHit;
    hide AllAttention;
    hide EntryOf;
    hide CheckForward;
    var t, pc := Apply(at, s, i, a), s.pcs[i];
    match a
    case Lookup =>
    case Load(_) =>
    case Compute =>
      if pc.Loaded? {
        HitIsWhole(at.m, pc.entry, at.requests[i].prompt);
      }
    case SaveSystem(index, disk) =>
      SavedEntry(at, i, pc.end);
      SavesKeepExact(at.m, s, SystemEntry(at, i, pc.end.0), index, disk);
    case Save(index, disk) =>
      SavedEntry(at, i, pc.end);
      SavesKeepExact(at.m, s, PromptEntry(at, i, pc.end.0), index, disk);
  }

  /** Nothing has been asked yet. */
  ghost predicate Initial(at: Setting, s: State) {
    && |s.pcs| == |at.requests| && (forall i :: 0 <= i < |s.pcs| ==> s.pcs[i] == Arrived)
    && ExactStore(at.m, s.index, s.disk)
  }

  /**
   In every interleaving, with attention layers, BF16 storage and a store that starts exact,
   the store stays exact whatever is evicted or unreadable, and every request that is done
   ends in the cache and the last hidden row of running its own prompt.
   */
  lemma {:induction false} RunsAreExact(at: Setting, s: State, steps: seq<(nat, Action)>)
    requires Initial(at, s) && at.format.BF16? && AllAttention(at.m.layers)
    ensures
      var r := Execute(at, s, steps);
      r.Some? ==>
        && ExactStore(at.m, r.value.index, r.value.disk) && |r.value.pcs| == |at.requests|
        && forall i :: 0 <= i < |r.value.pcs| && r.value.pcs[i].Done? ==>
          Ends(at.m, at.requests[i].prompt, r.value.pcs[i].end)
  {
    RunInv(at, s, steps);
  }

  lemma {:induction false} RunInv(at: Setting, s: State, steps: seq<(nat, Action)>)
    requires Initial(at, s) && at.format.BF16? && AllAttention(at.m.layers)
    ensures
      var r := Execute(at, s, steps);
      r.Some? ==> Inv(at, r.value)
  {
    hide ExactStore;
    hide Ends;
    hide Enabled;
    hide AllAttention;
    if steps != [] {
      var n := |steps| - 1;
      RunInv(at, s, steps[..n]);
      var before := Execute(at, s, steps[..n]);
      if before.Some? && Enabled(at, before.value, steps[n].0, steps[n].1) {
        InvStep(at, before.value, steps[n].0, steps[n].1);
      }
    }
  }

  /** A request is never stuck: until it is done or failed it can take a step. */
  lemma NeverStuck(at: Setting, s: State, i: nat)
    requires Inv(at, s) && i < |s.pcs| && !s.pcs[i].Done? && !s.pcs[i].Failed?
    ensures exists a :: Enabled(at, s, i, a)
  {
    var a := match s.pcs[i]
      case Arrived => Lookup
      case Looked(_) => Load(true)
      case Computed(_) => SaveSystem(s.index, s.disk)
      case SystemSaved(_) => Save(s.index, s.disk)
      case _ => Compute;
    assert Enabled(at, s, i, a);
  }
}
