/**
  `filter_stream` of lib/fluent/plugin/filter_sparkl.rb as functions: one
  batch is a fold of `EventStep` over its events, and a run of the filter
  on one tag is a fold of `FilterSpec` over its batches. The method
  `SparklFilter.Filter.FilterStream` is proved to compute `FilterSpec`.

  The batch functions take what the filter computes per record as `Hooks`:
  the `chain_block` step, the text `SparklFilter.mangle` hashes and the
  fields the record keeps beside its `.sparkl` slot. The filter passes
  `HooksOf(env, tag)`. Each lemma about batches relies only on the laws of
  the hooks it needs (`ChainLaws`, `TextLaw`, `KeepLaw`), which `HooksOf`
  is proved to satisfy.
 */
module BatchModel {
  import opened Wrappers
  import opened Canonical
  import opened Digests
  import opened ChainModel

  /** A record as it arrives, with its event time. */
  datatype Incoming = Incoming(time: int, entries: seq<Entry>)

  /**
    One event stream handed to `filter_stream`: its events, whether the
    stream answers `size`, and the value `Time.now.to_i` has during the call.
   */
  datatype Batch = Batch(events: seq<Incoming>, sized: bool, clock: int)

  /** The bodies the filter hashes: each record as it arrived. */
  function IncomingBodies(evs: seq<Incoming>): (bs: seq<Value>)
    ensures |bs| == |evs|
    ensures forall i :: 0 <= i < |evs| ==> bs[i] == Hash(evs[i].entries)
  {
    seq(|evs|, i requires 0 <= i < |evs| => Hash(evs[i].entries))
  }

  /** Record `i` closes a block: it is the last of a sized stream, or the stream has no size. */
  predicate Finalises(b: Batch, i: int)
  {
    !b.sized || i + 1 == |b.events|
  }


  /**
    A `chain_block` step: from the tag's digest entry, the event time, the
    clock, the record's metadata and its running digest, the new entry, the
    record's metadata and what was raised.
   */
  type Chainer = (StateRecord, int, int, Meta, string) -> BlockStep

  /** `chain_block(tag, time, record)` of the filter instance `env`, the record's digest slot holding `d`. */
  function ChainerOf(env: Env, tag: string): Chainer
  {
    (e: StateRecord, time: int, now: int, m: Meta, d: string) =>
      ChainBlockSpec(env, e, tag, time, now, m.(digest := Some(d)))
  }

  /**
    What the batch loop relies on in one `chain_block` outcome `r`: the block
    names the head `e` had as its predecessor, the head becomes the fold of
    the record's digest `d` onto it, `:first` is set once, and the record
    keeps its index, execution id and block id and gets `d` as its digest.
   */
  ghost predicate StepLaw(p: Primitives, e: StateRecord, m: Meta, d: string, r: BlockStep)
  {
    && r.meta.prevdigest == Some(Head(e))
    && r.entry.last == Some(Fold(p, RawInner, Head(e), d))
    && r.entry.first == (if e.first.Some? then e.first else r.entry.last)
    && r.meta.index == m.index && r.meta.exec == m.exec && r.meta.blockId == m.blockId
    && r.meta.digest == Some(d)
  }

  /** Every outcome of `chain` obeys `StepLaw`. */
  ghost predicate ChainLaws(p: Primitives, chain: Chainer)
  {
    forall e, time, now, m, d {:trigger chain(e, time, now, m, d)} :: StepLaw(p, e, m, d, chain(e, time, now, m, d))
  }

  /** `chain_block` obeys the laws. */
  lemma ChainBlockLaws(env: Env, tag: string)
    ensures ChainLaws(env.prims, ChainerOf(env, tag))
  {
    var chain := ChainerOf(env, tag);
    forall e, time, now, m, d ensures StepLaw(env.prims, e, m, d, chain(e, time, now, m, d)) {
      assert chain(e, time, now, m, d) == ChainBlockSpec(env, e, tag, time, now, m.(digest := Some(d)));
    }
  }

  /**
    What `filter_stream` computes from one incoming record: the `chain_block`
    step, the JSON text hashed into the running digest, and the fields the
    outgoing record keeps beside its `.sparkl` slot.
   */
  datatype Hooks = Hooks(chain: Chainer, text: seq<Entry> -> string, keep: seq<Entry> -> seq<Entry>)

  /** The hooks of filter instance `env` on `tag`. */
  function HooksOf(env: Env, tag: string): Hooks
  {
    Hooks(ChainerOf(env, tag), es => MangleJson(env.prims, Hash(es)), es => WithoutKey(es, SparklKey))
  }

  /** The text hashed for a record is `SparklFilter.mangle` of the record as it arrived. */
  ghost predicate TextLaw(p: Primitives, h: Hooks)
  {
    forall es {:trigger h.text(es)} :: h.text(es) == MangleJson(p, Hash(es))
  }

  /** The outgoing record keeps every field but `.sparkl`, in order. */
  ghost predicate KeepLaw(h: Hooks)
  {
    forall es {:trigger h.keep(es)} :: h.keep(es) == WithoutKey(es, SparklKey)
  }

  /** The hooks of a filter instance obey all three laws. */
  lemma HooksOfLaws(env: Env, tag: string)
    ensures ChainLaws(env.prims, HooksOf(env, tag).chain)
    ensures TextLaw(env.prims, HooksOf(env, tag))
    ensures KeepLaw(HooksOf(env, tag))
  {
    ChainBlockLaws(env, tag);
  }

  /** The invariants of one `filter_stream` call: the instance, the tag, the block id it took and its hooks. */
  datatype Call = Call(env: Env, tag: string, blockId: int, batch: Batch, hooks: Hooks)

  /** The state of a `filter_stream` call part way through its events. */
  datatype Progress = Progress(
    digests: map<string, StateRecord>,  // @@state[:digest]
    runDigest: string,
    out: seq<Event>,                    // new_es
    errors: seq<Event>)                 // the records sent to the error stream

  /** The output record for incoming event `i`, with metadata `m`. */
  function Tagged(c: Call, i: int, m: Meta): Event
    requires 0 <= i < |c.batch.events|
  {
    var ev := c.batch.events[i];
    Event(ev.time, Record(c.hooks.keep(ev.entries), Some(m)))
  }

  /** The body of the `each_with_index` loop, for event `i`. */
  function EventStep(c: Call, s: Progress, i: nat): Progress
    requires i < |c.batch.events|
  {
    var ev := c.batch.events[i];
    var p := c.env.prims;
    var run := Fold(p, RawInner, s.runDigest, c.hooks.text(ev.entries));
    var meta := BaseMeta(i, c.env.exec, c.blockId);
    if Finalises(c.batch, i) then
      var r := c.hooks.chain(Lookup(s.digests, c.tag), ev.time, c.batch.clock, meta, run);
      var digests := s.digests[c.tag := r.entry];
      if r.raised.Some? then Progress(digests, run, s.out, s.errors + [Tagged(c, i, r.meta)])
      else Progress(digests, run, s.out + [Tagged(c, i, r.meta)], s.errors)
    else Progress(s.digests, run, s.out + [Tagged(c, i, meta)], s.errors)
  }

  /** The state after `k` steps of `step` from `s0`: step `i` sees the state after the first `i`. */
  function Steps<S>(step: (S, nat) -> S, s0: S, k: nat): S
    decreases k
  {
    if k == 0 then s0 else step(Steps(step, s0, k - 1), k - 1)
  }

  /** A property that every step carries forward holds after any number of steps. */
  lemma {:induction false} StepsInvariant<S>(step: (S, nat) -> S, s0: S, inv: (S, nat) -> bool, k: nat)
    requires inv(s0, 0)
    requires forall s: S, i: nat {:trigger step(s, i)} :: i < k && inv(s, i) ==> inv(step(s, i), i + 1)
    ensures inv(Steps(step, s0, k), k)
    decreases k
  {
    if k > 0 {
      StepsInvariant(step, s0, inv, k - 1);
    }
  }

  /** The state after the first `k` events, starting from digest map `d0`. */
  function Process(c: Call, d0: map<string, StateRecord>, k: nat): Progress
    requires k <= |c.batch.events|
    decreases k
  {
    if k == 0 then Progress(d0, "", [], [])
    else EventStep(c, Process(c, d0, k - 1), k - 1)
  }

  /** A property that every event carries forward holds after the first `k` events. */
  lemma {:induction false} ProcessInvariant(c: Call, d0: map<string, StateRecord>, inv: (Progress, nat) -> bool, k: nat)
    requires k <= |c.batch.events|
    requires inv(Progress(d0, "", [], []), 0)
    requires forall s: Progress, i: nat {:trigger EventStep(c, s, i)} ::
      i < k && inv(s, i) ==> inv(EventStep(c, s, i), i + 1)
    ensures inv(Process(c, d0, k), k)
    decreases k
  {
    if k > 0 {
      ProcessInvariant(c, d0, inv, k - 1);
    }
  }

  /** The two maps of @@state. */
  datatype RegState = RegState(ids: map<string, StateRecord>, digests: map<string, StateRecord>)

  datatype FilterResult = FilterResult(state: RegState, out: seq<Event>, errors: seq<Event>)

  /** The block id the next batch of `tag` takes: the `:id` counter, 0 before the first. */
  function NextBlockId(ids: map<string, StateRecord>, tag: string): int
  {
    var e := Lookup(ids, tag);
    if e.index.Some? then e.index.value else 0
  }

  /** `filter_stream(tag, es)` */
  function FilterSpec(h: Hooks, env: Env, st: RegState, tag: string, b: Batch): FilterResult
  {
    var e := Lookup(st.ids, tag);
    var blockId := NextBlockId(st.ids, tag);
    var ids := st.ids[tag := e.(index := Some(blockId + 1))];
    var p := Process(Call(env, tag, blockId, b, h), st.digests, |b.events|);
    FilterResult(RegState(ids, p.digests), p.out, p.errors)
  }

  /** `filter_stream` on batch `j` of `bs`, its records appended to those of the calls before it. */
  function BatchStepAt(h: Hooks, env: Env, tag: string, bs: seq<Batch>): (FilterResult, nat) -> FilterResult
  {
    (r: FilterResult, j: nat) =>
      if j < |bs| then
        var f := FilterSpec(h, env, r.state, tag, bs[j]);
        FilterResult(f.state, r.out + f.out, r.errors + f.errors)
      else r
  }

  /** Successive `filter_stream` calls on one tag, their outputs concatenated. */
  function RunBatches(h: Hooks, env: Env, st: RegState, tag: string, bs: seq<Batch>): FilterResult
  {
    Steps(BatchStepAt(h, env, tag, bs), FilterResult(st, [], []), |bs|)
  }

  // ---------------------------------------------------------------------------
  // One event
  // ---------------------------------------------------------------------------

  /** What one event does: the running digest grows by the record, and the record goes out or to the error stream. */
  lemma EventStepShape(c: Call, s: Progress, i: nat)
    requires i < |c.batch.events|
    ensures var s' := EventStep(c, s, i);
      var ev := c.batch.events[i];
      var meta := BaseMeta(i, c.env.exec, c.blockId);
      && s'.runDigest == Fold(c.env.prims, RawInner, s.runDigest, c.hooks.text(ev.entries))
      && (!Finalises(c.batch, i) ==>
            s'.digests == s.digests && s'.out == s.out + [Tagged(c, i, meta)] && s'.errors == s.errors)
      && (Finalises(c.batch, i) ==>
            var r := c.hooks.chain(Lookup(s.digests, c.tag), ev.time, c.batch.clock, meta, s'.runDigest);
            && s'.digests == s.digests[c.tag := r.entry]
            && (r.raised.None? ==> s'.out == s.out + [Tagged(c, i, r.meta)] && s'.errors == s.errors)
            && (r.raised.Some? ==> s'.out == s.out && s'.errors == s.errors + [Tagged(c, i, r.meta)]))
  {
  }

  /** The first `k` events as a step from the first `k - 1`. */
  lemma ProcessUnfold(c: Call, d0: map<string, StateRecord>, k: nat)
    requires 0 < k <= |c.batch.events|
    ensures Process(c, d0, k) == EventStep(c, Process(c, d0, k - 1), k - 1)
  {
  }

  // ---------------------------------------------------------------------------
  // One batch
  // ---------------------------------------------------------------------------

  /** After `k` events the running digest is the fold over the first `k` records as they arrived. */
  lemma ProcessRunDigest(c: Call, d0: map<string, StateRecord>, k: nat)
    requires TextLaw(c.env.prims, c.hooks)
    requires k <= |c.batch.events|
    ensures Process(c, d0, k).runDigest == RunDigest(c.env.prims, RawInner, IncomingBodies(c.batch.events[..k]))
  {
    var evs := c.batch.events;
    var inv := (s: Progress, i: nat) => i <= |evs| ==> s.runDigest == RunDigest(c.env.prims, RawInner, IncomingBodies(evs[..i]));
    assert IncomingBodies(evs[..0]) == [];
    assert RunDigest(c.env.prims, RawInner, IncomingBodies(evs[..0])) == "";
    assert inv(Progress(d0, "", [], []), 0);
    forall s: Progress, i: nat {:trigger EventStep(c, s, i)} | i < k && inv(s, i) ensures inv(EventStep(c, s, i), i + 1) {
      EventStepShape(c, s, i);
      assert IncomingBodies(evs[..i + 1])[..i] == IncomingBodies(evs[..i]);
    }
    ProcessInvariant(c, d0, inv, k);
  }

  /** Event `ev` is the output record of incoming event `m.index` < `k`, tagged with index, exec and block id. */
  ghost predicate Carries(c: Call, ev: Event, k: int)
  {
    && ev.record.sparkl.Some?
    && var m := ev.record.sparkl.value;
    && 0 <= m.index < k <= |c.batch.events|
    && m.exec == c.env.exec
    && m.blockId == c.blockId
    && ev == Tagged(c, m.index, m)
  }

  function IndexOf(ev: Event): int
  {
    if ev.record.sparkl.Some? then ev.record.sparkl.value.index else -1
  }

  /** Indices strictly increase along `es`. */
  ghost predicate InArrivalOrder(es: seq<Event>)
  {
    forall j1, j2 :: 0 <= j1 < j2 < |es| ==> IndexOf(es[j1]) < IndexOf(es[j2])
  }

  /**
    The first `k` events have left, each exactly once, either in the output
    `out` or in the error stream `errors`, carrying its own index, the
    execution id and the batch's block id; each stream keeps the arrival order.
   */
  ghost predicate CarriedOnce(c: Call, out: seq<Event>, errors: seq<Event>, k: int)
  {
    && |out| + |errors| == k
    && (forall j :: 0 <= j < |out| ==> Carries(c, out[j], k))
    && (forall j :: 0 <= j < |errors| ==> Carries(c, errors[j], k))
    && InArrivalOrder(out)
    && InArrivalOrder(errors)
    && (forall j1, j2 :: 0 <= j1 < |out| && 0 <= j2 < |errors| ==> IndexOf(out[j1]) != IndexOf(errors[j2]))
  }

  /** The records already out stay carried when one more event is counted. */
  lemma CarriedGrows(c: Call, es: seq<Event>, i: nat)
    requires i < |c.batch.events|
    requires forall j :: 0 <= j < |es| ==> Carries(c, es[j], i)
    ensures forall j :: 0 <= j < |es| ==> Carries(c, es[j], i + 1) && IndexOf(es[j]) < i
  {
    forall j | 0 <= j < |es| ensures Carries(c, es[j], i + 1) && IndexOf(es[j]) < i {
      assert Carries(c, es[j], i);
    }
  }

  /** Sending record `ev` of event `i` to the output keeps `CarriedOnce`. */
  lemma CarriedOnceOut(c: Call, out: seq<Event>, errors: seq<Event>, i: nat, ev: Event)
    requires CarriedOnce(c, out, errors, i) && Carries(c, ev, i + 1) && IndexOf(ev) == i
    ensures CarriedOnce(c, out + [ev], errors, i + 1)
  {
    CarriedGrows(c, out, i);
    CarriedGrows(c, errors, i);
  }

  /** Sending record `ev` of event `i` to the error stream keeps `CarriedOnce`. */
  lemma CarriedOnceError(c: Call, out: seq<Event>, errors: seq<Event>, i: nat, ev: Event)
    requires CarriedOnce(c, out, errors, i) && Carries(c, ev, i + 1) && IndexOf(ev) == i
    ensures CarriedOnce(c, out, errors + [ev], i + 1)
  {
    CarriedGrows(c, out, i);
    CarriedGrows(c, errors, i);
  }

  /** Event `i` leaves in one of the two streams, keeping `CarriedOnce`. */
  lemma CarriedOnceStep(c: Call, s: Progress, i: nat)
    requires ChainLaws(c.env.prims, c.hooks.chain)
    requires i < |c.batch.events| && CarriedOnce(c, s.out, s.errors, i)
    ensures var s' := EventStep(c, s, i); CarriedOnce(c, s'.out, s'.errors, i + 1)
  {
    EventStepShape(c, s, i);
    var s' := EventStep(c, s, i);
    var meta := BaseMeta(i, c.env.exec, c.blockId);
    if Finalises(c.batch, i) {
      var ev := c.batch.events[i];
      var r := c.hooks.chain(Lookup(s.digests, c.tag), ev.time, c.batch.clock, meta, s'.runDigest);
      assert StepLaw(c.env.prims, Lookup(s.digests, c.tag), meta, s'.runDigest, r);
      assert Carries(c, Tagged(c, i, r.meta), i + 1);
      if r.raised.Some? {
        CarriedOnceError(c, s.out, s.errors, i, Tagged(c, i, r.meta));
      } else {
        CarriedOnceOut(c, s.out, s.errors, i, Tagged(c, i, r.meta));
      }
    } else {
      assert Carries(c, Tagged(c, i, meta), i + 1);
      CarriedOnceOut(c, s.out, s.errors, i, Tagged(c, i, meta));
    }
  }

  /** Every incoming event leaves exactly once, in order, carrying its index, exec and block id. */
  lemma ProcessCarries(c: Call, d0: map<string, StateRecord>, k: nat)
    requires ChainLaws(c.env.prims, c.hooks.chain)
    requires k <= |c.batch.events|
    ensures var P := Process(c, d0, k); CarriedOnce(c, P.out, P.errors, k)
  {
    var inv := (s: Progress, i: nat) => CarriedOnce(c, s.out, s.errors, i);
    forall s: Progress, i: nat {:trigger EventStep(c, s, i)} | i < k && inv(s, i) ensures inv(EventStep(c, s, i), i + 1) {
      CarriedOnceStep(c, s, i);
    }
    ProcessInvariant(c, d0, inv, k);
  }

  /** The records of a sized batch before its last, as the filter emits them: no digest. */
  function Plain(c: Call, k: nat): (es: seq<Event>)
    requires k <= |c.batch.events|
    ensures |es| == k
  {
    seq(k, j requires 0 <= j < k => Tagged(c, j, BaseMeta(j, c.env.exec, c.blockId)))
  }

  /** In a sized batch, the records before the last pass through untouched by the chain. */
  lemma SizedPrefix(c: Call, d0: map<string, StateRecord>, k: nat)
    requires c.batch.sized && k < |c.batch.events|
    ensures var P := Process(c, d0, k);
      P.digests == d0 && P.out == Plain(c, k) && P.errors == []
  {
    var n := |c.batch.events|;
    var inv := (s: Progress, i: nat) => i <= n ==> s.digests == d0 && s.out == Plain(c, i) && s.errors == [];
    forall s: Progress, i: nat {:trigger EventStep(c, s, i)} | i < k && inv(s, i) ensures inv(EventStep(c, s, i), i + 1) {
      EventStepShape(c, s, i);
      assert Plain(c, i + 1) == Plain(c, i) + [Tagged(c, i, BaseMeta(i, c.env.exec, c.blockId))];
    }
    ProcessInvariant(c, d0, inv, k);
  }

  /** The last record of a sized batch, after the others passed through. */
  lemma SizedLast(c: Call, s: Progress, d0: map<string, StateRecord>)
    requires c.batch.sized && |c.batch.events| > 0
    requires s.digests == d0 && s.out == Plain(c, |c.batch.events| - 1) && s.errors == []
    ensures var n := |c.batch.events|;
      var P := EventStep(c, s, n - 1);
      var r := c.hooks.chain(Lookup(d0, c.tag), c.batch.events[n - 1].time, c.batch.clock, BaseMeta(n - 1, c.env.exec, c.blockId), P.runDigest);
      && P.digests == d0[c.tag := r.entry]
      && P.out + P.errors == Plain(c, n - 1) + [Tagged(c, n - 1, r.meta)]
      && (P.errors == [] <==> r.raised.None?)
  {
    EventStepShape(c, s, |c.batch.events| - 1);
  }

  /**
    A sized batch closes exactly one block, on its last record: the records
    before it pass through with no digest, and the last alone runs
    `chain_block` with the running digest of the whole batch
    (`ProcessRunDigest`); it goes to the error stream exactly when
    `chain_block` raised.
   */
  lemma SizedBatch(c: Call, d0: map<string, StateRecord>)
    requires c.batch.sized && |c.batch.events| > 0
    ensures var n := |c.batch.events|;
      var P := Process(c, d0, n);
      var r := c.hooks.chain(Lookup(d0, c.tag), c.batch.events[n - 1].time, c.batch.clock, BaseMeta(n - 1, c.env.exec, c.blockId), P.runDigest);
      && P.digests == d0[c.tag := r.entry]
      && P.out + P.errors == Plain(c, n - 1) + [Tagged(c, n - 1, r.meta)]
      && (P.errors == [] <==> r.raised.None?)
  {
    var n := |c.batch.events|;
    var s := Process(c, d0, n - 1);
    SizedPrefix(c, d0, n - 1);
    ProcessUnfold(c, d0, n);
    SizedLast(c, s, d0);
  }

  /** Every record in `es` closes a block: it carries a digest and a predecessor. */
  ghost predicate AllClose(es: seq<Event>)
  {
    forall j :: 0 <= j < |es| ==>
      es[j].record.sparkl.Some? && es[j].record.sparkl.value.digest.Some? && es[j].record.sparkl.value.prevdigest.Some?
  }

  /** A stream without a size closes a block on every record. */
  lemma SizelessFinalisesEvery(c: Call, d0: map<string, StateRecord>, k: nat)
    requires ChainLaws(c.env.prims, c.hooks.chain)
    requires !c.batch.sized && k <= |c.batch.events|
    ensures AllClose(Process(c, d0, k).out) && AllClose(Process(c, d0, k).errors)
  {
    var inv := (s: Progress, i: nat) => AllClose(s.out) && AllClose(s.errors);
    forall s: Progress, i: nat {:trigger EventStep(c, s, i)} | i < k && inv(s, i) ensures inv(EventStep(c, s, i), i + 1) {
      EventStepShape(c, s, i);
      var meta := BaseMeta(i, c.env.exec, c.blockId);
      var ev := c.batch.events[i];
      var run := EventStep(c, s, i).runDigest;
      assert StepLaw(c.env.prims, Lookup(s.digests, c.tag), meta, run, c.hooks.chain(Lookup(s.digests, c.tag), ev.time, c.batch.clock, meta, run));
    }
    ProcessInvariant(c, d0, inv, k);
  }

  // ---------------------------------------------------------------------------
  // The chain a tag's blocks form
  // ---------------------------------------------------------------------------

  /** The metadata of the records that close a block, in stream order. */
  function Blocks(es: seq<Event>): (bs: seq<Meta>)
    ensures forall i :: 0 <= i < |bs| ==> bs[i].digest.Some?
    decreases |es|
  {
    if es == [] then []
    else
      var ev := es[|es| - 1];
      var tail := if ev.record.sparkl.Some? && ev.record.sparkl.value.digest.Some? then [ev.record.sparkl.value] else [];
      Blocks(es[..|es| - 1]) + tail
  }

  lemma {:induction false} BlocksAppend(a: seq<Event>, b: seq<Event>)
    ensures Blocks(a + b) == Blocks(a) + Blocks(b)
    decreases |b|
  {
    if b == [] {
      assert a + b == a;
    } else {
      var b' := b[..|b| - 1];
      BlocksAppend(a, b');
      assert (a + b)[..|a + b| - 1] == a + b';
      assert (a + b)[|a + b| - 1] == b[|b| - 1];
    }
  }

  /** The digest the chain ends in after blocks `bs`, starting from `genesis`. */
  function ChainHead(p: Primitives, bs: seq<Meta>, genesis: string): string
  {
    if bs == [] then genesis
    else
      var m := bs[|bs| - 1];
      if m.prevdigest.Some? && m.digest.Some? then Fold(p, RawInner, m.prevdigest.value, m.digest.value) else ""
  }

  /**
    Blocks `bs` form a chain from `genesis`: each carries a digest and names
    as its predecessor the head of the chain before it, which for the first
    block is `genesis`.
   */
  ghost predicate Linked(p: Primitives, bs: seq<Meta>, genesis: string)
    decreases |bs|
  {
    bs != [] ==>
      var m := bs[|bs| - 1];
      && Linked(p, bs[..|bs| - 1], genesis)
      && m.digest.Some?
      && m.prevdigest == Some(ChainHead(p, bs[..|bs| - 1], genesis))
  }

  /** Two linked runs of blocks, the second starting at the head of the first, form one linked run. */
  lemma {:induction false} LinkedAppend(p: Primitives, b0: seq<Meta>, b1: seq<Meta>, genesis: string)
    requires Linked(p, b0, genesis) && Linked(p, b1, ChainHead(p, b0, genesis))
    ensures Linked(p, b0 + b1, genesis)
    ensures ChainHead(p, b0 + b1, genesis) == ChainHead(p, b1, ChainHead(p, b0, genesis))
    decreases |b1|
  {
    if b1 == [] {
      assert b0 + b1 == b0;
    } else {
      var b1' := b1[..|b1| - 1];
      LinkedAppend(p, b0, b1', genesis);
      var bs := b0 + b1;
      assert bs[..|bs| - 1] == b0 + b1';
      assert bs[|bs| - 1] == b1[|b1| - 1];
    }
  }

  /**
    The chain facts a run of records keeps, from entry `e0` to entry `e`: its
    blocks are linked from the head of `e0`, the head of `e` is the head of
    that chain, and `:first` is set by the first block if it was unset.
   */
  ghost predicate ChainKept(p: Primitives, e0: StateRecord, e: StateRecord, out: seq<Event>)
  {
    var bs := Blocks(out);
    && Linked(p, bs, Head(e0))
    && Head(e) == ChainHead(p, bs, Head(e0))
    && (bs == [] ==> e.last == e0.last && e.first == e0.first)
    && (bs != [] ==> e.last.Some?)
    && e.first == (if e0.first.Some? || bs == [] then e0.first else Some(ChainHead(p, bs[..1], Head(e0))))
  }

  /** A record that closes no block keeps the chain facts. */
  lemma ChainKeptPlain(p: Primitives, e0: StateRecord, e: StateRecord, out: seq<Event>, ev: Event)
    requires ChainKept(p, e0, e, out)
    requires ev.record.sparkl.Some? ==> ev.record.sparkl.value.digest.None?
    ensures ChainKept(p, e0, e, out + [ev])
  {
    BlocksAppend(out, [ev]);
    assert Blocks([ev]) == [];
    assert Blocks(out + [ev]) == Blocks(out);
  }

  /** A block linked onto the head of `e` moves the chain facts on to the entry `e'` it produced. */
  lemma ChainKeptLink(p: Primitives, e0: StateRecord, e: StateRecord, out: seq<Event>, ev: Event, e': StateRecord)
    requires ChainKept(p, e0, e, out)
    requires ev.record.sparkl.Some? && ev.record.sparkl.value.digest.Some?
    requires var m := ev.record.sparkl.value;
      && m.prevdigest == Some(Head(e))
      && e'.last == Some(Fold(p, RawInner, Head(e), m.digest.value))
      && e'.first == (if e.first.Some? then e.first else e'.last)
    ensures ChainKept(p, e0, e', out + [ev])
  {
    var m := ev.record.sparkl.value;
    var bs := Blocks(out);
    BlocksAppend(out, [ev]);
    assert Blocks([ev]) == [m];
    assert Blocks(out + [ev]) == bs + [m];
    assert (bs + [m])[..|bs|] == bs;
    if bs != [] {
      assert (bs + [m])[..1] == bs[..1];
    }
  }

  /** One event keeps the chain facts, as long as it does not raise. */
  lemma ChainKeptStep(c: Call, e0: StateRecord, s: Progress, i: nat)
    requires ChainLaws(c.env.prims, c.hooks.chain)
    requires i < |c.batch.events|
    requires ChainKept(c.env.prims, e0, Lookup(s.digests, c.tag), s.out)
    requires EventStep(c, s, i).errors == s.errors
    ensures ChainKept(c.env.prims, e0, Lookup(EventStep(c, s, i).digests, c.tag), EventStep(c, s, i).out)
  {
    var p := c.env.prims;
    EventStepShape(c, s, i);
    var s' := EventStep(c, s, i);
    var meta := BaseMeta(i, c.env.exec, c.blockId);
    var e := Lookup(s.digests, c.tag);
    if Finalises(c.batch, i) {
      var ev := c.batch.events[i];
      var r := c.hooks.chain(e, ev.time, c.batch.clock, meta, s'.runDigest);
      assert StepLaw(p, e, meta, s'.runDigest, r);
      assert r.raised.None?;
      assert Lookup(s'.digests, c.tag) == r.entry;
      ChainKeptLink(p, e0, e, s.out, Tagged(c, i, r.meta), r.entry);
    } else {
      ChainKeptPlain(p, e0, e, s.out, Tagged(c, i, meta));
    }
  }

  /** Within a batch that raises nothing, the closing records extend the tag's chain. */
  lemma ProcessKeepsChain(c: Call, d0: map<string, StateRecord>, k: nat)
    requires ChainLaws(c.env.prims, c.hooks.chain)
    requires k <= |c.batch.events|
    requires Process(c, d0, k).errors == []
    ensures ChainKept(c.env.prims, Lookup(d0, c.tag), Lookup(Process(c, d0, k).digests, c.tag), Process(c, d0, k).out)
  {
    var e0 := Lookup(d0, c.tag);
    var inv := (s: Progress, i: nat) => s.errors == [] ==> ChainKept(c.env.prims, e0, Lookup(s.digests, c.tag), s.out);
    forall s: Progress, i: nat {:trigger EventStep(c, s, i)} | i < k && inv(s, i) ensures inv(EventStep(c, s, i), i + 1) {
      EventStepShape(c, s, i);
      if EventStep(c, s, i).errors == [] {
        ChainKeptStep(c, e0, s, i);
      }
    }
    assert Blocks([]) == [];
    ProcessInvariant(c, d0, inv, k);
  }

  /** Chain facts compose: from `e0` to `e1` and from `e1` to `e2` give from `e0` to `e2`. */
  lemma ChainKeptAppend(p: Primitives, e0: StateRecord, e1: StateRecord, e2: StateRecord, out0: seq<Event>, out1: seq<Event>)
    requires ChainKept(p, e0, e1, out0) && ChainKept(p, e1, e2, out1)
    ensures ChainKept(p, e0, e2, out0 + out1)
  {
    BlocksAppend(out0, out1);
    var b0, b1 := Blocks(out0), Blocks(out1);
    LinkedAppend(p, b0, b1, Head(e0));
    if b0 == [] {
      assert b0 + b1 == b1;
    } else {
      assert (b0 + b1)[..1] == b0[..1];
    }
    if b1 == [] {
      assert b0 + b1 == b0;
    }
  }

  /** Records from a batch on one tag keep every other tag's digest entry as it was. */
  lemma ProcessOtherTags(c: Call, d0: map<string, StateRecord>, k: nat, other: string)
    requires other != c.tag && k <= |c.batch.events|
    ensures Lookup(Process(c, d0, k).digests, other) == Lookup(d0, other)
  {
    var inv := (s: Progress, i: nat) => Lookup(s.digests, other) == Lookup(d0, other);
    forall s: Progress, i: nat {:trigger EventStep(c, s, i)} | i < k && inv(s, i) ensures inv(EventStep(c, s, i), i + 1) {
      EventStepShape(c, s, i);
    }
    ProcessInvariant(c, d0, inv, k);
  }

  /** Once a tag has a first digest, no record of a batch changes it. */
  lemma ProcessKeepsFirst(c: Call, d0: map<string, StateRecord>, k: nat)
    requires ChainLaws(c.env.prims, c.hooks.chain)
    requires k <= |c.batch.events| && Lookup(d0, c.tag).first.Some?
    ensures Lookup(Process(c, d0, k).digests, c.tag).first == Lookup(d0, c.tag).first
  {
    var inv := (s: Progress, i: nat) => Lookup(s.digests, c.tag).first == Lookup(d0, c.tag).first;
    forall s: Progress, i: nat {:trigger EventStep(c, s, i)} | i < k && inv(s, i) ensures inv(EventStep(c, s, i), i + 1) {
      EventStepShape(c, s, i);
      if Finalises(c.batch, i) {
        var meta := BaseMeta(i, c.env.exec, c.blockId);
        var run := EventStep(c, s, i).runDigest;
        var ev := c.batch.events[i];
        assert StepLaw(c.env.prims, Lookup(s.digests, c.tag), meta, run, c.hooks.chain(Lookup(s.digests, c.tag), ev.time, c.batch.clock, meta, run));
      }
    }
    ProcessInvariant(c, d0, inv, k);
  }

  // ---------------------------------------------------------------------------
  // Successive batches
  // ---------------------------------------------------------------------------

  /** One `filter_stream` call after others: the call it makes and what it appends. */
  lemma BatchStepShape(h: Hooks, env: Env, tag: string, bs: seq<Batch>, r: FilterResult, j: nat)
    requires j < |bs|
    ensures var c := Call(env, tag, NextBlockId(r.state.ids, tag), bs[j], h);
      var P := Process(c, r.state.digests, |bs[j].events|);
      var r' := BatchStepAt(h, env, tag, bs)(r, j);
      && r'.state.digests == P.digests
      && r'.state.ids == r.state.ids[tag := Lookup(r.state.ids, tag).(index := Some(c.blockId + 1))]
      && r'.out == r.out + P.out
      && r'.errors == r.errors + P.errors
  {
    var f := FilterSpec(h, env, r.state, tag, bs[j]);
    assert BatchStepAt(h, env, tag, bs)(r, j) == FilterResult(f.state, r.out + f.out, r.errors + f.errors);
  }

  /**
    The blocks of all batches of a tag form one chain, starting at the tag's
    head before the first batch; `:first` is set by the first block ever and
    kept afterwards.
   */
  lemma RunBatchesChain(h: Hooks, env: Env, st: RegState, tag: string, bs: seq<Batch>)
    requires ChainLaws(env.prims, h.chain)
    requires RunBatches(h, env, st, tag, bs).errors == []
    ensures var R := RunBatches(h, env, st, tag, bs);
      ChainKept(env.prims, Lookup(st.digests, tag), Lookup(R.state.digests, tag), R.out)
  {
    var e0 := Lookup(st.digests, tag);
    var step := BatchStepAt(h, env, tag, bs);
    var inv := (r: FilterResult, j: nat) => r.errors == [] ==> ChainKept(env.prims, e0, Lookup(r.state.digests, tag), r.out);
    forall r: FilterResult, j: nat {:trigger step(r, j)} | j < |bs| && inv(r, j) ensures inv(step(r, j), j + 1) {
      BatchStepShape(h, env, tag, bs, r, j);
      var c := Call(env, tag, NextBlockId(r.state.ids, tag), bs[j], h);
      var P := Process(c, r.state.digests, |bs[j].events|);
      if step(r, j).errors == [] {
        ProcessKeepsChain(c, r.state.digests, |bs[j].events|);
        ChainKeptAppend(env.prims, e0, Lookup(r.state.digests, tag), Lookup(P.digests, tag), r.out, P.out);
      }
    }
    assert Blocks([]) == [];
    StepsInvariant(step, FilterResult(st, [], []), inv, |bs|);
  }

  // ---------------------------------------------------------------------------
  // The chain over both streams
  // ---------------------------------------------------------------------------

  /**
    The records of one batch's output and error stream merged back into
    arrival order, by the index each carries in its `.sparkl` slot.
   */
  function Merge(out: seq<Event>, errors: seq<Event>): seq<Event>
    decreases |out| + |errors|
  {
    if out == [] then errors
    else if errors == [] then out
    else if IndexOf(out[|out| - 1]) > IndexOf(errors[|errors| - 1]) then Merge(out[..|out| - 1], errors) + [out[|out| - 1]]
    else Merge(out, errors[..|errors| - 1]) + [errors[|errors| - 1]]
  }

  /** `all` is `out` and `errors` merged, each keeping its order. */
  ghost predicate Interleaves(all: seq<Event>, out: seq<Event>, errors: seq<Event>)
    decreases |all|
  {
    if all == [] then out == [] && errors == []
    else
      var x := all[|all| - 1];
      var rest := all[..|all| - 1];
      || (out != [] && out[|out| - 1] == x && Interleaves(rest, out[..|out| - 1], errors))
      || (errors != [] && errors[|errors| - 1] == x && Interleaves(rest, out, errors[..|errors| - 1]))
  }

  /** One more record in either stream extends the merge. */
  lemma InterleavesSnoc(all: seq<Event>, out: seq<Event>, errors: seq<Event>, x: Event)
    requires Interleaves(all, out, errors)
    ensures Interleaves(all + [x], out + [x], errors)
    ensures Interleaves(all + [x], out, errors + [x])
  {
    assert (all + [x])[..|all|] == all;
    assert (out + [x])[..|out|] == out;
    assert (errors + [x])[..|errors|] == errors;
  }

  /** `Merge` merges: it keeps the order of each stream and drops and adds nothing. */
  lemma {:induction false} MergeInterleaves(out: seq<Event>, errors: seq<Event>)
    ensures Interleaves(Merge(out, errors), out, errors)
    decreases |out| + |errors|
  {
    if out == [] && errors == [] {
    } else if out == [] {
      var e' := errors[..|errors| - 1];
      MergeInterleaves(out, e');
      assert errors == e' + [errors[|errors| - 1]];
      InterleavesSnoc(e', out, e', errors[|errors| - 1]);
    } else if errors == [] {
      var o' := out[..|out| - 1];
      MergeInterleaves(o', errors);
      assert out == o' + [out[|out| - 1]];
      InterleavesSnoc(o', o', errors, out[|out| - 1]);
    } else if IndexOf(out[|out| - 1]) > IndexOf(errors[|errors| - 1]) {
      var o' := out[..|out| - 1];
      MergeInterleaves(o', errors);
      assert out == o' + [out[|out| - 1]];
      InterleavesSnoc(Merge(o', errors), o', errors, out[|out| - 1]);
    } else {
      var e' := errors[..|errors| - 1];
      MergeInterleaves(out, e');
      assert errors == e' + [errors[|errors| - 1]];
      InterleavesSnoc(Merge(out, e'), out, e', errors[|errors| - 1]);
    }
  }

  /** Merges of consecutive parts concatenate. */
  lemma {:induction false} InterleavesAppend(a: seq<Event>, o1: seq<Event>, e1: seq<Event>, b: seq<Event>, o2: seq<Event>, e2: seq<Event>)
    requires Interleaves(a, o1, e1) && Interleaves(b, o2, e2)
    ensures Interleaves(a + b, o1 + o2, e1 + e2)
    decreases |b|
  {
    if b == [] {
      assert a + b == a && o1 + o2 == o1 && e1 + e2 == e1;
    } else {
      var x := b[|b| - 1];
      var b' := b[..|b| - 1];
      assert a + b == (a + b') + [x];
      if o2 != [] && o2[|o2| - 1] == x && Interleaves(b', o2[..|o2| - 1], e2) {
        var o2' := o2[..|o2| - 1];
        InterleavesAppend(a, o1, e1, b', o2', e2);
        assert o1 + o2 == (o1 + o2') + [x];
        InterleavesSnoc(a + b', o1 + o2', e1 + e2, x);
      } else {
        var e2' := e2[..|e2| - 1];
        InterleavesAppend(a, o1, e1, b', o2, e2');
        assert e1 + e2 == (e1 + e2') + [x];
        InterleavesSnoc(a + b', o1 + o2, e1 + e2', x);
      }
    }
  }

  /** With nothing in the error stream, the merge is the output itself. */
  lemma {:induction false} InterleavesNoErrors(all: seq<Event>, out: seq<Event>)
    requires Interleaves(all, out, [])
    ensures all == out
    decreases |all|
  {
    if all != [] {
      InterleavesNoErrors(all[..|all| - 1], out[..|out| - 1]);
    }
  }

  /** A record newer than every record of both streams goes at the end of the merge, whichever stream it joins. */
  lemma MergeSnoc(out: seq<Event>, errors: seq<Event>, x: Event)
    requires forall j :: 0 <= j < |out| ==> IndexOf(out[j]) < IndexOf(x)
    requires forall j :: 0 <= j < |errors| ==> IndexOf(errors[j]) < IndexOf(x)
    ensures Merge(out + [x], errors) == Merge(out, errors) + [x]
    ensures Merge(out, errors + [x]) == Merge(out, errors) + [x]
  {
    assert (out + [x])[..|out|] == out;
    assert (errors + [x])[..|errors|] == errors;
  }

  /**
    One event keeps the chain facts over both streams merged, whichever
    stream its record goes to: `chain_block` links the block before it can
    raise (lines 165-172 run before 174-187).
   */
  lemma ChainKeptStepAny(c: Call, e0: StateRecord, s: Progress, i: nat)
    requires ChainLaws(c.env.prims, c.hooks.chain)
    requires i < |c.batch.events| && CarriedOnce(c, s.out, s.errors, i)
    requires ChainKept(c.env.prims, e0, Lookup(s.digests, c.tag), Merge(s.out, s.errors))
    ensures var s' := EventStep(c, s, i);
      ChainKept(c.env.prims, e0, Lookup(s'.digests, c.tag), Merge(s'.out, s'.errors))
  {
    var p := c.env.prims;
    EventStepShape(c, s, i);
    var s' := EventStep(c, s, i);
    var meta := BaseMeta(i, c.env.exec, c.blockId);
    var e := Lookup(s.digests, c.tag);
    var all := Merge(s.out, s.errors);
    CarriedGrows(c, s.out, i);
    CarriedGrows(c, s.errors, i);
    var x;
    if Finalises(c.batch, i) {
      var ev := c.batch.events[i];
      var r := c.hooks.chain(e, ev.time, c.batch.clock, meta, s'.runDigest);
      assert StepLaw(p, e, meta, s'.runDigest, r);
      x := Tagged(c, i, r.meta);
      assert Lookup(s'.digests, c.tag) == r.entry;
      ChainKeptLink(p, e0, e, all, x, r.entry);
    } else {
      x := Tagged(c, i, meta);
      ChainKeptPlain(p, e0, e, all, x);
    }
    assert IndexOf(x) == i;
    MergeSnoc(s.out, s.errors, x);
  }

  /** After `i` events: each has left once, and the two streams merged are a chain from `e0`. */
  ghost predicate ChainSoFar(c: Call, e0: StateRecord, s: Progress, i: nat)
  {
    CarriedOnce(c, s.out, s.errors, i) && ChainKept(c.env.prims, e0, Lookup(s.digests, c.tag), Merge(s.out, s.errors))
  }

  lemma ChainSoFarStep(c: Call, e0: StateRecord, s: Progress, i: nat)
    requires ChainLaws(c.env.prims, c.hooks.chain)
    requires i < |c.batch.events| && ChainSoFarInv(c, e0)(s, i)
    ensures ChainSoFarInv(c, e0)(EventStep(c, s, i), i + 1)
  {
    assert ChainSoFar(c, e0, s, i);
    CarriedOnceStep(c, s, i);
    ChainKeptStepAny(c, e0, s, i);
  }

  /**
    Within one batch, the records of the output and of the error stream,
    merged in arrival order, are a chain from the tag's head before the
    batch to its head after, whether or not `chain_block` raised on some of
    them.
   */
  lemma ProcessChainAll(c: Call, d0: map<string, StateRecord>, k: nat)
    requires ChainLaws(c.env.prims, c.hooks.chain)
    requires k <= |c.batch.events|
    ensures var P := Process(c, d0, k);
      ChainKept(c.env.prims, Lookup(d0, c.tag), Lookup(P.digests, c.tag), Merge(P.out, P.errors))
  {
    ProcessChainSoFar(c, d0, k);
    assert ChainSoFar(c, Lookup(d0, c.tag), Process(c, d0, k), k);
  }

  /** `ChainSoFar` as an invariant of the batch loop. */
  ghost function ChainSoFarInv(c: Call, e0: StateRecord): (Progress, nat) -> bool
  {
    (s: Progress, i: nat) => ChainSoFar(c, e0, s, i)
  }

  lemma ProcessChainSoFar(c: Call, d0: map<string, StateRecord>, k: nat)
    requires ChainLaws(c.env.prims, c.hooks.chain)
    requires k <= |c.batch.events|
    ensures ChainSoFarInv(c, Lookup(d0, c.tag))(Process(c, d0, k), k)
  {
    var e0 := Lookup(d0, c.tag);
    var inv := ChainSoFarInv(c, e0);
    forall s: Progress, i: nat {:trigger EventStep(c, s, i)} | i < k && inv(s, i) ensures inv(EventStep(c, s, i), i + 1) {
      ChainSoFarStep(c, e0, s, i);
    }
    ChainSoFarStart(c, d0);
    ProcessInvariant(c, d0, inv, k);
  }

  lemma ChainSoFarStart(c: Call, d0: map<string, StateRecord>)
    ensures ChainSoFarInv(c, Lookup(d0, c.tag))(Progress(d0, "", [], []), 0)
  {
    assert Merge([], []) == [] && Blocks([]) == [];
    assert ChainSoFar(c, Lookup(d0, c.tag), Progress(d0, "", [], []), 0);
  }

  /** What `k` steps of `step` from `s0` sent, step `i` sending `emit` of the state before it. */
  function StepsEmitted<S, T>(step: (S, nat) -> S, emit: (S, nat) -> seq<T>, s0: S, k: nat): seq<T>
    decreases k
  {
    if k == 0 then [] else StepsEmitted(step, emit, s0, k - 1) + emit(Steps(step, s0, k - 1), k - 1)
  }

  /** A property of the state and of what was sent that every step carries forward holds after any number of steps. */
  lemma {:induction false} StepsEmittedInvariant<S, T>(step: (S, nat) -> S, emit: (S, nat) -> seq<T>, s0: S, inv: (S, seq<T>) -> bool, k: nat)
    requires inv(s0, [])
    requires forall s: S, all: seq<T>, i: nat {:trigger step(s, i), inv(s, all)} ::
      i < k && inv(s, all) ==> inv(step(s, i), all + emit(s, i))
    ensures inv(Steps(step, s0, k), StepsEmitted(step, emit, s0, k))
    decreases k
  {
    if k > 0 {
      StepsEmittedInvariant(step, emit, s0, inv, k - 1);
    }
  }

  /** What `filter_stream` on batch `j` of `bs` sends to either stream, in arrival order. */
  function BatchEmitAt(h: Hooks, env: Env, tag: string, bs: seq<Batch>): (FilterResult, nat) -> seq<Event>
  {
    (r: FilterResult, j: nat) =>
      if j < |bs| then
        var P := Process(Call(env, tag, NextBlockId(r.state.ids, tag), bs[j], h), r.state.digests, |bs[j].events|);
        Merge(P.out, P.errors)
      else []
  }

  /** The records successive calls on one tag sent to either stream, call by call, each call's in arrival order. */
  function RunEmitted(h: Hooks, env: Env, st: RegState, tag: string, bs: seq<Batch>): seq<Event>
  {
    StepsEmitted(BatchStepAt(h, env, tag, bs), BatchEmitAt(h, env, tag, bs), FilterResult(st, [], []), |bs|)
  }

  /** One call keeps the chain facts over both streams. */
  lemma RunChainAllStep(h: Hooks, env: Env, tag: string, bs: seq<Batch>, e0: StateRecord, r: FilterResult, all: seq<Event>, j: nat)
    requires ChainLaws(env.prims, h.chain)
    requires j < |bs|
    requires Interleaves(all, r.out, r.errors) && ChainKept(env.prims, e0, Lookup(r.state.digests, tag), all)
    ensures var r' := BatchStepAt(h, env, tag, bs)(r, j);
      var all' := all + BatchEmitAt(h, env, tag, bs)(r, j);
      Interleaves(all', r'.out, r'.errors) && ChainKept(env.prims, e0, Lookup(r'.state.digests, tag), all')
  {
    BatchStepShape(h, env, tag, bs, r, j);
    var c := Call(env, tag, NextBlockId(r.state.ids, tag), bs[j], h);
    var P := Process(c, r.state.digests, |bs[j].events|);
    var E := Merge(P.out, P.errors);
    assert BatchEmitAt(h, env, tag, bs)(r, j) == E;
    ProcessChainAll(c, r.state.digests, |bs[j].events|);
    MergeInterleaves(P.out, P.errors);
    InterleavesAppend(all, r.out, r.errors, E, P.out, P.errors);
    ChainKeptAppend(env.prims, e0, Lookup(r.state.digests, tag), Lookup(P.digests, tag), all, E);
  }

  /**
    The blocks of all calls on a tag, including those whose closing record
    went to the error stream, form one chain from the tag's head before the
    first call: the records of the output and of the error stream, merged in
    the order they were sent, are linked, end at the tag's head, and set
    `:first` once. Without errors the merge is the output alone.
   */
  lemma RunBatchesChainAll(h: Hooks, env: Env, st: RegState, tag: string, bs: seq<Batch>)
    requires ChainLaws(env.prims, h.chain)
    ensures var R := RunBatches(h, env, st, tag, bs);
      var all := RunEmitted(h, env, st, tag, bs);
      && Interleaves(all, R.out, R.errors)
      && ChainKept(env.prims, Lookup(st.digests, tag), Lookup(R.state.digests, tag), all)
      && (R.errors == [] ==> all == R.out)
  {
    var e0 := Lookup(st.digests, tag);
    var step, emit := BatchStepAt(h, env, tag, bs), BatchEmitAt(h, env, tag, bs);
    var inv := (r: FilterResult, all: seq<Event>) =>
      Interleaves(all, r.out, r.errors) && ChainKept(env.prims, e0, Lookup(r.state.digests, tag), all);
    forall r: FilterResult, all: seq<Event>, j: nat {:trigger step(r, j), inv(r, all)} | j < |bs| && inv(r, all)
      ensures inv(step(r, j), all + emit(r, j))
    {
      RunChainAllStep(h, env, tag, bs, e0, r, all, j);
    }
    assert Blocks([]) == [];
    StepsEmittedInvariant(step, emit, FilterResult(st, [], []), inv, |bs|);
    var R := RunBatches(h, env, st, tag, bs);
    if R.errors == [] {
      InterleavesNoErrors(RunEmitted(h, env, st, tag, bs), R.out);
    }
  }

  /** Every record in `es` carries a block id in `[lo, hi)`, and block ids never decrease along `es`. */
  ghost predicate BlockIdsWithin(es: seq<Event>, lo: int, hi: int)
  {
    && (forall j :: 0 <= j < |es| ==> es[j].record.sparkl.Some? && lo <= es[j].record.sparkl.value.blockId < hi)
    && (forall j1, j2 :: 0 <= j1 < j2 < |es| ==> es[j1].record.sparkl.value.blockId <= es[j2].record.sparkl.value.blockId)
  }

  lemma BlockIdsAppend(a: seq<Event>, b: seq<Event>, lo: int, mid: int, hi: int)
    requires lo <= mid <= hi
    requires BlockIdsWithin(a, lo, mid) && BlockIdsWithin(b, mid, hi)
    ensures BlockIdsWithin(a + b, lo, hi)
  {
    var ab := a + b;
    forall j | 0 <= j < |ab| ensures ab[j].record.sparkl.Some? && lo <= ab[j].record.sparkl.value.blockId < hi {
      if j < |a| { assert ab[j] == a[j]; } else { assert ab[j] == b[j - |a|]; }
    }
    forall j1, j2 | 0 <= j1 < j2 < |ab| ensures ab[j1].record.sparkl.value.blockId <= ab[j2].record.sparkl.value.blockId {
      if j2 < |a| {
        assert ab[j1] == a[j1] && ab[j2] == a[j2];
      } else if j1 < |a| {
        assert ab[j1] == a[j1] && ab[j2] == b[j2 - |a|];
      } else {
        assert ab[j1] == b[j1 - |a|] && ab[j2] == b[j2 - |a|];
      }
    }
  }

  /** The records of one batch all carry the batch's block id. */
  lemma BatchBlockIds(c: Call, d0: map<string, StateRecord>)
    requires ChainLaws(c.env.prims, c.hooks.chain)
    ensures BlockIdsWithin(Process(c, d0, |c.batch.events|).out, c.blockId, c.blockId + 1)
  {
    ProcessCarries(c, d0, |c.batch.events|);
    var P := Process(c, d0, |c.batch.events|);
    forall j | 0 <= j < |P.out| ensures P.out[j].record.sparkl.Some? && P.out[j].record.sparkl.value.blockId == c.blockId {
      assert Carries(c, P.out[j], |c.batch.events|);
    }
  }

  /**
    After `j` batches of a run that started from counters `ids0`: the tag's
    counter has grown by `j`, and the records out carry block ids
    `base .. base + j - 1` in order, `base` being the counter at the start.
   */
  ghost predicate BlockIdsAfter(ids0: map<string, StateRecord>, tag: string, r: FilterResult, j: nat)
  {
    var base := NextBlockId(ids0, tag);
    && Lookup(r.state.ids, tag).index == (if j == 0 then Lookup(ids0, tag).index else Some(base + j))
    && BlockIdsWithin(r.out, base, base + j)
  }

  /** Each `filter_stream` call takes the tag's counter as its block id and advances it by one. */
  lemma BlockIdsStep(h: Hooks, env: Env, ids0: map<string, StateRecord>, tag: string, bs: seq<Batch>, r: FilterResult, j: nat)
    requires ChainLaws(env.prims, h.chain)
    requires j < |bs| && BlockIdsAfter(ids0, tag, r, j)
    ensures BlockIdsAfter(ids0, tag, BatchStepAt(h, env, tag, bs)(r, j), j + 1)
  {
    var base := NextBlockId(ids0, tag);
    BatchStepShape(h, env, tag, bs, r, j);
    var c := Call(env, tag, NextBlockId(r.state.ids, tag), bs[j], h);
    assert c.blockId == base + j;
    BatchBlockIds(c, r.state.digests);
    BlockIdsAppend(r.out, Process(c, r.state.digests, |bs[j].events|).out, base, base + j, base + j + 1);
  }

  /** The counter `filter_stream` reads before each batch: batch `j` of a run gets block id `base + j`. */
  lemma RunBatchesBlockIds(h: Hooks, env: Env, st: RegState, tag: string, bs: seq<Batch>)
    requires ChainLaws(env.prims, h.chain)
    ensures BlockIdsAfter(st.ids, tag, RunBatches(h, env, st, tag, bs), |bs|)
  {
    var step := BatchStepAt(h, env, tag, bs);
    var inv := (r: FilterResult, j: nat) => BlockIdsAfter(st.ids, tag, r, j);
    forall r: FilterResult, j: nat {:trigger step(r, j)} | j < |bs| && inv(r, j) ensures inv(step(r, j), j + 1) {
      BlockIdsStep(h, env, st.ids, tag, bs, r, j);
    }
    StepsInvariant(step, FilterResult(st, [], []), inv, |bs|);
  }

  /** A run of batches on one tag leaves every other tag's entries as they were. */
  lemma RunBatchesOtherTags(h: Hooks, env: Env, st: RegState, tag: string, bs: seq<Batch>, other: string)
    requires other != tag
    ensures Lookup(RunBatches(h, env, st, tag, bs).state.ids, other) == Lookup(st.ids, other)
    ensures Lookup(RunBatches(h, env, st, tag, bs).state.digests, other) == Lookup(st.digests, other)
  {
    var step := BatchStepAt(h, env, tag, bs);
    var inv := (r: FilterResult, j: nat) =>
      Lookup(r.state.ids, other) == Lookup(st.ids, other) && Lookup(r.state.digests, other) == Lookup(st.digests, other);
    forall r: FilterResult, j: nat {:trigger step(r, j)} | j < |bs| && inv(r, j) ensures inv(step(r, j), j + 1) {
      BatchStepShape(h, env, tag, bs, r, j);
      var c := Call(env, tag, NextBlockId(r.state.ids, tag), bs[j], h);
      ProcessOtherTags(c, r.state.digests, |bs[j].events|, other);
    }
    StepsInvariant(step, FilterResult(st, [], []), inv, |bs|);
  }

  /** Once a tag has a first digest, no batch changes it, whatever else happens. */
  lemma FirstNeverChanges(h: Hooks, env: Env, st: RegState, tag: string, bs: seq<Batch>)
    requires ChainLaws(env.prims, h.chain)
    requires Lookup(st.digests, tag).first.Some?
    ensures Lookup(RunBatches(h, env, st, tag, bs).state.digests, tag).first == Lookup(st.digests, tag).first
  {
    var step := BatchStepAt(h, env, tag, bs);
    var inv := (r: FilterResult, j: nat) => Lookup(r.state.digests, tag).first == Lookup(st.digests, tag).first;
    forall r: FilterResult, j: nat {:trigger step(r, j)} | j < |bs| && inv(r, j) ensures inv(step(r, j), j + 1) {
      BatchStepShape(h, env, tag, bs, r, j);
      var c := Call(env, tag, NextBlockId(r.state.ids, tag), bs[j], h);
      ProcessKeepsFirst(c, r.state.digests, |bs[j].events|);
    }
    StepsInvariant(step, FilterResult(st, [], []), inv, |bs|);
  }
}
