/**
  The records, the per-tag state and the block step of the sparkl filter
  (`chain_block` and `send_digest` in lib/fluent/plugin/filter_sparkl.rb),
  as values and functions. The class `SparklFilter.Filter` runs the same
  step on its mutable registry and is proved to agree with `ChainBlockSpec`.
 */
module ChainModel {
  import opened Wrappers
  import opened Canonical
  import opened Digests

  /** The slot of a record that the filter writes its metadata into. */
  const SparklKey: string := ".sparkl"

  /**
    The `.sparkl` metadata of one record. The first three slots are set on
    every record; the others only on the record that closes a block, and a
    slot never written is `None` (the Ruby hash has no such key).
   */
  datatype Meta = Meta(
    index: int,                // position in its batch
    exec: string,              // @@execution_id
    blockId: int,              // the batch's number for its tag
    digest: Option<string>,    // the batch's running digest
    streamTag: Option<string>, // "class": the tag
    prevdigest: Option<string>,
    blockIndex: Option<int>,   // "block_index": the anchor number
    get: Option<string>,       // the ledger URL of the anchor transaction
    received: Option<string>)  // the ledger's confirmation time, as text

  /** The three slots every record of a batch gets. */
  function BaseMeta(index: int, exec: string, blockId: int): Meta
  {
    Meta(index, exec, blockId, None, None, None, None, None, None)
  }

  /** A record leaving the filter: its other slots, and its `.sparkl` metadata if any. */
  datatype Record = Record(fields: seq<Entry>, sparkl: Option<Meta>)

  datatype Event = Event(time: int, record: Record)

  /** The record as hashed by the chain check: its `.sparkl` slot deleted. */
  function Body(r: Record): Value
  {
    Hash(r.fields)
  }

  function Bodies(rs: seq<Record>): (bs: seq<Value>)
    ensures |bs| == |rs|
    ensures forall i :: 0 <= i < |rs| ==> bs[i] == Body(rs[i])
  {
    seq(|rs|, i requires 0 <= i < |rs| => Body(rs[i]))
  }

  /** The records of a stream of events. */
  function Records(es: seq<Event>): (rs: seq<Record>)
    ensures |rs| == |es|
    ensures forall i :: 0 <= i < |es| ==> rs[i] == es[i].record
  {
    seq(|es|, i requires 0 <= i < |es| => es[i].record)
  }

  /** The slots of a record other than `k`, in their order. */
  function WithoutKey(es: seq<Entry>, k: string): seq<Entry>
  {
    if es == [] then []
    else if es[0].key == k then WithoutKey(es[1..], k)
    else [es[0]] + WithoutKey(es[1..], k)
  }

  /** Removing a slot keeps exactly the other slots. */
  lemma {:induction false} WithoutKeyMembers(es: seq<Entry>, k: string)
    ensures forall e :: e in WithoutKey(es, k) <==> e in es && e.key != k
  {
    if es != [] {
      WithoutKeyMembers(es[1..], k);
      assert es == [es[0]] + es[1..];
    }
  }

  /** Removing a slot the record does not have changes nothing. */
  lemma {:induction false} WithoutKeyAbsent(es: seq<Entry>, k: string)
    requires forall i :: 0 <= i < |es| ==> es[i].key != k
    ensures WithoutKey(es, k) == es
  {
    if es != [] {
      WithoutKeyAbsent(es[1..], k);
      assert es == [es[0]] + es[1..];
    }
  }

  /** `interval_type`: "count", "time", or anything else (no anchoring). */
  datatype IntervalType = Count | Time | NoInterval

  /** The four configuration parameters of the filter. */
  datatype Config = Config(
    intervalType: IntervalType,
    actionInterval: int,
    coinnet: string,
    coinnetToken: Option<string>)

  /** One output of a ledger transaction: its `script_type` and `data_hex`. */
  datatype LedgerOutput = LedgerOutput(scriptType: string, dataHex: Option<string>)

  /** A ledger transaction as fetched: its `received` time and its outputs. */
  datatype LedgerTxn = LedgerTxn(received: Option<string>, outputs: seq<LedgerOutput>)

  /**
    The BlockCypher HTTP calls. `post(uri, data)` is the `hash` of the
    transaction created, or `None` when the call raises or the answer has
    no hash; `fetch(url)` is the transaction, or `None` when the call raises.
   */
  datatype Ledger = Ledger(
    post: (string, string) -> Option<string>,
    fetch: string -> Option<LedgerTxn>)

  /** What a filter instance works with: its configuration, the primitives, the ledger and @@execution_id. */
  datatype Env = Env(config: Config, prims: Primitives, ledger: Ledger, exec: string)

  /**
    One entry of @@state (without its mutex). Under `:id` only `index` is
    used; under `:digest` all four are.
   */
  datatype StateRecord = StateRecord(
    index: Option<int>,
    last: Option<string>,
    first: Option<string>,
    count: Option<int>)

  /** The entry `get_state` creates for a tag it has not seen. */
  const Fresh: StateRecord := StateRecord(None, None, None, None)

  /** The entry of `tag`, a fresh one when there is none. */
  function Lookup(m: map<string, StateRecord>, tag: string): StateRecord
  {
    if tag in m then m[tag] else Fresh
  }

  /** The chain head of a digest entry: its `:last`, or "" before its first block. */
  function Head(e: StateRecord): string
  {
    if e.last.Some? then e.last.value else ""
  }

  /** What `chain_block` keeps true of a digest entry: once linked, it has an anchor index and a first digest. */
  ghost predicate WellFormed(e: StateRecord)
  {
    e.last.Some? ==> e.index.Some? && e.first.Some?
  }

  /** The exceptions `chain_block` can raise. */
  datatype ChainError =
    | NilToken  // `+ @coinnet_token` with no token configured
    | NilCount  // `:count` unset: the tag's first block ran with no interval type
    | NilIndex  // `:index` unset

  // ---------------------------------------------------------------------------
  // send_digest
  // ---------------------------------------------------------------------------

  const ApiBase: string := "https://api.blockcypher.com/v1/"

  function PostUri(cfg: Config): string
    requires cfg.coinnetToken.Some?
  {
    ApiBase + cfg.coinnet + "/txs/data?token=" + cfg.coinnetToken.value
  }

  function TxUrl(cfg: Config, hash: string): string
  {
    ApiBase + cfg.coinnet + "/txs/" + hash
  }

  /**
    `send_digest`: commits to the chain on the ledger and records the
    outcome in the block's metadata. Without a token it raises; ledger
    failures are swallowed.
   */
  function SendDigest(env: Env, m: Meta, first: string, last: string, index: Option<int>): (r: Result<Meta, ChainError>)
    ensures r.Failure? <==> env.config.coinnetToken.None?
    ensures r.Failure? ==> r.error == NilToken
    ensures r.Success? ==>
      var posted := env.ledger.post(PostUri(env.config), AnchorPayload(env.prims, first, index, last));
      // block_index is recorded whatever the ledger does
      && r.value.blockIndex == index
      // a transaction URL is recorded exactly when the payload was accepted
      && (posted.Some? ==> r.value.get == Some(TxUrl(env.config, posted.value)))
      && (posted.None? ==> r.value.get == m.get)
      // the confirmation time is the fetched one, or is left alone
      && (posted.None? ==> r.value.received == m.received)
      && (posted.Some? ==>
            var fetched := env.ledger.fetch(TxUrl(env.config, posted.value));
            r.value.received == if fetched.Some? then fetched.value.received else m.received)
      // nothing else in the metadata changes
      && r.value == m.(blockIndex := index, get := r.value.get, received := r.value.received)
  {
    if env.config.coinnetToken.None? then Failure(NilToken)
    else
      var payload := AnchorPayload(env.prims, first, index, last);
      var m1 := m.(blockIndex := index);
      match env.ledger.post(PostUri(env.config), payload)
      case None => Success(m1)
      case Some(hash) =>
        var url := TxUrl(env.config, hash);
        var m2 := m1.(get := Some(url));
        match env.ledger.fetch(url)
        case None => Success(m2)
        case Some(txn) => Success(m2.(received := txn.received))
  }

  // ---------------------------------------------------------------------------
  // chain_block
  // ---------------------------------------------------------------------------

  /** The outcome of `chain_block`: the new digest entry, the block's metadata, and the exception if one was raised. */
  datatype BlockStep = BlockStep(entry: StateRecord, meta: Meta, raised: Option<ChainError>)

  /** The entry after the first-use set-up of `chain_block`; `now` is `Time.now.to_i`. */
  function Initialised(cfg: Config, e: StateRecord, now: int): (r: StateRecord)
    ensures r.last.Some?
    ensures e.last.Some? ==> r == e
    ensures e.last.None? ==> r.last == Some("") && r.index == Some(0) && r.first == e.first
    ensures WellFormed(e) ==> r.index.Some?
  {
    if e.last.Some? then e
    else
      var count := match cfg.intervalType
        case Count => Some(0)
        case Time => Some(now)
        case NoInterval => e.count;
      e.(last := Some(""), index := Some(0), count := count)
  }

  /**
    The anchoring part of `chain_block`: `send_digest`, then the counter set
    to `resetCount` and the anchor index advanced.
   */
  function Anchor(env: Env, e: StateRecord, m: Meta, resetCount: int): (r: BlockStep)
    requires e.first.Some? && e.last.Some?
    ensures r.entry.last == e.last && r.entry.first == e.first
    ensures r.raised.None? ==> r.entry.count == Some(resetCount) && e.index.Some? && r.entry.index == Some(e.index.value + 1)
    ensures r.raised.Some? ==> r.raised == Some(NilToken) || r.raised == Some(NilIndex)
    ensures r.raised == Some(NilIndex) <==> env.config.coinnetToken.Some? && e.index.None?
  {
    match SendDigest(env, m, e.first.value, e.last.value, e.index)
    case Failure(err) => BlockStep(e, m, Some(err))
    case Success(m1) =>
      var e1 := e.(count := Some(resetCount));
      if e1.index.None? then BlockStep(e1, m1, Some(NilIndex))
      else BlockStep(e1.(index := Some(e1.index.value + 1)), m1, None)
  }

  /**
    `chain_block`: links the block whose running digest `m.digest` holds to
    the tag's chain, then applies the anchoring policy. `time` is the
    block's event time.
   */
  function ChainBlockSpec(env: Env, e: StateRecord, tag: string, time: int, now: int, m: Meta): (r: BlockStep)
    requires m.digest.Some?
    // the block names its predecessor: the chain head before the call
    ensures r.meta.prevdigest == Some(Head(e))
    // the new head folds this block's running digest onto that predecessor
    ensures r.entry.last == Some(Fold(env.prims, RawInner, Head(e), m.digest.value))
    // :first is set by the tag's first block and never changed afterwards
    ensures r.entry.first == (if e.first.Some? then e.first else r.entry.last)
    ensures r.meta.streamTag == Some(tag)
    ensures r.meta.index == m.index && r.meta.exec == m.exec && r.meta.blockId == m.blockId && r.meta.digest == m.digest
    ensures WellFormed(e) ==> WellFormed(r.entry) && r.raised != Some(NilIndex)
    ensures env.config.intervalType == NoInterval ==> r.raised.None? && r.entry.index == Initialised(env.config, e, now).index
  {
    var cfg := env.config;
    var e1 := Initialised(cfg, e, now);
    var prev := e1.last.value;
    var m1 := m.(streamTag := Some(tag), prevdigest := Some(prev));
    var last := Fold(env.prims, RawInner, prev, m.digest.value);
    var e2 := e1.(last := Some(last), first := if e1.first.None? then Some(last) else e1.first);
    match cfg.intervalType
    case NoInterval => BlockStep(e2, m1, None)
    case Count =>
      if e2.count.None? then BlockStep(e2, m1, Some(NilCount))
      else
        var e3 := e2.(count := Some(e2.count.value + 1));
        if e3.count.value == cfg.actionInterval then Anchor(env, e3, m1, 0)
        else BlockStep(e3, m1, None)
    case Time =>
      if e2.count.None? then BlockStep(e2, m1, Some(NilCount))
      else
        var expiry := e2.count.value + cfg.actionInterval;
        if time >= expiry then Anchor(env, e2, m1, expiry)
        else BlockStep(e2, m1, None)
  }

  /** Whether the block step ran `send_digest`: it recorded an anchor index or raised from it. */
  predicate Anchored(r: BlockStep)
  {
    r.meta.blockIndex.Some? || r.raised == Some(NilToken)
  }

  /**
    Count mode: each block advances the counter; the block that brings it to
    `action_interval` is anchored with the current anchor index, after which
    the counter restarts at 0 and the index grows by one. Other blocks leave
    the index alone.
   */
  lemma CountModeStep(env: Env, e: StateRecord, tag: string, time: int, now: int, m: Meta)
    requires m.digest.Some? && m.blockIndex.None?
    requires env.config.intervalType == Count && env.config.coinnetToken.Some?
    requires WellFormed(e) && Initialised(env.config, e, now).count.Some?
    ensures var i := Initialised(env.config, e, now);
      var r := ChainBlockSpec(env, e, tag, time, now, m);
      && r.raised.None?
      && (Anchored(r) <==> i.count.value + 1 == env.config.actionInterval)
      && (Anchored(r) ==>
            r.meta.blockIndex == i.index && r.entry.count == Some(0) && r.entry.index == Some(i.index.value + 1))
      && (!Anchored(r) ==> r.entry.count == Some(i.count.value + 1) && r.entry.index == i.index)
  {
  }

  /**
    Time mode: a block is anchored exactly when its time has reached
    `:count + action_interval`; the counter then advances by exactly
    `action_interval` (not to the block's time) and the index grows by one.
   */
  lemma TimeModeStep(env: Env, e: StateRecord, tag: string, time: int, now: int, m: Meta)
    requires m.digest.Some? && m.blockIndex.None?
    requires env.config.intervalType == Time && env.config.coinnetToken.Some?
    requires WellFormed(e) && Initialised(env.config, e, now).count.Some?
    ensures var i := Initialised(env.config, e, now);
      var r := ChainBlockSpec(env, e, tag, time, now, m);
      && r.raised.None?
      && (Anchored(r) <==> time >= i.count.value + env.config.actionInterval)
      && (Anchored(r) ==>
            r.meta.blockIndex == i.index
            && r.entry.count == Some(i.count.value + env.config.actionInterval)
            && r.entry.index == Some(i.index.value + 1))
      && (!Anchored(r) ==> r.entry.count == i.count && r.entry.index == i.index)
  {
  }

  /** A fresh tag's first block starts the counter: at 0 in count mode, at the clock reading in time mode. */
  lemma FreshEntryCounter(cfg: Config, now: int)
    ensures cfg.intervalType == Count ==> Initialised(cfg, Fresh, now).count == Some(0)
    ensures cfg.intervalType == Time ==> Initialised(cfg, Fresh, now).count == Some(now)
    ensures cfg.intervalType == NoInterval ==> Initialised(cfg, Fresh, now).count.None?
  {
  }

  /**
    An entry whose first block ran with no interval type has no counter; a
    later block under count or time mode raises: the block is linked, but
    not anchored. (Count and time mode both set `:count`, so switching
    between those two never raises; see the two lemmas below.)
   */
  lemma MismatchedIntervalRaises(env: Env, e: StateRecord, tag: string, time: int, now: int, m: Meta)
    requires m.digest.Some? && e.last.Some? && e.count.None?
    requires env.config.intervalType != NoInterval
    ensures ChainBlockSpec(env, e, tag, time, now, m).raised == Some(NilCount)
    ensures ChainBlockSpec(env, e, tag, time, now, m).entry.last.Some?
  {
  }

  /**
    `@@state` is shared by every filter instance, and count and time mode
    keep their counter in the same `:count` slot. A count-mode block on a
    fresh tag leaves the counter at 1 (or 0 once anchored), which a
    time-mode block then reads as a start time: it anchors as soon as its
    event time reaches `1 + action_interval`.
   */
  lemma CountThenTimeAnchors(envC: Env, envT: Env, tag: string, t1: int, t2: int, now1: int, now2: int, m1: Meta, m2: Meta)
    requires envC.config.intervalType == Count && envC.config.actionInterval != 1
    requires envT.config.intervalType == Time && envT.config.coinnetToken.Some?
    requires m1.digest.Some? && m1.blockIndex.None? && m2.digest.Some? && m2.blockIndex.None?
    requires t2 >= 1 + envT.config.actionInterval
    ensures var r1 := ChainBlockSpec(envC, Fresh, tag, t1, now1, m1);
      var r2 := ChainBlockSpec(envT, r1.entry, tag, t2, now2, m2);
      && r1.raised.None? && !Anchored(r1) && r1.entry.count == Some(1)
      && r2.raised.None? && Anchored(r2) && r2.meta.blockIndex == Some(0)
  {
    var r1 := ChainBlockSpec(envC, Fresh, tag, t1, now1, m1);
    assert r1.raised.None? && !Anchored(r1);
    assert r1.entry.count == Some(1) && r1.entry.index == Some(0);
    assert WellFormed(r1.entry);
    TimeModeStep(envT, r1.entry, tag, t2, now2, m2);
    var r2 := ChainBlockSpec(envT, r1.entry, tag, t2, now2, m2);
    assert Anchored(r2);
    assert r2.raised.None?;
  }

  /**
    The other way round: a counter at or past `action_interval` (a time-mode
    start time is a Unix time, far past any block count) only grows under
    count mode, which anchors only when the counter equals
    `action_interval`; so no count-mode block on that tag is ever anchored.
   */
  lemma CountPastIntervalNeverAnchors(env: Env, e: StateRecord, tag: string, time: int, now: int, m: Meta)
    requires env.config.intervalType == Count
    requires m.digest.Some? && m.blockIndex.None?
    requires e.last.Some? && e.count.Some? && e.count.value >= env.config.actionInterval
    ensures var r := ChainBlockSpec(env, e, tag, time, now, m);
      && r.raised.None? && !Anchored(r)
      && r.entry.count == Some(e.count.value + 1)
      && r.entry.count.value >= env.config.actionInterval
  {
  }

  /**
    Count mode without a `coinnet_token` (its default): the block that
    brings the counter to `action_interval` is linked, then `send_digest`
    raises before the counter is reset, so the counter stays at
    `action_interval`. The next block takes it past `action_interval`
    without anchoring, and from there no block on the tag anchors again
    (`CountPastIntervalNeverAnchors`).
   */
  lemma CountModeNoToken(env: Env, e: StateRecord, tag: string, time: int, now: int, m: Meta,
                         time': int, now': int, m': Meta)
    requires m.digest.Some? && m.blockIndex.None? && m'.digest.Some? && m'.blockIndex.None?
    requires env.config.intervalType == Count && env.config.coinnetToken.None?
    requires WellFormed(e) && Initialised(env.config, e, now).count.Some?
    requires Initialised(env.config, e, now).count.value + 1 == env.config.actionInterval
    ensures var i := Initialised(env.config, e, now);
      var r := ChainBlockSpec(env, e, tag, time, now, m);
      var r' := ChainBlockSpec(env, r.entry, tag, time', now', m');
      && r.raised == Some(NilToken)
      && r.entry.last == Some(Fold(env.prims, RawInner, Head(e), m.digest.value))
      && r.entry.count == Some(env.config.actionInterval) && r.entry.index == i.index
      && r'.raised.None? && !Anchored(r')
      && r'.entry.count == Some(env.config.actionInterval + 1)
  {
    var r := ChainBlockSpec(env, e, tag, time, now, m);
    assert r.entry.count == Some(env.config.actionInterval);
    CountPastIntervalNeverAnchors(env, r.entry, tag, time', now', m');
  }

  /**
    Time mode without a `coinnet_token`: a block past the expiry time is
    linked, then `send_digest` raises before the counter advances, so the
    expiry time stays where it was and every later block at or past it
    raises again.
   */
  lemma TimeModeNoToken(env: Env, e: StateRecord, tag: string, time: int, now: int, m: Meta,
                        time': int, now': int, m': Meta)
    requires m.digest.Some? && m'.digest.Some?
    requires env.config.intervalType == Time && env.config.coinnetToken.None?
    requires WellFormed(e) && Initialised(env.config, e, now).count.Some?
    requires time >= Initialised(env.config, e, now).count.value + env.config.actionInterval
    requires time' >= Initialised(env.config, e, now).count.value + env.config.actionInterval
    ensures var i := Initialised(env.config, e, now);
      var r := ChainBlockSpec(env, e, tag, time, now, m);
      var r' := ChainBlockSpec(env, r.entry, tag, time', now', m');
      && r.raised == Some(NilToken)
      && r.entry.last == Some(Fold(env.prims, RawInner, Head(e), m.digest.value))
      && r.entry.count == i.count && r.entry.index == i.index
      && r'.raised == Some(NilToken) && r'.entry.count == i.count && r'.entry.index == i.index
  {
    var r := ChainBlockSpec(env, e, tag, time, now, m);
    assert r.entry.count == Initialised(env.config, e, now).count && r.entry.last.Some?;
  }
}
