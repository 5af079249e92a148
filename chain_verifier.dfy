/**
  The chain check `verify(records)` of test/plugin/test_filter_sparkl.rb:
  a replay of the records the filter emitted, newest first, that closes a
  block at each record with index 0, recomputes its running digest and its
  block digest, and checks the link to the newer block. Blocks that were
  anchored on the ledger are checked against the fetched transaction, but
  inside a bare `rescue`: a failed anchor check is swallowed and only
  leaves its mark on the state the later anchor checks read.

  The walk is specified by `WalkBack`, a fold of `Step` from the newest
  record; `Verify` is the test's loop, proved to compute it.
 */
module ChainVerifier {
  import opened Wrappers
  import opened Canonical
  import opened Digests
  import opened ChainModel

  /**
    What the check works with: the primitives, the inner round of its folds
    (the test hashes the hex spelling of the inner digest), the ledger fetch
    (`RestClient.get` and `JSON.parse`; `None` when either raises) and the
    RFC 3339 parser (`None` when it raises).
   */
  datatype Checker = Checker(
    prims: Primitives,
    kind: FoldKind,
    fetch: string -> Option<LedgerTxn>,
    parseTime: string -> Option<int>)

  /** The ways the check fails: an exception or a failed assertion outside the `rescue`. */
  datatype CheckError =
    | MissingMeta          // a record without `.sparkl`
    | NoBlock              // a record with index 0 before any record with a digest
    | RunDigestMismatch    // the recomputed running digest is not the block's
    | NoPrevDigest         // the block has no `prevdigest`
    | BlockDigestMismatch  // the block digest is not the newer block's `prevdigest`

  /** Where the check of an anchored block stopped. */
  datatype AnchorFailure =
    | FetchFailed        // the ledger call or its JSON raised
    | ReceivedMismatch   // the ledger's `received` differs from the block's
    | BadTime            // `received` is missing or not RFC 3339
    | TimeNotDecreasing  // not earlier than the newer anchor's confirmation
    | NoDataHex          // no null-data output, or one without `data_hex`
    | IndexMismatch      // the block's `block_index` breaks the count down
    | NoFirstDigest      // no record carries a digest
    | PayloadMismatch    // the ledger holds another commitment

  /** The outcome of one anchored block's check. The `rescue` discards it. */
  datatype AnchorOutcome = Confirmed | Swallowed(failure: AnchorFailure)

  /** The test's variables that the anchor checks update: `block_index` and `last_chaintxn_received`. */
  datatype AnchorState = AnchorState(blockIndex: Option<int>, lastReceived: Option<int>)

  /** The state of the walk after some records, newest first. */
  datatype Walk = Walk(
    first: Option<string>,           // first_block_digest
    events: seq<Record>,             // the records since the last block check, newest first
    block: Option<Meta>,             // the newest block metadata seen
    lastBlockDigest: Option<string>, // the prevdigest of the block checked last
    anchor: AnchorState,
    anchors: seq<AnchorOutcome>)     // what each anchored block's check came to

  /** The state `verify` starts its walk in. */
  function Start(first: Option<string>): Walk
  {
    Walk(first, [], None, None, AnchorState(None, None), [])
  }

  /** `s.reverse` */
  function Reverse<T>(s: seq<T>): (r: seq<T>)
    ensures |r| == |s|
    ensures forall i :: 0 <= i < |s| ==> r[i] == s[|s| - 1 - i]
    decreases |s|
  {
    if s == [] then [] else Reverse(s[1..]) + [s[0]]
  }

  lemma ReverseReverse<T>(s: seq<T>)
    ensures Reverse(Reverse(s)) == s
  {
  }

  // ---------------------------------------------------------------------------
  // first_block_digest
  // ---------------------------------------------------------------------------

  /**
    The first loop of `verify`: the double hash of the digest of the oldest
    record that carries one, `None` when no record does. A record without
    metadata before it raises.
   */
  function FirstBlockDigest(p: Primitives, kind: FoldKind, rs: seq<Record>): (r: Result<Option<string>, CheckError>)
    ensures r.Failure? ==> r.error == MissingMeta
    decreases |rs|
  {
    if rs == [] then Success(None)
    else if rs[0].sparkl.None? then Failure(MissingMeta)
    else if rs[0].sparkl.value.digest.Some? then Success(Some(Fold(p, kind, "", rs[0].sparkl.value.digest.value)))
    else FirstBlockDigest(p, kind, rs[1..])
  }

  /** A record with metadata but no digest: one the first loop of `verify` passes over. */
  predicate Undigested(r: Record)
  {
    r.sparkl.Some? && r.sparkl.value.digest.None?
  }

  /** Record `j` is the oldest one with a digest. */
  ghost predicate FirstCarrier(rs: seq<Record>, j: int)
  {
    && 0 <= j < |rs|
    && rs[j].sparkl.Some? && rs[j].sparkl.value.digest.Some?
    && forall k :: 0 <= k < j ==> Undigested(rs[k])
  }

  /** Record `j` lacks metadata and no record before it has a digest. */
  ghost predicate FirstMissing(rs: seq<Record>, j: int)
  {
    && 0 <= j < |rs|
    && rs[j].sparkl.None?
    && forall k :: 0 <= k < j ==> Undigested(rs[k])
  }

  /** The first loop raises exactly when a record without metadata comes before any digest. */
  lemma {:induction false} FirstBlockDigestFails(p: Primitives, kind: FoldKind, rs: seq<Record>)
    ensures FirstBlockDigest(p, kind, rs).Failure? <==> exists j :: FirstMissing(rs, j)
    decreases |rs|
  {
    if rs != [] && Undigested(rs[0]) {
      FirstBlockDigestFails(p, kind, rs[1..]);
      if FirstBlockDigest(p, kind, rs).Failure? {
        var j :| FirstMissing(rs[1..], j);
        assert FirstMissing(rs, j + 1);
      } else {
        forall j | FirstMissing(rs, j) ensures false {
          assert FirstMissing(rs[1..], j - 1);
        }
      }
    } else if rs != [] && rs[0].sparkl.None? {
      assert FirstMissing(rs, 0);
    }
  }

  /** The first loop finds nothing exactly when no record has a digest and every record has metadata. */
  lemma {:induction false} FirstBlockDigestNone(p: Primitives, kind: FoldKind, rs: seq<Record>)
    ensures FirstBlockDigest(p, kind, rs) == Success(None) <==> forall j :: 0 <= j < |rs| ==> Undigested(rs[j])
    decreases |rs|
  {
    if rs != [] {
      FirstBlockDigestNone(p, kind, rs[1..]);
      assert forall j :: 1 <= j < |rs| ==> rs[j] == rs[1..][j - 1];
    }
  }

  /** `first_block_digest` is the double hash of the oldest digest, all records before it having metadata. */
  lemma {:induction false} FirstBlockDigestFound(p: Primitives, kind: FoldKind, rs: seq<Record>, j: int)
    requires FirstCarrier(rs, j)
    ensures FirstBlockDigest(p, kind, rs) == Success(Some(Fold(p, kind, "", rs[j].sparkl.value.digest.value)))
    decreases |rs|
  {
    if j > 0 {
      assert FirstCarrier(rs[1..], j - 1);
      FirstBlockDigestFound(p, kind, rs[1..], j - 1);
    }
  }

  /** The test's loop with `break`, proved to compute `FirstBlockDigest`. */
  method FindFirstBlockDigest(ck: Checker, rs: seq<Record>) returns (r: Result<Option<string>, CheckError>)
    ensures r == FirstBlockDigest(ck.prims, ck.kind, rs)
  {
    r := Success(None);
    var i := 0;
    while i < |rs|
      invariant i <= |rs|
      invariant FirstBlockDigest(ck.prims, ck.kind, rs) == FirstBlockDigest(ck.prims, ck.kind, rs[i..])
    {
      assert rs[i..][1..] == rs[i + 1..];
      if rs[i].sparkl.None? {
        return Failure(MissingMeta);
      }
      if rs[i].sparkl.value.digest.Some? {
        return Success(Some(Fold(ck.prims, ck.kind, "", rs[i].sparkl.value.digest.value)));
      }
      i := i + 1;
    }
  }

  // ---------------------------------------------------------------------------
  // The check of an anchored block
  // ---------------------------------------------------------------------------

  const NullData: string := "null-data"

  /** The `data_hex` of the first null-data output. */
  function DataHex(outs: seq<LedgerOutput>): (r: Option<string>)
    ensures (forall j :: 0 <= j < |outs| ==> outs[j].scriptType != NullData) ==> r.None?
    ensures forall j :: (0 <= j < |outs| && outs[j].scriptType == NullData
      && forall k :: 0 <= k < j ==> outs[k].scriptType != NullData) ==> r == outs[j].dataHex
    decreases |outs|
  {
    if outs == [] then None
    else if outs[0].scriptType == NullData then outs[0].dataHex
    else
      var r := DataHex(outs[1..]);
      assert forall j :: 1 <= j < |outs| ==> outs[j] == outs[1..][j - 1];
      r
  }

  /** The test's loop over the outputs with `break`, proved to compute `DataHex`. */
  method FindDataHex(outs: seq<LedgerOutput>) returns (dataHex: Option<string>)
    ensures dataHex == DataHex(outs)
  {
    dataHex := None;
    var i := 0;
    while i < |outs|
      invariant i <= |outs|
      invariant forall k :: 0 <= k < i ==> outs[k].scriptType != NullData
    {
      if outs[i].scriptType == NullData {
        dataHex := outs[i].dataHex;
        break;
      }
      i := i + 1;
    }
  }

  /**
    The first half of an anchored block's check: the ledger transaction the
    block names must have the block's `received` time, which must parse and
    be earlier than the newer anchor's. It yields that time and the
    transaction's outputs.
   */
  function ConfirmTime(ck: Checker, st: AnchorState, b: Meta): (r: Result<(int, seq<LedgerOutput>), AnchorFailure>)
    requires b.get.Some?
    ensures r.Success? ==>
      && var txn := ck.fetch(b.get.value);
      && txn.Some? && txn.value.received == b.received && b.received.Some?
      && ck.parseTime(b.received.value) == Some(r.value.0)
      && r.value.1 == txn.value.outputs
      && (st.lastReceived.Some? ==> r.value.0 < st.lastReceived.value)
    ensures r.Failure? ==> r.error in {FetchFailed, ReceivedMismatch, BadTime, TimeNotDecreasing}
  {
    match ck.fetch(b.get.value)
    case None => Failure(FetchFailed)
    case Some(txn) =>
      if txn.received != b.received then Failure(ReceivedMismatch)
      else if txn.received.None? || ck.parseTime(txn.received.value).None? then Failure(BadTime)
      else
        var t := ck.parseTime(txn.received.value).value;
        if st.lastReceived.Some? && !(st.lastReceived.value > t) then Failure(TimeNotDecreasing)
        else Success((t, txn.outputs))
  }

  /**
    The second half: the first null-data output must hold the commitment
    `rmd160(first_block_digest ++ block_index) ++ rmd160(block_digest)`, and
    `block_index` is the block's own the first time, one less than the
    newer anchor's after that.
   */
  function ConfirmCommitment(ck: Checker, first: Option<string>, st: AnchorState, b: Meta, dataHex: Option<string>, blockDigest: string)
    : (r: (AnchorState, AnchorOutcome))
    ensures r.0.lastReceived == st.lastReceived
    ensures r.1 == Confirmed ==>
      && r.0.blockIndex == b.blockIndex
      && first.Some?
      && dataHex == Some(AnchorPayload(ck.prims, first.value, b.blockIndex, blockDigest))
    ensures r.1 == Confirmed && st.blockIndex.Some? ==> b.blockIndex == Some(st.blockIndex.value - 1)
    ensures r.1.Swallowed? ==> r.1.failure in {NoDataHex, IndexMismatch, NoFirstDigest, PayloadMismatch}
    ensures r.1 == Swallowed(NoDataHex) <==> dataHex.None?
    ensures dataHex.None? ==> r.0 == st
    // once a commitment is found, block_index moves on before it is compared, whatever the outcome
    ensures dataHex.Some? ==> r.0 == st.(blockIndex := if st.blockIndex.None? then b.blockIndex else Some(st.blockIndex.value - 1))
    ensures r.1 == Swallowed(IndexMismatch) <==> dataHex.Some? && r.0.blockIndex != b.blockIndex
  {
    if dataHex.None? then (st, Swallowed(NoDataHex))
    else
      var blockIndex := if st.blockIndex.None? then b.blockIndex else Some(st.blockIndex.value - 1);
      var st1 := st.(blockIndex := blockIndex);
      if blockIndex != b.blockIndex then (st1, Swallowed(IndexMismatch))
      else if first.None? then (st1, Swallowed(NoFirstDigest))
      else if AnchorPayload(ck.prims, first.value, blockIndex, blockDigest) != dataHex.value then (st1, Swallowed(PayloadMismatch))
      else (st1, Confirmed)
  }

  /**
    The `begin ... rescue` part of `verify` for a block whose metadata `b`
    names a ledger URL, `blockDigest` being the block digest just checked.
    The state moves on as far as the checks got.
   */
  function CheckAnchor(ck: Checker, first: Option<string>, st: AnchorState, b: Meta, blockDigest: string): (r: (AnchorState, AnchorOutcome))
    requires b.get.Some?
    // confirmed: the ledger holds this block's commitment, with the block's confirmation time
    ensures r.1 == Confirmed ==>
      && var txn := ck.fetch(b.get.value);
      && txn.Some? && txn.value.received == b.received && b.received.Some?
      && ck.parseTime(b.received.value) == r.0.lastReceived
      && r.0.blockIndex == b.blockIndex
      && first.Some?
      && DataHex(txn.value.outputs) == Some(AnchorPayload(ck.prims, first.value, b.blockIndex, blockDigest))
    // confirmation times strictly decrease, walking back
    ensures r.1 == Confirmed && st.lastReceived.Some? ==> r.0.lastReceived.Some? && r.0.lastReceived.value < st.lastReceived.value
    // anchor indices count down by one, walking back
    ensures r.1 == Confirmed && st.blockIndex.Some? ==> b.blockIndex == Some(st.blockIndex.value - 1)
    // a check that stops before the time is read leaves the state alone
    ensures r.1 in {Swallowed(FetchFailed), Swallowed(ReceivedMismatch), Swallowed(BadTime), Swallowed(TimeNotDecreasing)} ==> r.0 == st
    // once the time is read, it is kept, whatever follows
    ensures r.1 in {Swallowed(NoDataHex), Swallowed(IndexMismatch), Swallowed(NoFirstDigest), Swallowed(PayloadMismatch), Confirmed} ==>
      b.received.Some? && r.0.lastReceived.Some? && Some(r.0.lastReceived.value) == ck.parseTime(b.received.value)
    // with no commitment output, block_index is left alone
    ensures r.1 == Swallowed(NoDataHex) ==> r.0.blockIndex == st.blockIndex
    // past that, block_index counts down by one (or starts at the block's own) before it is compared,
    // so a failed anchor still moves what the next older anchor is compared against
    ensures r.1 in {Swallowed(IndexMismatch), Swallowed(NoFirstDigest), Swallowed(PayloadMismatch), Confirmed} ==>
      r.0.blockIndex == (if st.blockIndex.None? then b.blockIndex else Some(st.blockIndex.value - 1))
  {
    match ConfirmTime(ck, st, b)
    case Failure(f) => (st, Swallowed(f))
    case Success(tr) => ConfirmCommitment(ck, first, st.(lastReceived := Some(tr.0)), b, DataHex(tr.1), blockDigest)
  }

  /** The first half of the anchor check as the test runs it. */
  method ReadConfirmation(ck: Checker, st: AnchorState, b: Meta) returns (r: Result<(int, seq<LedgerOutput>), AnchorFailure>)
    requires b.get.Some?
    ensures r == ConfirmTime(ck, st, b)
  {
    var chaintxn := ck.fetch(b.get.value);
    if chaintxn.None? {
      return Failure(FetchFailed);
    }
    var txn := chaintxn.value;
    if txn.received != b.received {
      return Failure(ReceivedMismatch);
    }
    if txn.received.None? || ck.parseTime(txn.received.value).None? {
      return Failure(BadTime);
    }
    var received := ck.parseTime(txn.received.value).value;
    if st.lastReceived.Some? && !(st.lastReceived.value > received) {
      return Failure(TimeNotDecreasing);
    }
    r := Success((received, txn.outputs));
  }

  /** The second half of the anchor check as the test runs it, from the `data_hex` found. */
  method CheckCommitment(ck: Checker, first: Option<string>, st: AnchorState, b: Meta, dataHex: Option<string>, blockDigest: string)
    returns (st': AnchorState, outcome: AnchorOutcome)
    ensures (st', outcome) == ConfirmCommitment(ck, first, st, b, dataHex, blockDigest)
  {
    if dataHex.None? {
      return st, Swallowed(NoDataHex);
    }
    var blockIndex := st.blockIndex;
    if blockIndex.None? {
      blockIndex := b.blockIndex;
    } else {
      blockIndex := Some(blockIndex.value - 1);
    }
    st' := st.(blockIndex := blockIndex);
    if blockIndex != b.blockIndex {
      outcome := Swallowed(IndexMismatch);
    } else if first.None? {
      outcome := Swallowed(NoFirstDigest);
    } else {
      var payload := AnchorPayload(ck.prims, first.value, blockIndex, blockDigest);
      outcome := if payload != dataHex.value then Swallowed(PayloadMismatch) else Confirmed;
    }
  }

  /** The anchor check as the test runs it, proved to compute `CheckAnchor`. */
  method AnchorCheck(ck: Checker, first: Option<string>, st: AnchorState, b: Meta, blockDigest: string)
    returns (st': AnchorState, outcome: AnchorOutcome)
    requires b.get.Some?
    ensures (st', outcome) == CheckAnchor(ck, first, st, b, blockDigest)
  {
    var confirmation := ReadConfirmation(ck, st, b);
    if confirmation.Failure? {
      return st, Swallowed(confirmation.error);
    }
    var (received, outs) := confirmation.value;
    var dataHex := FindDataHex(outs);
    st', outcome := CheckCommitment(ck, first, st.(lastReceived := Some(received)), b, dataHex, blockDigest);
  }

  // ---------------------------------------------------------------------------
  // One record of the walk
  // ---------------------------------------------------------------------------

  /**
    The block check at a record with index 0: the running digest over the
    buffered records, oldest first and without their `.sparkl` slot, is the
    block's digest; the block digest is the newer block's `prevdigest`;
    then the anchor check, and the buffer is emptied.
   */
  function CloseBlock(ck: Checker, w: Walk): (r: Result<Walk, CheckError>)
    ensures r.Success? ==>
      && w.block.Some?
      && var b := w.block.value;
      && b.digest == Some(RunDigest(ck.prims, ck.kind, Bodies(Reverse(w.events))))
      && b.prevdigest.Some?
      && (w.lastBlockDigest.Some? ==> w.lastBlockDigest == Some(Fold(ck.prims, ck.kind, b.prevdigest.value, b.digest.value)))
      && r.value.events == []
      && r.value.lastBlockDigest == b.prevdigest
      && r.value.first == w.first && r.value.block == w.block
      && (b.get.None? ==> r.value.anchor == w.anchor && r.value.anchors == w.anchors)
      && (b.get.Some? ==>
            var a := CheckAnchor(ck, w.first, w.anchor, b, Fold(ck.prims, ck.kind, b.prevdigest.value, b.digest.value));
            r.value.anchor == a.0 && r.value.anchors == w.anchors + [a.1])
    ensures r.Failure? ==>
      r.error == (if w.block.None? then NoBlock
        else if w.block.value.digest != Some(RunDigest(ck.prims, ck.kind, Bodies(Reverse(w.events)))) then RunDigestMismatch
        else if w.block.value.prevdigest.None? then NoPrevDigest
        else BlockDigestMismatch)
  {
    if w.block.None? then Failure(NoBlock)
    else
      var b := w.block.value;
      var run := RunDigest(ck.prims, ck.kind, Bodies(Reverse(w.events)));
      if b.digest != Some(run) then Failure(RunDigestMismatch)
      else if b.prevdigest.None? then Failure(NoPrevDigest)
      else
        var blockDigest := Fold(ck.prims, ck.kind, b.prevdigest.value, run);
        if w.lastBlockDigest.Some? && w.lastBlockDigest.value != blockDigest then Failure(BlockDigestMismatch)
        else
          var w1 := if b.get.Some? then
              var a := CheckAnchor(ck, w.first, w.anchor, b, blockDigest);
              w.(anchor := a.0, anchors := w.anchors + [a.1])
            else w;
          Success(w1.(lastBlockDigest := b.prevdigest, events := []))
  }

  /**
    One record of the walk: it joins the buffer, becomes the current block
    if it carries a digest, and closes the block if its index is 0.
   */
  function Step(ck: Checker, w: Walk, rec: Record): (r: Result<Walk, CheckError>)
    ensures rec.sparkl.None? ==> r == Failure(MissingMeta)
    ensures rec.sparkl.Some? && rec.sparkl.value.index != 0 ==>
      r == Success(w.(events := w.events + [rec], block := if rec.sparkl.value.digest.Some? then rec.sparkl else w.block))
    ensures r.Success? && rec.sparkl.value.index == 0 ==> r.value.events == []
    ensures r.Success? ==> r.value.first == w.first
  {
    if rec.sparkl.None? then Failure(MissingMeta)
    else
      var m := rec.sparkl.value;
      var w1 := w.(events := w.events + [rec], block := if m.digest.Some? then Some(m) else w.block);
      if m.index != 0 then Success(w1) else CloseBlock(ck, w1)
  }

  /** The walk over `rs` from state `w`, newest record first; it stops at the first failure. */
  function WalkBack(ck: Checker, w: Walk, rs: seq<Record>): Result<Walk, CheckError>
    decreases |rs|
  {
    if rs == [] then Success(w)
    else
      match WalkBack(ck, w, rs[1..])
      case Failure(e) => Failure(e)
      case Success(w1) => Step(ck, w1, rs[0])
  }

  /** `verify(records)`: the first loop, then the walk. */
  function Check(ck: Checker, rs: seq<Record>): Result<Walk, CheckError>
  {
    match FirstBlockDigest(ck.prims, ck.kind, rs)
    case Failure(e) => Failure(e)
    case Success(first) => WalkBack(ck, Start(first), rs)
  }

  // ---------------------------------------------------------------------------
  // Properties of the walk
  // ---------------------------------------------------------------------------

  /** Walking `a + b` is walking the newer records `b` first, then `a`. */
  lemma {:induction false} WalkBackAppend(ck: Checker, w: Walk, a: seq<Record>, b: seq<Record>)
    ensures WalkBack(ck, w, a + b) ==
      match WalkBack(ck, w, b)
      case Failure(e) => Failure(e)
      case Success(w1) => WalkBack(ck, w1, a)
    decreases |a|
  {
    if a == [] {
      assert a + b == b;
    } else {
      WalkBackAppend(ck, w, a[1..], b);
      assert (a + b)[1..] == a[1..] + b;
      assert (a + b)[0] == a[0];
    }
  }

  /** A walk that fails on the newest records fails on all of them, for the same reason. */
  lemma WalkBackStops(ck: Checker, w: Walk, rs: seq<Record>, i: nat)
    requires i <= |rs| && WalkBack(ck, w, rs[i..]).Failure?
    ensures WalkBack(ck, w, rs) == WalkBack(ck, w, rs[i..])
  {
    WalkBackAppend(ck, w, rs[..i], rs[i..]);
    assert rs[..i] + rs[i..] == rs;
  }

  /** A walk that gets through `rs` has met metadata on every record. */
  lemma {:induction false} WalkBackMeta(ck: Checker, w: Walk, rs: seq<Record>)
    requires WalkBack(ck, w, rs).Success?
    ensures forall j :: 0 <= j < |rs| ==> rs[j].sparkl.Some?
    decreases |rs|
  {
    if rs != [] {
      WalkBackMeta(ck, w, rs[1..]);
      assert forall j :: 1 <= j < |rs| ==> rs[j] == rs[1..][j - 1];
    }
  }

  /** The parts of a walk's state that the verdict depends on. */
  function Core(w: Walk): (seq<Record>, Option<Meta>, Option<string>)
  {
    (w.events, w.block, w.lastBlockDigest)
  }

  /** `Checker`s that differ at most in their ledger and time parser. */
  ghost predicate SameHashing(ck: Checker, ck': Checker)
  {
    ck.prims == ck'.prims && ck.kind == ck'.kind
  }

  /** One record: what the ledger says moves no verdict and no state the verdict reads. */
  lemma StepIgnoresLedger(ck: Checker, ck': Checker, w: Walk, w': Walk, rec: Record)
    requires SameHashing(ck, ck') && Core(w) == Core(w')
    ensures Step(ck, w, rec).Failure? == Step(ck', w', rec).Failure?
    ensures Step(ck, w, rec).Failure? ==> Step(ck, w, rec).error == Step(ck', w', rec).error
    ensures Step(ck, w, rec).Success? ==> Core(Step(ck, w, rec).value) == Core(Step(ck', w', rec).value)
  {
    if rec.sparkl.Some? && rec.sparkl.value.index == 0 {
      var m := rec.sparkl.value;
      var w1 := w.(events := w.events + [rec], block := if m.digest.Some? then Some(m) else w.block);
      var w1' := w'.(events := w'.events + [rec], block := if m.digest.Some? then Some(m) else w'.block);
      assert Core(w1) == Core(w1');
    }
  }

  /**
    The anchor checks sit inside a bare `rescue`: whatever the ledger
    returns and however its times parse, the walk fails or passes alike,
    for the same reason.
   */
  lemma {:induction false} WalkIgnoresLedger(ck: Checker, ck': Checker, w: Walk, w': Walk, rs: seq<Record>)
    requires SameHashing(ck, ck') && Core(w) == Core(w')
    ensures WalkBack(ck, w, rs).Failure? == WalkBack(ck', w', rs).Failure?
    ensures WalkBack(ck, w, rs).Failure? ==> WalkBack(ck, w, rs).error == WalkBack(ck', w', rs).error
    ensures WalkBack(ck, w, rs).Success? ==> Core(WalkBack(ck, w, rs).value) == Core(WalkBack(ck', w', rs).value)
    decreases |rs|
  {
    if rs != [] {
      WalkIgnoresLedger(ck, ck', w, w', rs[1..]);
      var r, r' := WalkBack(ck, w, rs[1..]), WalkBack(ck', w', rs[1..]);
      if r.Success? {
        StepIgnoresLedger(ck, ck', r.value, r'.value, rs[0]);
      }
    }
  }

  /** The verdict of `verify` does not depend on the ledger. */
  lemma CheckIgnoresLedger(ck: Checker, ck': Checker, rs: seq<Record>)
    requires SameHashing(ck, ck')
    ensures Check(ck, rs).Failure? == Check(ck', rs).Failure?
    ensures Check(ck, rs).Failure? ==> Check(ck, rs).error == Check(ck', rs).error
  {
    var f, f' := FirstBlockDigest(ck.prims, ck.kind, rs), FirstBlockDigest(ck'.prims, ck'.kind, rs);
    if f.Success? {
      WalkIgnoresLedger(ck, ck', Start(f.value), Start(f'.value), rs);
    }
  }

  // ---------------------------------------------------------------------------
  // verify
  // ---------------------------------------------------------------------------

  /** The inner loop of `verify`: the running digest over the buffered records, oldest first. */
  method RecomputeRunDigest(ck: Checker, events: seq<Record>) returns (run: string)
    ensures run == RunDigest(ck.prims, ck.kind, Bodies(Reverse(events)))
  {
    var ordered := Reverse(events);
    run := "";
    var j := 0;
    while j < |ordered|
      invariant j <= |ordered|
      invariant run == RunDigest(ck.prims, ck.kind, Bodies(ordered)[..j])
    {
      var eventMangle := MangleJson(ck.prims, Body(ordered[j]));
      assert Bodies(ordered)[..j + 1][..j] == Bodies(ordered)[..j];
      run := Fold(ck.prims, ck.kind, run, eventMangle);
      j := j + 1;
    }
    assert Bodies(ordered)[..j] == Bodies(ordered);
  }

  /** The block check at a record with index 0, as `verify` runs it. */
  method CheckBlock(ck: Checker, w: Walk) returns (r: Result<Walk, CheckError>)
    ensures r == CloseBlock(ck, w)
  {
    if w.block.None? {
      return Failure(NoBlock);
    }
    var block := w.block.value;
    var run := RecomputeRunDigest(ck, w.events);
    if block.digest != Some(run) {
      return Failure(RunDigestMismatch);
    }
    if block.prevdigest.None? {
      return Failure(NoPrevDigest);
    }
    var blockDigest := Fold(ck.prims, ck.kind, block.prevdigest.value, run);
    if w.lastBlockDigest.Some? && w.lastBlockDigest.value != blockDigest {
      return Failure(BlockDigestMismatch);
    }
    var anchor, anchors := w.anchor, w.anchors;
    if block.get.Some? {
      var outcome;
      anchor, outcome := AnchorCheck(ck, w.first, w.anchor, block, blockDigest);
      anchors := anchors + [outcome];
    }
    r := Success(w.(anchor := anchor, anchors := anchors, lastBlockDigest := block.prevdigest, events := []));
  }

  /** The body of the walk's loop for one record, proved to compute `Step`. */
  method VisitRecord(ck: Checker, w: Walk, record: Record) returns (r: Result<Walk, CheckError>)
    ensures r == Step(ck, w, record)
  {
    if record.sparkl.None? {
      return Failure(MissingMeta);
    }
    var sparkl := record.sparkl.value;
    var w' := w.(events := w.events + [record]);
    if sparkl.digest.Some? {
      w' := w'.(block := Some(sparkl));
    }
    if sparkl.index == 0 {
      r := CheckBlock(ck, w');
    } else {
      r := Success(w');
    }
  }

  /**
    `verify(records)`: `None` when it passes, else why it raised; and the
    outcome of each anchored block's check, newest first, which the test
    discards.
   */
  method Verify(ck: Checker, records: seq<Record>) returns (failure: Option<CheckError>, anchors: seq<AnchorOutcome>)
    ensures failure.None? <==> Check(ck, records).Success?
    ensures failure.Some? ==> failure.value == Check(ck, records).error
    ensures failure.None? ==> anchors == Check(ck, records).value.anchors
  {
    var fr := FindFirstBlockDigest(ck, records);
    if fr.Failure? {
      return Some(fr.error), [];
    }
    var w := Start(fr.value);
    var i := |records|;
    while i > 0
      invariant 0 <= i <= |records|
      invariant WalkBack(ck, Start(fr.value), records[i..]) == Success(w)
    {
      var r := VisitRecord(ck, w, records[i - 1]);
      assert records[i - 1..][1..] == records[i..];
      if r.Failure? {
        WalkBackStops(ck, Start(fr.value), records, i - 1);
        return Some(r.error), [];
      }
      w := r.value;
      i := i - 1;
    }
    assert records[0..] == records;
    failure, anchors := None, w.anchors;
  }
}
