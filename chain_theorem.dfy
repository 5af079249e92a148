/**
  What the filter emits passes the chain check: the records that successive
  `filter_stream` calls on one tag send out, walked newest first by
  `ChainVerifier.Check`, reproduce every block's running digest and link
  every block to the newer one.

  The check folds with `kind`; the filter always folds the raw inner
  digest. The theorem holds for any check whose folds compute the filter's
  (`FoldsMatch`), in particular for a check that folds the raw inner digest
  too. The check as written folds the hex spelling instead, and
  `AsWrittenCheckRejects` shows that it then rejects a genuine chain.
 */
module ChainTheorem {
  import opened Wrappers
  import opened Canonical
  import opened Digests
  import opened ChainModel
  import opened BatchModel
  import opened ChainVerifier

  // ---------------------------------------------------------------------------
  // Walking a stretch of the chain
  // ---------------------------------------------------------------------------

  /**
    The records `rs` are a stretch of chain from `genesis` to `head`: a walk
    that enters them newest first, between blocks, and expecting `head` as
    the next block digest (or expecting nothing), gets through them and
    leaves between blocks, expecting `genesis`.
   */
  ghost predicate Replays(ck: Checker, rs: seq<Record>, genesis: string, head: string)
  {
    && (rs == [] ==> head == genesis)
    && forall w: Walk {:trigger WalkBack(ck, w, rs)} ::
         w.events == [] && (w.lastBlockDigest.None? || w.lastBlockDigest == Some(head)) ==>
           && WalkBack(ck, w, rs).Success?
           && WalkBack(ck, w, rs).value.events == []
           && WalkBack(ck, w, rs).value.lastBlockDigest == (if rs == [] then w.lastBlockDigest else Some(genesis))
  }

  lemma ReplaysEmpty(ck: Checker, genesis: string)
    ensures Replays(ck, [], genesis, genesis)
  {
    forall w: Walk | w.events == [] && (w.lastBlockDigest.None? || w.lastBlockDigest == Some(genesis))
      ensures WalkBack(ck, w, []) == Success(w)
    {
    }
  }

  /** Two stretches that meet make one: `a` from `genesis` to `mid`, then the newer `b` from `mid` to `head`. */
  lemma ReplaysAppend(ck: Checker, a: seq<Record>, b: seq<Record>, genesis: string, mid: string, head: string)
    requires Replays(ck, a, genesis, mid) && Replays(ck, b, mid, head)
    ensures Replays(ck, a + b, genesis, head)
  {
    forall w: Walk | w.events == [] && (w.lastBlockDigest.None? || w.lastBlockDigest == Some(head))
      ensures && WalkBack(ck, w, a + b).Success?
              && WalkBack(ck, w, a + b).value.events == []
              && WalkBack(ck, w, a + b).value.lastBlockDigest == (if a + b == [] then w.lastBlockDigest else Some(genesis))
    {
      WalkBackAppend(ck, w, a, b);
      var w1 := WalkBack(ck, w, b).value;
      assert w1.events == [] && (w1.lastBlockDigest.None? || w1.lastBlockDigest == Some(mid));
      assert WalkBack(ck, w, a + b) == WalkBack(ck, w1, a);
    }
  }

  /**
    The shape of one block as the filter emits it: records with indices
    0, 1, ... in order, only the last with a digest.
   */
  ghost predicate BlockShape(rs: seq<Record>)
  {
    && |rs| > 0
    && (forall j :: 0 <= j < |rs| ==> rs[j].sparkl.Some? && rs[j].sparkl.value.index == j)
    && (forall j :: 0 <= j < |rs| - 1 ==> rs[j].sparkl.value.digest.None?)
    && rs[|rs| - 1].sparkl.value.digest.Some?
  }

  /**
    One block as the filter emits it, its digest the running digest of its
    bodies and the block linked from `genesis` to `head`.
   */
  ghost predicate Segment(ck: Checker, rs: seq<Record>, genesis: string, head: string)
  {
    && BlockShape(rs)
    && var m := rs[|rs| - 1].sparkl.value;
    && m.digest == Some(RunDigest(ck.prims, ck.kind, Bodies(rs)))
    && m.prevdigest == Some(genesis)
    && head == Fold(ck.prims, ck.kind, genesis, m.digest.value)
  }

  /** The records of a block after its first are buffered, newest first, under the block's last record. */
  lemma {:induction false} SegmentTail(ck: Checker, rs: seq<Record>, w: Walk, k: nat)
    requires BlockShape(rs)
    requires 1 <= k < |rs| && w.events == []
    ensures WalkBack(ck, w, rs[k..]) == Success(w.(events := Reverse(rs[k..]), block := rs[|rs| - 1].sparkl))
    decreases |rs| - k
  {
    var rest := rs[k..];
    assert rest[1..] == rs[k + 1..];
    if k == |rs| - 1 {
      assert rest[1..] == [];
      assert Reverse(rest) == [rs[k]];
    } else {
      SegmentTail(ck, rs, w, k + 1);
      assert Reverse(rest) == Reverse(rs[k + 1..]) + [rs[k]];
    }
  }

  /** A block the filter emits is a stretch of chain from its predecessor to its block digest. */
  lemma SegmentReplays(ck: Checker, rs: seq<Record>, genesis: string, head: string)
    requires Segment(ck, rs, genesis, head)
    ensures Replays(ck, rs, genesis, head)
  {
    forall w: Walk | w.events == [] && (w.lastBlockDigest.None? || w.lastBlockDigest == Some(head))
      ensures && WalkBack(ck, w, rs).Success?
              && WalkBack(ck, w, rs).value.events == []
              && WalkBack(ck, w, rs).value.lastBlockDigest == Some(genesis)
    {
      var w2 := if |rs| == 1 then w else w.(events := Reverse(rs[1..]), block := rs[|rs| - 1].sparkl);
      if |rs| > 1 {
        SegmentTail(ck, rs, w, 1);
      }
      assert WalkBack(ck, w, rs[1..]) == Success(w2);
      var m := rs[0].sparkl.value;
      var w3 := w2.(events := w2.events + [rs[0]], block := if m.digest.Some? then Some(m) else w2.block);
      assert Reverse(rs) == w3.events;
      ReverseReverse(rs);
      assert w3.block == rs[|rs| - 1].sparkl;
      assert Step(ck, w2, rs[0]) == CloseBlock(ck, w3);
    }
  }

  // ---------------------------------------------------------------------------
  // One batch
  // ---------------------------------------------------------------------------

  /** No incoming record of the batch has a `.sparkl` slot of its own. */
  predicate Unmarked(b: Batch)
  {
    forall i, k :: 0 <= i < |b.events| && 0 <= k < |b.events[i].entries| ==> b.events[i].entries[k].key != SparklKey
  }

  /** What the check hashes for an emitted record is the record as it arrived. */
  lemma TaggedBody(c: Call, i: nat, m: Meta)
    requires KeepLaw(c.hooks) && Unmarked(c.batch) && i < |c.batch.events|
    ensures Body(Tagged(c, i, m).record) == Hash(c.batch.events[i].entries)
  {
    WithoutKeyAbsent(c.batch.events[i].entries, SparklKey);
  }

  /** The records of a sized batch's output: no digest before the last, which carries `m`. */
  lemma {:induction false} BatchRecords(c: Call, m: Meta)
    requires KeepLaw(c.hooks) && Unmarked(c.batch) && |c.batch.events| > 0
    ensures var n := |c.batch.events|;
      var rs := Records(Plain(c, n - 1) + [Tagged(c, n - 1, m)]);
      && |rs| == n
      && (forall j :: 0 <= j < n - 1 ==> rs[j].sparkl == Some(BaseMeta(j, c.env.exec, c.blockId)))
      && rs[n - 1].sparkl == Some(m)
      && Bodies(rs) == IncomingBodies(c.batch.events)
  {
    var n := |c.batch.events|;
    var out := Plain(c, n - 1) + [Tagged(c, n - 1, m)];
    var rs := Records(out);
    forall j | 0 <= j < n ensures Bodies(rs)[j] == IncomingBodies(c.batch.events)[j] {
      TaggedBody(c, j, if j < n - 1 then BaseMeta(j, c.env.exec, c.blockId) else m);
    }
  }

  /**
    The output of a sized batch whose last record carries the batch's
    running digest `run`, linked from `genesis`, is one block of chain from
    `genesis` to the fold of `run` onto it.
   */
  lemma BlockSegment(ck: Checker, c: Call, m: Meta, run: string, genesis: string)
    requires KeepLaw(c.hooks) && Unmarked(c.batch) && |c.batch.events| > 0
    requires ck.prims == c.env.prims && FoldsMatch(ck.prims, ck.kind, RawInner)
    requires run == RunDigest(c.env.prims, RawInner, IncomingBodies(c.batch.events))
    requires m.index == |c.batch.events| - 1 && m.digest == Some(run) && m.prevdigest == Some(genesis)
    ensures var n := |c.batch.events|;
      Segment(ck, Records(Plain(c, n - 1) + [Tagged(c, n - 1, m)]), genesis, Fold(c.env.prims, RawInner, genesis, run))
  {
    var n := |c.batch.events|;
    var rs := Records(Plain(c, n - 1) + [Tagged(c, n - 1, m)]);
    BatchRecords(c, m);
    RunDigestFoldsMatch(ck.prims, ck.kind, RawInner, Bodies(rs));
    assert Fold(ck.prims, ck.kind, genesis, run) == Fold(c.env.prims, RawInner, genesis, run);
  }

  /**
    The last record of a sized batch that raised nothing: it carries the
    running digest of the whole batch, names the tag's head before the batch
    as its predecessor, and the new head is the fold of the two.
   */
  lemma BatchLast(c: Call, d0: map<string, StateRecord>) returns (m: Meta, run: string)
    requires ChainLaws(c.env.prims, c.hooks.chain) && TextLaw(c.env.prims, c.hooks)
    requires c.batch.sized && |c.batch.events| > 0
    requires Process(c, d0, |c.batch.events|).errors == []
    ensures var n := |c.batch.events|;
      var P := Process(c, d0, n);
      var genesis := Head(Lookup(d0, c.tag));
      && P.out == Plain(c, n - 1) + [Tagged(c, n - 1, m)]
      && run == RunDigest(c.env.prims, RawInner, IncomingBodies(c.batch.events))
      && m.index == n - 1 && m.digest == Some(run) && m.prevdigest == Some(genesis)
      && Head(Lookup(P.digests, c.tag)) == Fold(c.env.prims, RawInner, genesis, run)
  {
    var n := |c.batch.events|;
    var P := Process(c, d0, n);
    var e0 := Lookup(d0, c.tag);
    var meta := BaseMeta(n - 1, c.env.exec, c.blockId);
    run := P.runDigest;
    var r := c.hooks.chain(e0, c.batch.events[n - 1].time, c.batch.clock, meta, run);
    m := r.meta;
    SizedBatch(c, d0);
    assert StepLaw(c.env.prims, e0, meta, run, r);
    ProcessRunDigest(c, d0, n);
    assert c.batch.events[..n] == c.batch.events;
    assert P.out == P.out + P.errors;
  }

  /**
    A sized batch that raised nothing emits one block, a stretch of chain
    from the tag's head before the batch to its head after.
   */
  lemma BatchSegment(ck: Checker, c: Call, d0: map<string, StateRecord>)
    requires ChainLaws(c.env.prims, c.hooks.chain) && TextLaw(c.env.prims, c.hooks) && KeepLaw(c.hooks)
    requires ck.prims == c.env.prims && FoldsMatch(ck.prims, ck.kind, RawInner)
    requires c.batch.sized && Unmarked(c.batch)
    requires Process(c, d0, |c.batch.events|).errors == []
    ensures var P := Process(c, d0, |c.batch.events|);
      Replays(ck, Records(P.out), Head(Lookup(d0, c.tag)), Head(Lookup(P.digests, c.tag)))
  {
    var n := |c.batch.events|;
    var genesis := Head(Lookup(d0, c.tag));
    if n == 0 {
      ReplaysEmpty(ck, genesis);
    } else {
      var m, run := BatchLast(c, d0);
      BlockSegment(ck, c, m, run, genesis);
      var P := Process(c, d0, n);
      SegmentReplays(ck, Records(P.out), genesis, Head(Lookup(P.digests, c.tag)));
    }
  }

  // ---------------------------------------------------------------------------
  // Successive batches
  // ---------------------------------------------------------------------------

  lemma RecordsAppend(a: seq<Event>, b: seq<Event>)
    ensures Records(a + b) == Records(a) + Records(b)
  {
  }

  /** Every batch of the run is sized and carries no `.sparkl` slot of its own. */
  predicate WellShaped(bs: seq<Batch>)
  {
    forall j :: 0 <= j < |bs| ==> bs[j].sized && Unmarked(bs[j])
  }

  /**
    The records of successive `filter_stream` calls on one tag, none of
    which raised, are a stretch of chain from the tag's head before the
    first call to its head after the last.
   */
  lemma ChainerOutputReplays(ck: Checker, env: Env, st: RegState, tag: string, bs: seq<Batch>)
    requires ck.prims == env.prims && FoldsMatch(ck.prims, ck.kind, RawInner)
    requires WellShaped(bs)
    requires RunBatches(HooksOf(env, tag), env, st, tag, bs).errors == []
    ensures var R := RunBatches(HooksOf(env, tag), env, st, tag, bs);
      Replays(ck, Records(R.out), Head(Lookup(st.digests, tag)), Head(Lookup(R.state.digests, tag)))
  {
    var h := HooksOf(env, tag);
    HooksOfLaws(env, tag);
    var g := Head(Lookup(st.digests, tag));
    var step := BatchStepAt(h, env, tag, bs);
    var inv := (r: FilterResult, j: nat) => r.errors == [] ==> Replays(ck, Records(r.out), g, Head(Lookup(r.state.digests, tag)));
    ReplaysEmpty(ck, g);
    assert inv(FilterResult(st, [], []), 0);
    forall r: FilterResult, j: nat {:trigger step(r, j)} | j < |bs| && inv(r, j) ensures inv(step(r, j), j + 1) {
      BatchStepShape(h, env, tag, bs, r, j);
      var c := Call(env, tag, NextBlockId(r.state.ids, tag), bs[j], h);
      var P := Process(c, r.state.digests, |bs[j].events|);
      if step(r, j).errors == [] {
        BatchSegment(ck, c, r.state.digests);
        RecordsAppend(r.out, P.out);
        ReplaysAppend(ck, Records(r.out), Records(P.out), g, Head(Lookup(r.state.digests, tag)), Head(Lookup(P.digests, tag)));
      }
    }
    StepsInvariant(step, FilterResult(st, [], []), inv, |bs|);
  }

  /**
    The chain check accepts what the filter emits on one tag, from any
    starting state of @@state, provided its folds compute the filter's; the
    walk ends expecting the tag's head before the run as the oldest block's
    predecessor ("" for a tag never seen).
   */
  lemma ChainerOutputPasses(ck: Checker, env: Env, st: RegState, tag: string, bs: seq<Batch>)
    requires ck.prims == env.prims && FoldsMatch(ck.prims, ck.kind, RawInner)
    requires WellShaped(bs)
    requires RunBatches(HooksOf(env, tag), env, st, tag, bs).errors == []
    ensures var rs := Records(RunBatches(HooksOf(env, tag), env, st, tag, bs).out);
      && Check(ck, rs).Success?
      && (rs != [] ==> Check(ck, rs).value.lastBlockDigest == Some(Head(Lookup(st.digests, tag))))
  {
    ChainerOutputReplays(ck, env, st, tag, bs);
    var R := RunBatches(HooksOf(env, tag), env, st, tag, bs);
    ReplaysPass(ck, Records(R.out), Head(Lookup(st.digests, tag)), Head(Lookup(R.state.digests, tag)));
  }

  /** A stretch of chain that replays passes the whole check, which ends expecting its genesis. */
  lemma ReplaysPass(ck: Checker, rs: seq<Record>, genesis: string, head: string)
    requires Replays(ck, rs, genesis, head)
    ensures Check(ck, rs).Success?
    ensures rs != [] ==> Check(ck, rs).value.lastBlockDigest == Some(genesis)
  {
    assert WalkBack(ck, Start(None), rs).Success?;
    WalkBackMeta(ck, Start(None), rs);
    FirstBlockDigestFails(ck.prims, ck.kind, rs);
    var first := FirstBlockDigest(ck.prims, ck.kind, rs);
    assert first.Success?;
    assert WalkBack(ck, Start(first.value), rs).Success?;
  }

  /**
    Two filter instances with different interval settings on one tag share
    its chain through @@state, as the test's count and time cases do: the
    records of a run under the first followed by a run under the second
    pass the check as one chain.
   */
  lemma TwoConfigurationsPass(ck: Checker, env1: Env, env2: Env, st: RegState, tag: string, bs1: seq<Batch>, bs2: seq<Batch>)
    requires ck.prims == env1.prims && env2.prims == env1.prims && FoldsMatch(ck.prims, ck.kind, RawInner)
    requires WellShaped(bs1) && WellShaped(bs2)
    requires RunBatches(HooksOf(env1, tag), env1, st, tag, bs1).errors == []
    requires var R1 := RunBatches(HooksOf(env1, tag), env1, st, tag, bs1);
      RunBatches(HooksOf(env2, tag), env2, R1.state, tag, bs2).errors == []
    ensures var R1 := RunBatches(HooksOf(env1, tag), env1, st, tag, bs1);
      var R2 := RunBatches(HooksOf(env2, tag), env2, R1.state, tag, bs2);
      && Check(ck, Records(R1.out + R2.out)).Success?
      && (R1.out + R2.out != [] ==> Check(ck, Records(R1.out + R2.out)).value.lastBlockDigest == Some(Head(Lookup(st.digests, tag))))
  {
    var R1 := RunBatches(HooksOf(env1, tag), env1, st, tag, bs1);
    var R2 := RunBatches(HooksOf(env2, tag), env2, R1.state, tag, bs2);
    var g, mid, head := Head(Lookup(st.digests, tag)), Head(Lookup(R1.state.digests, tag)), Head(Lookup(R2.state.digests, tag));
    ChainerOutputReplays(ck, env1, st, tag, bs1);
    ChainerOutputReplays(ck, env2, R1.state, tag, bs2);
    ReplaysAppend(ck, Records(R1.out), Records(R2.out), g, mid, head);
    RecordsAppend(R1.out, R2.out);
    ReplaysPass(ck, Records(R1.out + R2.out), g, head);
  }

  /** The corrected check, folding the raw inner digest as the filter does, accepts what the filter emits. */
  lemma ChainerOutputPassesRaw(ck: Checker, env: Env, st: RegState, tag: string, bs: seq<Batch>)
    requires ck.prims == env.prims && ck.kind == RawInner
    requires WellShaped(bs)
    requires RunBatches(HooksOf(env, tag), env, st, tag, bs).errors == []
    ensures Check(ck, Records(RunBatches(HooksOf(env, tag), env, st, tag, bs).out)).Success?
  {
    ChainerOutputPasses(ck, env, st, tag, bs);
  }

  // ---------------------------------------------------------------------------
  // The check as written
  // ---------------------------------------------------------------------------

  /**
    The check as written folds the hex spelling of the inner digest. On a
    batch of one record it recomputes `Fold(HexInner, "", text)` where the
    filter stored `Fold(RawInner, "", text)`; when the two differ, as they
    do for SHA-256, it rejects the block with a run digest mismatch.
   */
  lemma AsWrittenCheckRejects(ck: Checker, env: Env, st: RegState, tag: string, b: Batch)
    requires ck.kind == HexInner && ck.prims == env.prims
    requires b.sized && |b.events| == 1 && Unmarked(b)
    requires FilterSpec(HooksOf(env, tag), env, st, tag, b).errors == []
    requires var t := MangleJson(env.prims, Hash(b.events[0].entries));
      Fold(env.prims, HexInner, "", t) != Fold(env.prims, RawInner, "", t)
    ensures Check(ck, Records(FilterSpec(HooksOf(env, tag), env, st, tag, b).out)) == Failure(RunDigestMismatch)
  {
    var h := HooksOf(env, tag);
    HooksOfLaws(env, tag);
    var p := env.prims;
    var c := Call(env, tag, NextBlockId(st.ids, tag), b, h);
    var m, run := BatchLast(c, st.digests);
    BatchRecords(c, m);
    var rs := Records(Process(c, st.digests, 1).out);
    var t := MangleJson(p, Hash(b.events[0].entries));
    assert Bodies(rs) == [Hash(b.events[0].entries)];
    assert run == Fold(p, RawInner, "", t);
    assert RunDigest(p, HexInner, Bodies(Reverse(rs))) == Fold(p, HexInner, "", t) by {
      assert Reverse(rs) == rs;
    }
    var w0 := Start(FirstBlockDigest(p, HexInner, rs).value);
    assert WalkBack(ck, w0, rs) == CloseBlock(ck, w0.(events := [rs[0]], block := Some(m)));
  }

  /**
    Stand-in primitives under which the two folds differ: the hex spelling
    of a digest is the digest with "h" appended, and every raw digest is "r".
   */
  function Toy(): Primitives
  {
    Primitives(v => "", s => "r", s => s + "h", s => s)
  }

  /** Under `Toy`, hashing the hex spelling never gives the same as hashing the raw digest. */
  lemma ToyFoldsDiffer(prev: string, input: string)
    ensures Fold(Toy(), HexInner, prev, input) != Fold(Toy(), RawInner, prev, input)
  {
    var hex := Fold(Toy(), HexInner, prev, input);
    var raw := Fold(Toy(), RawInner, prev, input);
    assert raw == "rh";
    assert hex == prev + input + "hh";
    assert |hex| >= 2 && hex[|hex| - 2] == 'h';
  }

  /** A filter instance with no anchoring, over the `Toy` primitives. */
  function ToyEnv(): Env
  {
    Env(Config(NoInterval, 0, "btc/test3", None), Toy(), Ledger((uri, data) => None, url => None), "exec")
  }

  /** One empty record, sized, at time 0. */
  function ToyBatch(): Batch
  {
    Batch([Incoming(0, [])], true, 0)
  }

  /**
    The check as written rejects what the filter emits for one empty record
    on a fresh tag, when the two folds differ.
   */
  lemma AsWrittenRejectsToy()
    ensures var out := FilterSpec(HooksOf(ToyEnv(), "t"), ToyEnv(), RegState(map[], map[]), "t", ToyBatch()).out;
      Check(Checker(Toy(), HexInner, url => None, text => None), Records(out)) == Failure(RunDigestMismatch)
  {
    var env, b := ToyEnv(), ToyBatch();
    var h := HooksOf(env, "t");
    var c := Call(env, "t", 0, b, h);
    var meta := BaseMeta(0, env.exec, 0);
    var run := Process(c, map[], 1).runDigest;
    SizedBatch(c, map[]);
    assert h.chain(Fresh, 0, 0, meta, run) == ChainBlockSpec(env, Fresh, "t", 0, 0, meta.(digest := Some(run)));
    ToyFoldsDiffer("", MangleJson(Toy(), Hash([])));
    AsWrittenCheckRejects(Checker(Toy(), HexInner, url => None, text => None), env, RegState(map[], map[]), "t", b);
  }
}
