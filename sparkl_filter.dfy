/**
  The filter as the Ruby class runs it: `@@state` is a `Registry` object whose
  two maps are updated in place, and `filter_stream`, `get_state` and
  `chain_block` are methods of `Filter` that change it step by step. Each
  method is proved to compute the functions of `ChainModel` and `BatchModel`,
  so the lemmas proved there hold of what the methods do.

  A digest or id entry is a value here: `get_state` hands out a copy, and the
  method that changed it writes it back under the same tag, which is what
  the Ruby code does by mutating the hash the map holds.
 */
module SparklFilter {
  import opened Wrappers
  import opened Canonical
  import opened Digests
  import opened ChainModel
  import opened BatchModel

  /** One event of `filter_stream` with the filter's own hooks, spelled out. */
  lemma FilterEventStep(c: Call, s: Progress, i: nat)
    requires c.hooks == HooksOf(c.env, c.tag) && i < |c.batch.events|
    ensures var ev := c.batch.events[i];
      var p := c.env.prims;
      var run := Fold(p, RawInner, s.runDigest, MangleJson(p, Hash(ev.entries)));
      var meta := BaseMeta(i, c.env.exec, c.blockId);
      var fields := WithoutKey(ev.entries, SparklKey);
      var s' := EventStep(c, s, i);
      && s'.runDigest == run
      && (Finalises(c.batch, i) ==>
            var r := ChainBlockSpec(c.env, Lookup(s.digests, c.tag), c.tag, ev.time, c.batch.clock, meta.(digest := Some(run)));
            var rec := Event(ev.time, Record(fields, Some(r.meta)));
            && s'.digests == s.digests[c.tag := r.entry]
            && s'.out == (if r.raised.Some? then s.out else s.out + [rec])
            && s'.errors == (if r.raised.Some? then s.errors + [rec] else s.errors))
      && (!Finalises(c.batch, i) ==>
            && s'.digests == s.digests
            && s'.out == s.out + [Event(ev.time, Record(fields, Some(meta)))]
            && s'.errors == s.errors)
  {
    EventStepShape(c, s, i);
  }

  /** `FilterSpec` in terms of the block id it takes and the batch's progress. */
  lemma FilterSpecOf(h: Hooks, env: Env, st: RegState, tag: string, b: Batch, blockId: int)
    requires blockId == NextBlockId(st.ids, tag)
    ensures var s := Process(Call(env, tag, blockId, b, h), st.digests, |b.events|);
      FilterSpec(h, env, st, tag, b)
        == FilterResult(RegState(st.ids[tag := Lookup(st.ids, tag).(index := Some(blockId + 1))], s.digests), s.out, s.errors)
  {
  }

  /** The two maps of @@state: `:id` and `:digest`. */
  datatype Which = IdMap | DigestMap

  /** `@@state`, shared by every filter instance. */
  class Registry {
    var ids: map<string, StateRecord>      // @@state[:id]
    var digests: map<string, StateRecord>  // @@state[:digest]

    constructor ()
      ensures ids == map[] && digests == map[]
    {
      ids := map[];
      digests := map[];
    }

    /** The map `which` names. */
    function Table(which: Which): map<string, StateRecord>
      reads this
    {
      if which == IdMap then ids else digests
    }

    /** Both maps, as the batch functions take them. */
    function State(): RegState
      reads this
    {
      RegState(ids, digests)
    }

    /**
      `get_state(which, tag)`: the entry of a known tag, or a fresh entry that
      is stored under the tag first. The other tags, and the other map, keep
      their entries.
     */
    method GetState(which: Which, tag: string) returns (e: StateRecord)
      modifies this
      ensures e == Lookup(old(Table(which)), tag)
      ensures tag in Table(which) && Table(which) == old(Table(which))[tag := e]
      ensures tag in old(Table(which)) ==> Table(which) == old(Table(which))
      ensures which == IdMap ==> digests == old(digests)
      ensures which == DigestMap ==> ids == old(ids)
    {
      var m := if which == IdMap then ids else digests;
      if tag in m {
        e := m[tag];
      } else {
        e := Fresh;
        if which == IdMap {
          ids := ids[tag := e];
        } else {
          digests := digests[tag := e];
        }
      }
    }
  }

  /** A configured instance of the filter. */
  class Filter {
    const env: Env
    const registry: Registry

    constructor (env: Env, registry: Registry)
      ensures this.env == env && this.registry == registry
    {
      this.env := env;
      this.registry := registry;
    }

    /**
      `chain_block(tag, time, record)` for a record whose metadata is `m`;
      `now` is the clock reading a fresh entry in time mode starts from. The
      tag's digest entry becomes the one `ChainBlockSpec` computes, also when
      the step raises part way.
     */
    method ChainBlock(tag: string, time: int, now: int, m: Meta) returns (m': Meta, raised: Option<ChainError>)
      requires m.digest.Some?
      modifies registry
      ensures var r := ChainBlockSpec(env, Lookup(old(registry.digests), tag), tag, time, now, m);
        && registry.digests == old(registry.digests)[tag := r.entry]
        && registry.ids == old(registry.ids)
        && m' == r.meta && raised == r.raised
    {
      ghost var e0 := Lookup(registry.digests, tag);
      ghost var r := ChainBlockSpec(env, e0, tag, time, now, m);
      var cfg := env.config;
      m' := m.(streamTag := Some(tag));
      var d := registry.GetState(DigestMap, tag);
      ghost var digests1 := registry.digests;
      if d.last.None? {
        d := d.(last := Some(""), index := Some(0));
        if cfg.intervalType == Count {
          d := d.(count := Some(0));
        } else if cfg.intervalType == Time {
          d := d.(count := Some(now));
        }
      }
      assert d == Initialised(cfg, e0, now);
      m' := m'.(prevdigest := d.last);
      d := d.(last := Some(Fold(env.prims, RawInner, m'.prevdigest.value, m'.digest.value)));
      if d.first.None? {
        d := d.(first := d.last);
      }
      raised := None;
      if cfg.intervalType == Count {
        if d.count.None? {
          raised := Some(NilCount);
        } else {
          d := d.(count := Some(d.count.value + 1));
          if d.count.value == cfg.actionInterval {
            m', d, raised := Anchor(m', d, 0);
          }
        }
      } else if cfg.intervalType == Time {
        if d.count.None? {
          raised := Some(NilCount);
        } else {
          var expiry := d.count.value + cfg.actionInterval;
          if time >= expiry {
            m', d, raised := Anchor(m', d, expiry);
          }
        }
      }
      assert d == r.entry && m' == r.meta && raised == r.raised;
      registry.digests := registry.digests[tag := d];
      assert digests1[tag := d] == old(registry.digests)[tag := d];
    }

    /**
      What `chain_block` does when the policy calls for an anchor:
      `send_digest`, then the counter set to `resetCount` and the anchor
      index advanced. A raise stops it where it happens.
     */
    method Anchor(m: Meta, d: StateRecord, resetCount: int) returns (m': Meta, d': StateRecord, raised: Option<ChainError>)
      requires d.first.Some? && d.last.Some?
      ensures BlockStep(d', m', raised) == ChainModel.Anchor(env, d, m, resetCount)
    {
      m', d', raised := m, d, None;
      match SendDigest(env, m, d.first.value, d.last.value, d.index)
      case Failure(err) =>
        raised := Some(err);
      case Success(m1) =>
        m' := m1;
        d' := d'.(count := Some(resetCount));
        if d'.index.None? {
          raised := Some(NilIndex);
        } else {
          d' := d'.(index := Some(d'.index.value + 1));
        }
    }

    /**
      The first lines of `filter_stream`: the tag's id entry yields the block
      id of this batch (0 for a new tag) and then holds the next one.
     */
    method TakeBlockId(tag: string) returns (blockId: int)
      modifies registry
      ensures blockId == NextBlockId(old(registry.ids), tag)
      ensures registry.ids == old(registry.ids)[tag := Lookup(old(registry.ids), tag).(index := Some(blockId + 1))]
      ensures registry.digests == old(registry.digests)
    {
      var id := registry.GetState(IdMap, tag);
      if id.index.None? {
        id := id.(index := Some(0));
      }
      blockId := id.index.value;
      id := id.(index := Some(blockId + 1));
      registry.ids := registry.ids[tag := id];
    }

    /**
      The body of the `each_with_index` block of `filter_stream` for the
      record at `i`: it advances the running digest, tags the record and, on
      a record that closes the block, runs `chain_block`. The digests map and
      the streams move on as one `EventStep` of the batch.
     */
    method FilterEvent(ghost c: Call, tag: string, b: Batch, blockId: int, i: nat, run: string, out: seq<Event>, errors: seq<Event>)
      returns (run': string, out': seq<Event>, errors': seq<Event>)
      requires c == Call(env, tag, blockId, b, HooksOf(env, tag)) && i < |b.events|
      modifies registry
      ensures Progress(registry.digests, run', out', errors') == EventStep(c, Progress(old(registry.digests), run, out, errors), i)
      ensures registry.ids == old(registry.ids)
    {
      ghost var s := Progress(registry.digests, run, out, errors);
      FilterEventStep(c, s, i);
      var p := env.prims;
      var ev := b.events[i];
      run' := Fold(p, RawInner, run, MangleJson(p, Hash(ev.entries)));
      var meta := BaseMeta(i, env.exec, blockId);
      var fields := WithoutKey(ev.entries, SparklKey);
      out', errors' := out, errors;
      if !b.sized || i + 1 == |b.events| {
        var m', raised := ChainBlock(tag, ev.time, b.clock, meta.(digest := Some(run')));
        if raised.Some? {
          errors' := errors + [Event(ev.time, Record(fields, Some(m')))];
        } else {
          out' := out + [Event(ev.time, Record(fields, Some(m')))];
        }
      } else {
        out' := out + [Event(ev.time, Record(fields, Some(meta)))];
      }
    }

    /**
      `filter_stream(tag, es)`: takes the tag's next block id, then runs the
      block body on each record in arrival order. The registry and the two
      streams end up as `FilterSpec` says.
     */
    method FilterStream(tag: string, b: Batch) returns (out: seq<Event>, errors: seq<Event>)
      modifies registry
      ensures var f := FilterSpec(HooksOf(env, tag), env, old(registry.State()), tag, b);
        && registry.State() == f.state
        && out == f.out && errors == f.errors
    {
      var blockId := TakeBlockId(tag);
      ghost var ids1 := registry.ids;
      ghost var d0 := registry.digests;
      ghost var c := Call(env, tag, blockId, b, HooksOf(env, tag));
      var run := "";
      out, errors := [], [];
      var i := 0;
      while i < |b.events|
        invariant i <= |b.events|
        invariant registry.ids == ids1
        invariant Process(c, d0, i) == Progress(registry.digests, run, out, errors)
      {
        run, out, errors := FilterEvent(c, tag, b, blockId, i, run, out, errors);
        ProcessUnfold(c, d0, i + 1);
        i := i + 1;
      }
      FilterSpecOf(HooksOf(env, tag), env, old(registry.State()), tag, b, blockId);
    }
  }
}
