# fluent-plugin-sparkl, modelled in Dafny

The sparkl filter is a Fluentd filter plugin. It hash-chains log records per tag (the Fluentd stream key). It has three parts:

- **Record canonicaliser.** `SparklFilter.mangle_` and `mangle` turn a record into a canonical tree. Hash slots become `[key, value]` pairs sorted by key, nil becomes `""`, and the tree is then dumped as JSON.
- **Batch chainer.** `filter_stream` takes each batch's block id from a per-tag counter. It folds every record into a running digest and tags every record with `index`, `exec` and `block_id`. On the batch's last record it calls `chain_block`.
  - `chain_block` links the block to the tag's chain (`prevdigest`, `:last`, `:first`).
  - It then applies the `count` or `time` anchoring policy. On an anchor, `send_digest` posts `rmd160(first ++ index) ++ rmd160(last)` to the BlockCypher ledger.
- **Chain check.** `verify(records)` in the test suite walks the emitted records newest first. It closes a block at each record with index 0. There it recomputes the running digest and the block digest and checks the link to the newer block. For an anchored block it compares the ledger transaction with the block, inside a bare `rescue`.

The project's modules:

- `Canonical` (canonical.dfy): the value tree, the key order and `mangle_`, with its order-insensitivity and nil-keeping properties.
- `Digests` (digests.dfy): SHA-256, RIPEMD-160 and `JSON.dump` as fields of a `Primitives` value. Built from them: the two-round `Fold`, the running digest `RunDigest`, `Integer#to_s` and the anchor payload.
- `ChainModel` (chain_model.dfy): records, the metadata slot, the per-tag state entries, `send_digest` and `chain_block` as functions, and the two anchoring policies.
- `BatchModel` (batch_model.dfy): `filter_stream` as a fold over the records of a batch, and successive calls as a fold over batches. It proves what a batch emits, how the chain grows across batches and how block ids advance.
- `SparklFilter` (sparkl_filter.dfy): the plugin as the Ruby class runs it.
  - `Registry` holds the two maps of `@@state` and updates them in place.
  - `Filter` has the methods `FilterStream`, `ChainBlock` and `TakeBlockId`. Each is proved to compute the function that specifies it.
- `ChainVerifier` (chain_verifier.dfy): `verify` as a walk function (`WalkBack`, `Check`) and as the test's loops (`Verify` and the methods it calls), proved equal.
- `ChainTheorem` (chain_theorem.dfy): the chain check accepts what the filter emits, provided the check folds as the filter does. The check as written does not fold that way (see Findings).

The check takes the inner round of its folds as a parameter (`FoldKind`):

- `RawInner` hashes the raw inner digest, as the filter does.
- `HexInner` hashes its hex spelling, as the test does.

Where the documented design and the code differ, the model follows the code:

- **`:index`.** The code advances a tag's `:index` only when `send_digest` is called (lib/fluent/plugin/filter_sparkl.rb:179, 186). It does not advance on every block.
- **`block_index` timing.** `send_digest` writes `block_index` before the ledger calls (line 204), so the slot is present even when those calls fail.
- **Missing token.** Without a `coinnet_token`, `send_digest` raises outside its `begin` (line 201). The record then goes to the error stream, and the chain state `chain_block` had already updated stays updated. The token defaults to nil (line 58), so this is the ordinary outcome for a count- or time-mode instance without one. In count mode the raise comes before the counter is reset (lines 177-179), so the counter stays at `action_interval`; the next block takes it past, and no later block on the tag anchors. In time mode it comes before the counter advances (lines 184-186), so every later block past the same expiry time raises again and its record goes to the error stream too. The blocks that raised are still linked into the chain, so the chain runs through the error stream as well as the output. `NilCount` is the analogous case: a tag whose first block ran with no interval type has no `:count`, and a later count- or time-mode block on it raises. Count and time mode both set `:count` and share it through `@@state`, so switching between them never raises. Instead the counter is misread. A time-mode block reads a count-mode counter as a start time and anchors as soon as its time reaches `action_interval` plus that small number. A count-mode block reads a time-mode start time as a count that is already past `action_interval`, so it never anchors.
- **Unsized streams.** A stream without `size` closes a block on every record (line 92). Record `i` then carries the running digest of records 0 to `i`. The chain check meets index 0 only at the first record, with that record's metadata as the current block. So it compares the running digest over all the records with the digest of the first record alone.
- **Confirmation times.** The chain check requires strictly decreasing ledger confirmation times (`>`, test line 132).
- **Swallowed anchor checks.** The check's assertions on anchored blocks are swallowed by the bare `rescue` (test line 159), so they never fail `verify`. `ChainVerifier.CheckIgnoresLedger` proves that the verdict is the same whatever the ledger returns. The model keeps each anchored block's outcome (`Confirmed` or `Swallowed(reason)`) so that the checks can still be stated.
- **Genesis not pinned.** The chain check does not require the oldest block's `prevdigest` to be `""`. It accepts any run of a tag's output, from any earlier state (`ChainTheorem.ChainerOutputPasses`).

## Model

| member | source | states |
|---|---|---|
| Canonical.StrLtIrreflexive | lib/fluent/plugin/filter_sparkl.rb:118 | no key sorts before itself |
| Canonical.StrLtTransitive | lib/fluent/plugin/filter_sparkl.rb:118 | the key order used by `res.sort` is transitive |
| Canonical.StrLtTotal | lib/fluent/plugin/filter_sparkl.rb:118 | of two distinct keys, one sorts first |
| Canonical.SortByKey | lib/fluent/plugin/filter_sparkl.rb:113-118 | the sorted slots are in key order and are a permutation of the slots given |
| Canonical.SortedPermutationUnique | lib/fluent/plugin/filter_sparkl.rb:118 | two key-sorted permutations of the same slots, keys determining slots, are equal: the sort result does not depend on the order it starts from |
| Canonical.Mangle | lib/fluent/plugin/filter_sparkl.rb:111-130 | the result is canonical (no Hash, no nil anywhere); an Array keeps its length; a Hash becomes a list with one entry per slot; strings, numbers and booleans come back unchanged |
| Canonical.SortedPairs | lib/fluent/plugin/filter_sparkl.rb:112-118 | a Hash's canonical form is a canonical list with one pair per slot |
| Canonical.MangleArray | lib/fluent/plugin/filter_sparkl.rb:119-124 | an Array canonicalises element by element, keeping its length and order |
| Canonical.MangleHash | lib/fluent/plugin/filter_sparkl.rb:112-118 | a Hash with distinct keys canonicalises to its `[key, value]` pairs, in strictly increasing key order, each slot kept once with its value canonicalised |
| Canonical.MangleNil | lib/fluent/plugin/filter_sparkl.rb:125-126 | nil canonicalises to `""`, it is not dropped |
| Canonical.MangleOrderInsensitive | lib/fluent/plugin/filter_sparkl.rb:112-118 | two Hashes with the same slots in different insertion orders canonicalise to the same tree |
| Canonical.MangleFixesCanonical | lib/fluent/plugin/filter_sparkl.rb:111-130 | a canonical tree is its own canonical form |
| Canonical.MangleIdempotent | lib/fluent/plugin/filter_sparkl.rb:111-130 | canonicalising twice is canonicalising once |
| Canonical.MangleEntriesPermutation | lib/fluent/plugin/filter_sparkl.rb:115-117 | canonicalising the values of permuted slots gives permuted canonical slots |
| Digests.MangleJsonOrderInsensitive | lib/fluent/plugin/filter_sparkl.rb:104-107 | `mangle` gives the same JSON text for a record whatever its slots' insertion order |
| Digests.MangleJsonNilNotElided | lib/fluent/plugin/filter_sparkl.rb:104-107 | with an injective serialiser, `{k => nil}` and `{}` have different texts |
| Digests.RunDigestFoldsMatch | lib/fluent/plugin/filter_sparkl.rb:82-85 | two folds that compute the same values give the same running digest over any records |
| Digests.InnerAgreementMatchesFolds | lib/fluent/plugin/filter_sparkl.rb:83-84 | if hashing a raw SHA-256 digest and hashing its hex spelling always agree, the filter's fold and the check's fold agree |
| Digests.NatToString | lib/fluent/plugin/filter_sparkl.rb:195 | `index.to_s` is a non-empty string of decimal digits |
| Digests.NatToStringRoundTrip | lib/fluent/plugin/filter_sparkl.rb:195 | reading `index.to_s` back gives the index |
| Digests.NatToStringInjective | lib/fluent/plugin/filter_sparkl.rb:195 | distinct anchor indices give distinct commitment-key inputs |
| ChainModel.WithoutKeyMembers | lib/fluent/plugin/filter_sparkl.rb:87 | the outgoing record keeps exactly the slots other than `.sparkl` |
| ChainModel.WithoutKeyAbsent | lib/fluent/plugin/filter_sparkl.rb:87 | a record with no `.sparkl` slot keeps all its slots, in order |
| ChainModel.SendDigest | lib/fluent/plugin/filter_sparkl.rb:192-214 | raises exactly when no token is configured; otherwise `block_index` is recorded whatever the ledger does, `get` exactly when the post returned a hash, `received` from the fetched transaction, nothing else changes |
| ChainModel.Initialised | lib/fluent/plugin/filter_sparkl.rb:155-163 | a tag's first block sets `:last` to `""` and `:index` to 0; a used entry is left alone |
| ChainModel.Anchor | lib/fluent/plugin/filter_sparkl.rb:177-179 | after `send_digest` the counter is reset and the index grows by one; it raises only for a missing token or a missing index |
| ChainModel.ChainBlockSpec | lib/fluent/plugin/filter_sparkl.rb:149-190 | `prevdigest` is the tag's head before the block; the new `:last` is the fold of the block's digest onto it; `:first` is set by the first block only; `class` is the tag; well-formed entries stay well-formed; without an interval type it never raises and never anchors |
| ChainModel.CountModeStep | lib/fluent/plugin/filter_sparkl.rb:174-180 | count mode with a token: the block that brings `:count` to `action_interval` is anchored with the current index, then `:count` is 0 and `:index` grows by one; other blocks only advance `:count` |
| ChainModel.TimeModeStep | lib/fluent/plugin/filter_sparkl.rb:181-187 | time mode with a token: a block is anchored exactly when its time reaches `:count + action_interval`; `:count` then advances by exactly `action_interval` and `:index` by one |
| ChainModel.FreshEntryCounter | lib/fluent/plugin/filter_sparkl.rb:158-162 | a new tag's counter starts at 0 in count mode, at the clock in time mode, unset otherwise |
| ChainModel.MismatchedIntervalRaises | lib/fluent/plugin/filter_sparkl.rb:174-186 | an entry whose first block ran with no interval type has no counter; under count or time mode: the block is linked, then the step raises |
| ChainModel.CountThenTimeAnchors | lib/fluent/plugin/filter_sparkl.rb:156-187 | the counter is shared between modes: after one count-mode block on a fresh tag (counter 1, no anchor), a time-mode block anchors with index 0 as soon as its time reaches `1 + action_interval` |
| ChainModel.CountPastIntervalNeverAnchors | lib/fluent/plugin/filter_sparkl.rb:174-180 | a count-mode block on a counter already at or past `action_interval` (for example a time-mode start time) does not anchor and leaves the counter past `action_interval`, so no later count-mode block anchors either |
| ChainModel.CountModeNoToken | lib/fluent/plugin/filter_sparkl.rb:174-180 | count mode without a token: the block that brings `:count` to `action_interval` is linked and raises `NilToken` with `:count` left at `action_interval` and `:index` unchanged; the next block takes `:count` past `action_interval` without anchoring or raising |
| ChainModel.TimeModeNoToken | lib/fluent/plugin/filter_sparkl.rb:181-187 | time mode without a token: a block past the expiry time is linked and raises `NilToken` with `:count` and `:index` unchanged, and so does every later block past the same expiry time |
| BatchModel.ChainBlockLaws | lib/fluent/plugin/filter_sparkl.rb:165-172 | every `chain_block` outcome links to the prior head, folds the new head, sets `:first` once and keeps the record's index, exec and block id |
| BatchModel.HooksOfLaws | lib/fluent/plugin/filter_sparkl.rb:80-96 | the filter hashes `mangle(record)`, strips only `.sparkl` and chains with `chain_block` |
| BatchModel.ProcessRunDigest | lib/fluent/plugin/filter_sparkl.rb:82-85 | after `k` records the running digest is the fold over the first `k` records' texts, from `""` |
| BatchModel.CarriedOnceStep | lib/fluent/plugin/filter_sparkl.rb:87-99 | one more record leaves, once, in one of the two streams, in order |
| BatchModel.ProcessCarries | lib/fluent/plugin/filter_sparkl.rb:80-100 | every record of a batch leaves exactly once, in arrival order, carrying its own index, `@@execution_id` and the batch's block id |
| BatchModel.SizedPrefix | lib/fluent/plugin/filter_sparkl.rb:92-96 | in a sized batch the records before the last get no digest and leave the chain state alone |
| BatchModel.SizedBatch | lib/fluent/plugin/filter_sparkl.rb:92-96 | a sized batch runs `chain_block` once, on its last record, with the running digest of the whole batch |
| BatchModel.SizelessFinalisesEvery | lib/fluent/plugin/filter_sparkl.rb:92-95 | a stream without a size closes a block on every record |
| BatchModel.LinkedAppend | lib/fluent/plugin/filter_sparkl.rb:165-169 | two linked runs of blocks, the second starting at the first's head, form one linked run |
| BatchModel.ChainKeptStep | lib/fluent/plugin/filter_sparkl.rb:165-172 | one record that does not go to the error stream keeps the emitted blocks linked from the starting head, the tag's head at the end of that chain and `:first` set once |
| BatchModel.ProcessKeepsChain | lib/fluent/plugin/filter_sparkl.rb:165-172 | a batch that raised nothing emits blocks linked from the tag's head before it, ending at its head after |
| BatchModel.ChainKeptAppend | lib/fluent/plugin/filter_sparkl.rb:165-172 | chain facts of consecutive runs of records compose |
| BatchModel.ProcessOtherTags | lib/fluent/plugin/filter_sparkl.rb:153-154 | a batch changes no other tag's digest entry |
| BatchModel.ProcessKeepsFirst | lib/fluent/plugin/filter_sparkl.rb:170-172 | once set, a tag's `:first` survives a batch |
| BatchModel.RunBatchesChain | lib/fluent/plugin/filter_sparkl.rb:149-172 | in runs that sent no record to the error stream, the output blocks of successive calls on one tag form one chain from the tag's head before them; `:first` is set by the first block ever |
| BatchModel.MergeInterleaves | lib/fluent/plugin/filter_sparkl.rb:80-100 | merging a batch's output and error stream by record index keeps each stream's order and adds or drops nothing |
| BatchModel.ChainKeptStepAny | lib/fluent/plugin/filter_sparkl.rb:165-187 | one record keeps both streams, merged in arrival order, linked from the starting head, whichever stream it goes to, because `chain_block` links before it can raise |
| BatchModel.ProcessChainAll | lib/fluent/plugin/filter_sparkl.rb:80-100 | a batch's output and error stream, merged in arrival order, are a chain from the tag's head before the batch to its head after, also when `chain_block` raised |
| BatchModel.RunBatchesChainAll | lib/fluent/plugin/filter_sparkl.rb:64-102 | for any run of calls on one tag, errors included, the records of both streams merged call by call in arrival order are an interleaving of the two streams and one chain from the tag's head before the run to its head after, with `:first` set once; without errors the merge is the output |
| BatchModel.BlockIdsAppend | lib/fluent/plugin/filter_sparkl.rb:90 | block-id ranges of consecutive outputs compose |
| BatchModel.BatchBlockIds | lib/fluent/plugin/filter_sparkl.rb:90 | every record of a batch carries the batch's block id |
| BatchModel.BlockIdsStep | lib/fluent/plugin/filter_sparkl.rb:71-78 | each call takes the counter as its block id and advances it by one |
| BatchModel.RunBatchesBlockIds | lib/fluent/plugin/filter_sparkl.rb:71-78 | batch `j` of a run gets block id `base + j`, starting at 0 for a new tag, and the records carry non-decreasing block ids |
| BatchModel.RunBatchesOtherTags | lib/fluent/plugin/filter_sparkl.rb:132-147 | calls on one tag leave every other tag's id and digest entries unchanged |
| BatchModel.FirstNeverChanges | lib/fluent/plugin/filter_sparkl.rb:170-172 | a tag's `:first`, once set, never changes |
| SparklFilter.Registry.constructor | lib/fluent/plugin/filter_sparkl.rb:31-34 | `@@state` starts with both maps empty |
| SparklFilter.Registry.GetState | lib/fluent/plugin/filter_sparkl.rb:132-147 | returns the tag's entry, or stores and returns a fresh one; other tags and the other map are unchanged |
| SparklFilter.Filter.constructor | lib/fluent/plugin/filter_sparkl.rb:27-62 | an instance holds its configuration and the shared registry |
| SparklFilter.Filter.ChainBlock | lib/fluent/plugin/filter_sparkl.rb:149-190 | updates the tag's digest entry in place to the one `ChainBlockSpec` computes, also when it raises; the id map is untouched |
| SparklFilter.Filter.Anchor | lib/fluent/plugin/filter_sparkl.rb:177-186 | the anchoring branch computes `ChainModel.Anchor` |
| SparklFilter.Filter.TakeBlockId | lib/fluent/plugin/filter_sparkl.rb:71-78 | the block id is the tag's counter (0 for a new tag) and the counter then holds the next one |
| SparklFilter.Filter.FilterEvent | lib/fluent/plugin/filter_sparkl.rb:81-99 | the loop body moves the registry and the streams on by one `EventStep` |
| SparklFilter.Filter.FilterStream | lib/fluent/plugin/filter_sparkl.rb:64-102 | the registry and both streams end up as `FilterSpec` says |
| ChainVerifier.Reverse | test/plugin/test_filter_sparkl.rb:76 | element `i` of the reversal is element `n - 1 - i` |
| ChainVerifier.FirstBlockDigest | test/plugin/test_filter_sparkl.rb:57-66 | the first loop fails only on a record without metadata |
| ChainVerifier.FirstBlockDigestFails | test/plugin/test_filter_sparkl.rb:57-66 | the first loop raises exactly when a record without metadata comes before any digest |
| ChainVerifier.FirstBlockDigestNone | test/plugin/test_filter_sparkl.rb:57-66 | it finds nothing exactly when every record has metadata and none a digest |
| ChainVerifier.FirstBlockDigestFound | test/plugin/test_filter_sparkl.rb:57-66 | it is the double hash of the oldest record's digest |
| ChainVerifier.FindFirstBlockDigest | test/plugin/test_filter_sparkl.rb:57-66 | the loop with `break` computes `FirstBlockDigest` |
| ChainVerifier.DataHex | test/plugin/test_filter_sparkl.rb:137-143 | the `data_hex` of the first null-data output; none when there is no such output |
| ChainVerifier.FindDataHex | test/plugin/test_filter_sparkl.rb:137-143 | the loop with `break` computes `DataHex` |
| ChainVerifier.ConfirmTime | test/plugin/test_filter_sparkl.rb:123-134 | passes only if the fetched transaction has the block's `received` time, that time parses and it is earlier than the newer anchor's |
| ChainVerifier.ConfirmCommitment | test/plugin/test_filter_sparkl.rb:137-158 | confirmed only if `data_hex` is the recomputed commitment and `block_index` counts down by one from the newer anchor's; once a commitment output is found, `block_index` moves on before it is compared, whatever the outcome, and a mismatch is reported exactly when the moved index differs from the block's |
| ChainVerifier.CheckAnchor | test/plugin/test_filter_sparkl.rb:121-161 | a confirmed anchor matches the ledger's time and commitment; confirmation times strictly decrease and indices count down by one walking back; a check stopped early leaves the state alone; with no commitment output `block_index` is unchanged; after an index, first-digest or payload mismatch, as after a confirmation, `block_index` has still counted down by one (or started at the block's own) |
| ChainVerifier.ReadConfirmation | test/plugin/test_filter_sparkl.rb:123-134 | computes `ConfirmTime` |
| ChainVerifier.CheckCommitment | test/plugin/test_filter_sparkl.rb:144-158 | computes `ConfirmCommitment` |
| ChainVerifier.AnchorCheck | test/plugin/test_filter_sparkl.rb:121-161 | computes `CheckAnchor` |
| ChainVerifier.CloseBlock | test/plugin/test_filter_sparkl.rb:86-164 | a block passes exactly when the buffered records, oldest first and without `.sparkl`, fold to the block's digest, and the block digest is the newer block's `prevdigest`; the buffer is then emptied and this block's `prevdigest` carried forward |
| ChainVerifier.Step | test/plugin/test_filter_sparkl.rb:76-86 | a record joins the buffer, becomes the current block if it has a digest, and closes the block at index 0 |
| ChainVerifier.WalkBackAppend | test/plugin/test_filter_sparkl.rb:76 | walking `a + b` walks the newer `b` first, then `a` |
| ChainVerifier.WalkBackStops | test/plugin/test_filter_sparkl.rb:76-167 | a failure on the newest records is the failure of the whole walk |
| ChainVerifier.WalkBackMeta | test/plugin/test_filter_sparkl.rb:79 | a walk that passes has met metadata on every record |
| ChainVerifier.StepIgnoresLedger | test/plugin/test_filter_sparkl.rb:121-161 | one record's verdict does not depend on the ledger or the time parser |
| ChainVerifier.WalkIgnoresLedger | test/plugin/test_filter_sparkl.rb:121-161 | the walk's verdict does not depend on the ledger or the time parser |
| ChainVerifier.CheckIgnoresLedger | test/plugin/test_filter_sparkl.rb:159-160 | the bare `rescue` makes `verify`'s verdict the same whatever the ledger says |
| ChainVerifier.RecomputeRunDigest | test/plugin/test_filter_sparkl.rb:91-106 | the inner loop computes the running digest over the buffer, oldest first |
| ChainVerifier.CheckBlock | test/plugin/test_filter_sparkl.rb:86-164 | computes `CloseBlock` |
| ChainVerifier.VisitRecord | test/plugin/test_filter_sparkl.rb:76-86 | computes `Step` |
| ChainVerifier.Verify | test/plugin/test_filter_sparkl.rb:54-168 | `verify` passes exactly when `Check` does, fails with its error, and reports the anchor outcomes of the walk |
| ChainTheorem.ReplaysAppend | test/plugin/test_filter_sparkl.rb:109-118 | two stretches of chain that meet replay as one |
| ChainTheorem.SegmentTail | test/plugin/test_filter_sparkl.rb:76-84 | the records of a block after its first are buffered newest first under the block's last record |
| ChainTheorem.SegmentReplays | test/plugin/test_filter_sparkl.rb:86-118 | a block as the filter emits it passes the block check, carrying its `prevdigest` forward |
| ChainTheorem.BatchRecords | lib/fluent/plugin/filter_sparkl.rb:87-96 | a sized batch's records carry indices in order, only the last has a digest, and their bodies are the records as they arrived |
| ChainTheorem.BlockSegment | lib/fluent/plugin/filter_sparkl.rb:80-96 | a sized batch with no incoming `.sparkl` slot: its output is one block from its predecessor to the fold of its running digest |
| ChainTheorem.BatchLast | lib/fluent/plugin/filter_sparkl.rb:92-94 | the last record of a sized batch carries the batch's running digest and names the tag's head as predecessor; the new head is their fold |
| ChainTheorem.BatchSegment | lib/fluent/plugin/filter_sparkl.rb:64-102 | a sized batch with no incoming `.sparkl` slot that raised nothing emits a stretch of chain from the tag's head before to its head after |
| ChainTheorem.ChainerOutputReplays | lib/fluent/plugin/filter_sparkl.rb:64-102 | successive calls on one tag with sized batches, no incoming `.sparkl` slot and no record sent to the error stream emit one stretch of chain from the tag's first head to its last |
| ChainTheorem.ChainerOutputPasses | test/plugin/test_filter_sparkl.rb:54-168 | a chain check whose folds compute the filter's accepts what the filter emits on one tag, and ends expecting the tag's head before the run |
| ChainTheorem.ReplaysPass | test/plugin/test_filter_sparkl.rb:54-168 | a stretch of records that replays as a chain passes the whole check, which ends expecting the stretch's genesis |
| ChainTheorem.TwoConfigurationsPass | test/plugin/test_filter_sparkl.rb:196-222 | two instances with different interval settings on one tag build one chain through the shared state: the first run's records followed by the second's pass the check, which ends expecting the tag's head before both (same scope as `ChainerOutputPasses`) |
| ChainTheorem.ChainerOutputPassesRaw | test/plugin/test_filter_sparkl.rb:54-168 | a chain check folding the raw inner digest, as the filter does, accepts what the filter emits for sized batches with no incoming `.sparkl` slot and no record sent to the error stream |
| ChainTheorem.AsWrittenCheckRejects | test/plugin/test_filter_sparkl.rb:100-107 | the check as written rejects a one-record batch with a running-digest mismatch whenever the two folds differ on it |
| ChainTheorem.ToyFoldsDiffer | test/plugin/test_filter_sparkl.rb:100-102 | primitives exist under which hashing the hex spelling differs from hashing the raw digest |
| ChainTheorem.AsWrittenRejectsToy | test/plugin/test_filter_sparkl.rb:100-107 | one empty record on a fresh tag is rejected by the check as written |

## Left out

- **Concurrency.** `@@mutex` and the per-tag mutexes are left out. The model is sequential, and the double check in `get_state` collapses to a single lookup.
- **Outside calls as parameters.** The HTTP calls to BlockCypher (`RestClient.post`/`get` with `JSON.parse`), the clock (`Time.now` for `@@execution_id` and for the time-mode start) and RFC 3339 parsing are parameters: `Ledger`, `Env.exec`, `Batch.clock` and `Checker.parseTime`.
- **Opaque hashing and JSON.** SHA-256, RIPEMD-160 and `JSON.dump` are opaque total functions. A failure inside `mangle` (an exception from `JSON.dump`) is not modelled.
- **Value tree.** Values are nil, strings, integers, booleans, arrays and hashes with string keys. Floats, symbols, times and non-String keys are not modelled. Key order is by character code, which is Ruby's byte order for ASCII keys.
- **Re-adding `.sparkl` in `verify`.** The check deletes `.sparkl` from each record and puts it back, which moves the slot to the end. Records are values here, so this is hashing `Hash(fields)` and leaves the record as it was.
- **Fluentd glue.** `MultiEventStream` becomes a sequence of events. `router.emit_error_event` becomes the error stream. `log.debug`, `config_param` and `configure` are left out, as are the test driver helpers.
- ChainTheorem.ChainerOutputPasses: proved for sized batches only, none of whose records already has a `.sparkl` slot, and for runs in which no record went to the error stream.
  - Without a size every record closes a block, and the check compares the running digest over all the records with the first record's digest.
  - A `.sparkl` slot present on input is hashed by the filter, but the check deletes it before hashing.
  - A record in the error stream is missing from the chain the check walks.
- ChainTheorem.ChainerOutputPasses: says nothing about the anchor checks. An anchored block is confirmed only if the ledger really holds its commitment and its confirmation time. Whatever the outcome, the verdict does not depend on it (`ChainVerifier.CheckIgnoresLedger`).
- ChainTheorem.ChainerOutputReplays: proved only for sized batches whose records carry no `.sparkl` slot on input and for runs that sent no record to the error stream, for the reasons given under `ChainTheorem.ChainerOutputPasses`. How the blocks stay linked when records went to the error stream is stated by `BatchModel.RunBatchesChainAll` at the level of the chain state, not of the check.
- ChainTheorem.BatchSegment: proved only for a sized batch whose records carry no `.sparkl` slot on input and that sent no record to the error stream.
- ChainTheorem.BlockSegment: proved only for a sized batch whose records carry no `.sparkl` slot on input. The check deletes an incoming slot before hashing, but the filter hashes it.
- ChainTheorem.TwoConfigurationsPass: has the same scope as `ChainTheorem.ChainerOutputPasses`, for each of the two runs.
- ChainTheorem.ChainerOutputPassesRaw: has the same scope as `ChainTheorem.ChainerOutputPasses`, of which it is the case where the check folds the raw inner digest. It is proved only for sized batches whose records carry no `.sparkl` slot on input and for runs that sent no record to the error stream. It says nothing about the anchor checks.

## Findings

| source | as written | input that shows it | evidently intended | confidence | as-written member | corrected member |
|---|---|---|---|---|---|---|
| test/plugin/test_filter_sparkl.rb:100-102 | the chain check folds as `hexdigest(hexdigest(prev + text))`, hashing the hex spelling of the inner SHA-256; the filter (lib/fluent/plugin/filter_sparkl.rb:83-85, 167-169) folds as `hexdigest(digest(prev + text))`, hashing the raw 32 bytes | one sized batch holding the single record `{}` on a fresh tag: the filter stores `hex(SHA256(raw SHA256(mangle({}))))` as the block's digest, and the check recomputes `hex(SHA256(hex SHA256(mangle({}))))`, so the assertion on line 107 fails | the check folds as the filter does and accepts every chain the filter emits | not executed | ChainTheorem.AsWrittenCheckRejects | ChainTheorem.ChainerOutputPassesRaw |
