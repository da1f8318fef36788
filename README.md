# Changes trie: digest schedule and root computation

A model of the facade of Substrate's changes-trie module
(`substrate/state-machine/src/changes_trie/mod.rs`). At the end of each block, a
changes trie maps every changed storage key to the extrinsics that changed it.
A `Configuration` (`digest_interval` N, `digest_levels`) also schedules digest
tries. A level-l digest trie is built at blocks that are multiples of N^l. It
maps keys to the blocks or lower-level digest blocks where they changed.
`compute_changes_trie_root` turns a block's input pairs into a transaction of
(key, value) byte pairs and the 32-byte root of the trie over them.

Two modules:

- `DigestSchedule` (`digest_schedule.dfy`) gives the configuration's meaning as
  predicates and functions: `IsDigestBlock`, `MaxDigestLevel` and `DigestSpan`,
  the blocks a digest summarises. The lemmas state the properties the
  documentation promises.
- `ChangesTrie` (`changes_trie_root.dfy`) models `compute_changes_trie_root`.
  The input builder `prepare_input`, the `Into` conversion of an input pair to
  a byte pair and `triehash::trie_root` are passed in as function parameters.
  The storage and the overlay are opaque type parameters.

Choices made explicit:

- Block 0 (genesis) is never a digest block at any level. The documentation
  says genesis is excluded from digests and gives no meaning to a digest at
  block 0.
- The span of a level-l digest at block B is the N^l - 1 blocks before it,
  `B - N^l + 1 .. B - 1` (`DigestSpan`). For level 1 these are the previous
  N - 1 blocks. Because B is a positive multiple of N^l, the span never
  reaches genesis; `GenesisNeverSummarised` proves this instead of filtering
  block 0 out.
- The module documentation places level-l digests every N^l blocks
  (mod.rs:29 and mod.rs:66) but says each covers "the last N*digest_level-1
  blocks" (mod.rs:32). No line gives the span as N^l - 1 blocks. The model
  takes the span N^l - 1 because only that span tiles the schedule
  (`CoveringDigestBlock`, `SpansDoNotOverlap`). The product form is kept as
  `DocSpanAsWritten`, and the finding below shows that it leaves blocks
  unsummarised.
- Determinism needs no separate statement: `ComputeChangesTrieRoot` is a
  function of its inputs. `RootDeterminedByInputPairs` states the stronger
  fact that only the prepared input pairs matter.

## Model

| member | source | states |
|---|---|---|
| `DigestSchedule.IsDigestBlock` | substrate/state-machine/src/changes_trie/mod.rs:61-67 | a block carries a level-l digest when N > 1, 1 <= l <= `digest_levels`, the block is not genesis and it is a multiple of N^l (documented at mod.rs:23 and mod.rs:29-30); equivalently, the first level-l digest is at block N^l and the next ones follow every N^l blocks |
| `DigestSchedule.DigestSpan` | substrate/state-machine/src/changes_trie/mod.rs:23-33 | the blocks the level-l digest at B summarises are the N^l - 1 consecutive blocks ending at B - 1, that is B - N^l + 1 .. B - 1, all after genesis and before B |
| `DigestSchedule.DocSpanAsWritten` | substrate/state-machine/src/changes_trie/mod.rs:32 | the span as the documentation words it: the N*l - 1 consecutive blocks ending at B - 1 |
| `DigestSchedule.MaxDigestLevel` | substrate/state-machine/src/changes_trie/mod.rs:61-67 | the highest digest level of a block is at most `digest_levels`; it is 0 when the interval is at most 1 or the block is genesis; the block carries a digest at that level and at no higher level |
| `DigestSchedule.MaxDigestLevelUpTo` | substrate/state-machine/src/changes_trie/mod.rs:64-67 | the search over levels 1..k returns a digest level of the block, or 0, and no level above it up to k is a digest level |
| `DigestSchedule.NoDigestsWhenDisabled` | substrate/state-machine/src/changes_trie/mod.rs:61-65 | when `digest_interval <= 1` or `digest_levels == 0`, no block is a digest block at any level, not even level 1 |
| `DigestSchedule.OnlyLevelOneWhenOneLevel` | substrate/state-machine/src/changes_trie/mod.rs:64-66 | with one digest level, a block carries a digest exactly at level 1 and only when N > 1 and the block is a positive multiple of N |
| `DigestSchedule.DigestLevelsNested` | substrate/state-machine/src/changes_trie/mod.rs:29-30 | a level-l digest block is a digest block at every level from 1 to l, because a multiple of N^l is a multiple of N^(l-1) |
| `DigestSchedule.DigestEligibility` | substrate/state-machine/src/changes_trie/mod.rs:61-67 | a block carries a level-l digest if and only if 1 <= l <= its maximal digest level |
| `DigestSchedule.DigestSpanMembers` | substrate/state-machine/src/changes_trie/mod.rs:29-33 | a block is summarised by the level-l digest at B if and only if it lies strictly between B - N^l and B |
| `DigestSchedule.GenesisNeverSummarised` | substrate/state-machine/src/changes_trie/mod.rs:23-27 | genesis is in the span of no digest of any level |
| `DigestSchedule.Level1SpanIsPreviousBlocks` | substrate/state-machine/src/changes_trie/mod.rs:23-27 | a level-1 digest at B summarises exactly the N - 1 blocks B - N + 1 .. B - 1, and genesis is not among them |
| `DigestSchedule.SpanReachesPreviousBoundary` | substrate/state-machine/src/changes_trie/mod.rs:23-33 | a level-l span starts right after genesis or the previous level-l digest block, and contains no level-l digest block |
| `DigestSchedule.CoveringDigestBlock` | substrate/state-machine/src/changes_trie/mod.rs:29-33 | every block after genesis that is not a level-l digest block lies in the span of some level-l digest block |
| `DigestSchedule.SpansDoNotOverlap` | substrate/state-machine/src/changes_trie/mod.rs:29-33 | the spans of one level do not overlap: a block in the spans of two level-l digest blocks means they are the same block |
| `DigestSchedule.DocSpanLeavesBlockUncovered` | substrate/state-machine/src/changes_trie/mod.rs:29-33 | with N = 4 and two levels, the "N*digest_level-1" span leaves level-1 digest blocks 4 and 8 in no level-2 span, while the power-form span of block 16 holds both |
| `ChangesTrie.ComputeChangesTrieRoot` | substrate/state-machine/src/changes_trie/mod.rs:70-82 | the result is None exactly when the input builder returns None; otherwise the transaction has one entry per input pair, each the converted pair at the same position, and the root is the trie root of exactly that transaction |
| `ChangesTrie.CollectConverted` | substrate/state-machine/src/changes_trie/mod.rs:76-78 | the collected transaction has the input's length and holds the conversion of the i-th input pair at position i |
| `ChangesTrie.RootDeterminedByInputPairs` | substrate/state-machine/src/changes_trie/mod.rs:72-82 | equal input pairs, and so equal storage and overlay, give an equal root and transaction |

## Left out

- The `Storage` trait (mod.rs:50-56) is left out. It is a read-only I/O boundary that only the input builder uses; the model passes the storage through as an opaque value.
- `prepare_input`, the `Into` conversion of an input pair to a byte pair, and `triehash::trie_root` are function parameters with no behaviour. Their sources (`build.rs`, `input.rs` and the triehash crate) are not part of this model. So the model makes no claim that the root is collision-free or independent of order, and none about when the input builder returns None.
- The input builder, the build iterator and the changes iterator (`build.rs`, `build_iterator.rs`, `changes_iterator.rs`) are not part of this model. The digest span says which blocks a digest covers, not how its entries are gathered.
- `InMemoryStorage` (re-exported at mod.rs:41) is defined in `storage.rs`, which is not part of this model.
- `Arc` sharing and the `Send + Sync` bounds (mod.rs:50, 72) are about ownership and concurrency, not logic.
- The internals of `OverlayedChanges` and the byte layouts of `DBValue` and `TrieH256` are left out. The overlay is an opaque type parameter, and a root is any 32-byte sequence.
- Block numbers are unbounded naturals, not `u64`. N^l and the covering digest block of a block near 2^64 could overflow a `u64`. `mod.rs` computes neither, so the model does not model that overflow.

## Findings

| source | as written | input that shows it | evidently intended | confidence | as-written member | corrected member |
|---|---|---|---|---|---|---|
| substrate/state-machine/src/changes_trie/mod.rs:32 | a level-l digest covers "the last N*digest_level-1 blocks" | N = 4, `digest_levels` = 2: the level-2 digest at block 16 would cover only blocks 9..15, so level-1 digest block 4 (and block 8) is summarised by no level-2 digest | the last N^l - 1 blocks, the span that tiles the schedule of a level-l digest every N^l blocks (mod.rs:29, mod.rs:66) | high for the documentation text; not executed | `DigestSchedule.DocSpanLeavesBlockUncovered` | `DigestSchedule.CoveringDigestBlock` |
