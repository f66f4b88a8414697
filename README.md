# Gossip codec and batch import worker of a beacon node

This project models two pieces of a beacon node's networking layer (lighthouse) and proves
properties of them in Dafny:

- **Gossip message codec** (`Pubsub`, from `beacon_node/eth2-libp2p/src/pubsub.rs`). A gossip payload
  arrives tagged with several topic strings. `Decode` walks them in order. The first topic that
  resolves to a known gossip topic picks the SSZ decoder. A decoding failure under that topic is
  returned at once. If no topic resolves, the error lists every topic seen, in order. `Encode` maps a
  message to the SSZ bytes of the object it carries.
- **Batch import worker** (`BlockProcessor`, from `beacon_node/network/src/sync/block_processor.rs`).
  A request is either a range-sync batch or a parent lookup. `SpawnBlockProcessor` hands the blocks to
  the chain's `process_chain_segment`: in received order for a batch, reversed for a parent lookup.
  `ProcessBlocks` runs fork choice when the import produced new roots and sorts the import error into
  `Ok` or `Err`. The worker then reports to the sync manager over a non-blocking channel: always one
  `BatchProcessed` for a batch, and `ParentLookupFailed` for a parent lookup only when processing failed.

The modules are `Wrappers` (Option, Result), `Types` (the consensus objects and identifiers, kept
abstract), `Pubsub` and `BlockProcessor`.

Boundaries of the model:

- The topic grammar (`GossipTopic::decode`) is not part of this model. It is a `TopicResolver`
  parameter, a total function from topic string to `Option<GossipTopic>`.
- The SSZ codec is an `SszCodec` value holding one decoder and one encoder per payload type.
  The predicate `Lawful` states its round-trip law: decoding an encoding gives back the object.
- The beacon chain is the class `BeaconChain`. Its `live` flag stands for `Weak::upgrade` succeeding.
  `importOracle` and `forkChoiceOracle` give the answers of `process_chain_segment` and `fork_choice`.
  Ghost logs record the block sequences imported and the number of fork-choice runs.
- The channel is the class `SyncSender`, holding `open` and the queue of accepted messages.
  `TrySend` appends only when the channel is open.

Three behaviours of the code that a reader might not expect:

- A torn-down chain still yields `Success` for a range batch. `process_blocks` returns `Ok(())`
  when the weak handle does not upgrade (block_processor.rs:105, 195). A parent lookup then reports
  nothing (`DanglingChainReports`).
- Fork choice also runs on the parent-lookup path. Both kinds of request go through
  `process_blocks`, which runs fork choice whenever new roots were imported (block_processor.rs:71,
  107-119). `SpawnBlockProcessor` states this for both kinds of request.
- `encode` has no arm for `AggregateAndProofAttestation` and returns no bytes for `Attestation`
  (pubsub.rs:108-116). The model keeps that behaviour; see "Left out".

## Model

| member | source | states |
|---|---|---|
| `Pubsub.FirstKnown` | beacon_node/eth2-libp2p/src/pubsub.rs:40-46 | It finds the first topic that resolves: no result means no topic resolves; a result is an index that resolves, and every topic before it does not. |
| `Pubsub.DecodeAs` | beacon_node/eth2-libp2p/src/pubsub.rs:47-92 | Under a resolved topic, the result is `Ok` exactly when that kind's SSZ decoder accepts `data`. An `Ok` carries the decoder's object in the variant of the topic's kind, with the topic's subnet for a committee-index topic. An `Err` is `DecodeFailure` with that decoder's own error. |
| `Pubsub.DecodeSpec` | beacon_node/eth2-libp2p/src/pubsub.rs:38-99 | The result is an unknown-topics error exactly when no topic resolves, and that error lists the input topics in input order. When topic i is the first that resolves, the result is the decode of the payload under topic i. |
| `Pubsub.Decode` | beacon_node/eth2-libp2p/src/pubsub.rs:38-100 | The loop with early return and the unknown-topic accumulator computes `DecodeSpec`. A successful result has the kind of the first resolving topic. An unknown-topics error lists exactly the input topics. |
| `Pubsub.Encode` | beacon_node/eth2-libp2p/src/pubsub.rs:104-120 | Under a lawful codec, decoding the encoding of a block, voluntary exit, proposer slashing or attester slashing under its own kind gives the message back. |
| `Pubsub.LaterTopicsIgnored` | beacon_node/eth2-libp2p/src/pubsub.rs:40-92 | Once topic i is the first that resolves, decoding depends only on its kind and the payload. Replacing every topic after i leaves the result unchanged. |
| `Pubsub.MalformedKnownTopicFails` | beacon_node/eth2-libp2p/src/pubsub.rs:51-92 | If the first resolving topic's SSZ decoder rejects the payload, the result is `DecodeFailure` with that decoder's error, even when later topics would resolve. |
| `Pubsub.FirstTopicDecodesPayload` | beacon_node/eth2-libp2p/src/pubsub.rs:40-92 | For any payload: the result is `Ok` exactly when the first resolving topic's decoder accepts it, and an `Ok` carries that decoder's object in the variant of that topic's kind. |
| `Pubsub.CommitteeIndexKeepsSubnet` | beacon_node/eth2-libp2p/src/pubsub.rs:59-65 | A committee-index topic gives `Attestation` with that topic's subnet id and the attestation decoded from the payload, or `DecodeFailure` with the attestation decoder's error. |
| `Pubsub.AggregateAndProofDecoded` | beacon_node/eth2-libp2p/src/pubsub.rs:52-57 | An aggregate-and-proof topic gives `AggregateAndProofAttestation` with the aggregate decoded from the payload, or `DecodeFailure` with that decoder's error. |
| `Pubsub.EmptyTopicsUnknown` | beacon_node/eth2-libp2p/src/pubsub.rs:39-99 | An empty topic list gives an unknown-topics error with an empty list. |
| `Pubsub.EncodeDecodeRoundTrip` | beacon_node/eth2-libp2p/src/pubsub.rs:67-113 | Under a lawful codec, decode(encode(m)) == m for the four variants encode handles. This holds for any topic list whose first resolving topic is an SSZ topic of m's kind. |
| `Pubsub.AttestationEncodingLosesPayload` | beacon_node/eth2-libp2p/src/pubsub.rs:115 | The `Attestation` arm encodes to no bytes, so two different attestations cannot both survive a round trip. |
| `BlockProcessor.Reversed` | beacon_node/network/src/sync/block_processor.rs:71 | The reversed sequence has the same length, and its k-th block is the k-th block from the end of the input. |
| `BlockProcessor.ImportOrder` | beacon_node/network/src/sync/block_processor.rs:39-71 | A range batch is imported in received order. A parent lookup is imported in exactly the reverse order. |
| `BlockProcessor.Classify` | beacon_node/network/src/sync/block_processor.rs:107-195 | `Ok` exactly for a successful import or for already-known, would-revert-finalized and genesis errors. An unknown parent gives an `Err` naming the parent root. Future slot, chain-error and every other error give their own `Err`. |
| `BlockProcessor.ProcessOutcome` | beacon_node/network/src/sync/block_processor.rs:104-196 | `Ok(())` when the chain handle is not live; otherwise the classification of the import result. |
| `BlockProcessor.Report` | beacon_node/network/src/sync/block_processor.rs:41-88 | At most one message per request. A range batch gives one `BatchProcessed` with its own batch id, the downloaded blocks unchanged and `Success` iff processing returned `Ok`. A parent lookup gives `ParentLookupFailed` with its peer id iff processing returned `Err`, otherwise nothing. |
| `BlockProcessor.BeaconChain.ProcessChainSegment` | beacon_node/network/src/sync/block_processor.rs:107 | Needs a live chain. Returns the oracle's answer for the blocks and logs the call. |
| `BlockProcessor.BeaconChain.ForkChoice` | beacon_node/network/src/sync/block_processor.rs:201 | Needs a live chain. Returns the oracle's answer and counts the call. |
| `BlockProcessor.SyncSender.TrySend` | beacon_node/network/src/sync/block_processor.rs:59-64 | Never blocks: reports delivery iff the channel is open, and appends the message only then. |
| `BlockProcessor.RunForkChoice` | beacon_node/network/src/sync/block_processor.rs:200-213 | Runs fork choice once and returns nothing, so a fork-choice failure is swallowed. |
| `BlockProcessor.ProcessBlocks` | beacon_node/network/src/sync/block_processor.rs:96-196 | Returns `ProcessOutcome` of liveness and the import result. It imports the sequence once, and only when the chain is live. It runs fork choice exactly once when a live chain imported new roots, and never otherwise. |
| `BlockProcessor.SpawnBlockProcessor` | beacon_node/network/src/sync/block_processor.rs:31-91 | One request: the chain sees at most one import, in `ImportOrder`, and at most one fork-choice run, exactly when new roots were imported. The channel gains `Report`'s message only if it is open. Nothing else changes. |
| `BlockProcessor.ForkChoiceOnlyOnSuccess` | beacon_node/network/src/sync/block_processor.rs:107-120 | Whenever fork choice runs, processing returns `Ok`. |
| `BlockProcessor.DanglingChainReports` | beacon_node/network/src/sync/block_processor.rs:43-105 | With the chain gone, fork choice does not run. A range batch still reports `Success`, and a parent lookup reports nothing. |
| `BlockProcessor.ImportWithNewRootsSucceeds` | beacon_node/network/src/sync/block_processor.rs:108-120 | An import with new roots makes fork choice due and the range batch report `Success`. `ProcessOutcome` takes no fork-choice answer, and `ProcessBlocks` ensures its result is `ProcessOutcome`. So the report does not depend on `forkChoiceOracle`. |
| `BlockProcessor.ReversedTwice` | beacon_node/network/src/sync/block_processor.rs:69-71 | Reversing a parent lookup's blocks twice gives back the downloaded order. |

## Left out

- The worker thread (`std::thread::spawn`): `SpawnBlockProcessor` is the body of the closure, run to completion. Concurrency between requests is not modelled.
- `Weak`/`Arc` reference counting: reduced to the `live` flag, read once per request as `upgrade` is.
- `process_blocks` takes a lazy iterator and collects it after the upgrade. The model passes the sequence already in iteration order.
- Logging (`debug!`, `warn!`, `crit!`, `error!`, `trace!`) produces no state and is not modelled.
- The comparison with `FUTURE_SLOT_TOLERANCE` (block_processor.rs:137) selects only a log message; both branches return the same `Err`. `Classify` models only that shared outcome, and the constant is not part of this model.
- The reason strings of `process_blocks` are the `FailureReason` datatype. The text of each `format!` is not modelled; each reason keeps the values its string shows, such as the parent root and both slots.
- `BlockError` variants other than the six that `process_blocks` names are collapsed into `Rejected`, which carries an abstract cause.
- `BeaconChain.importOracle` is a fixed function of the block sequence. What an import validates and how it changes chain state are not modelled, nor what fork choice computes.
- The tokio channel internals: `SyncSender` is an open flag plus an append-only queue. An unbounded channel never reports "full", so a closed channel is the only failure.
- `SyncMessage` variants other than `BatchProcessed` and `ParentLookupFailed` belong to the sync manager, which is not part of this model.
- The topic-string grammar (`crate::topics`) and the SSZ byte layout (`ssz` crate) are not part of this model. They are the `TopicResolver` parameter and the `SszCodec` arrows; the codec's round trip is the assumption `Lawful`.
- Pubsub.Encode: the source's match (pubsub.rs:108-116) does not compile as written. It has no arm for `AggregateAndProofAttestation`, so `Encode` requires the message not to be one. It names a nonexistent `Unknown` variant; that arm is dropped. It joins four arms into one or-pattern over different payload types; this is read as each variant encoding its own payload. Its `Attestation` arm returns no bytes, and that is kept (`AttestationEncodingLosesPayload`). No round trip is claimed for `Attestation` or `AggregateAndProofAttestation`.
- Pubsub.Decode: the `Err` string of `decode` is the `DecodeError` datatype, which keeps the SSZ error or the list of unknown topics in place of their formatted text.
