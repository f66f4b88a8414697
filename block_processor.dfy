/**
 * The batch import worker of the sync service (network/src/sync/block_processor.rs).
 *
 * A request is either a range-sync batch or a parent lookup. Its blocks go to the chain's
 * `process_chain_segment` (a parent lookup's newest-first blocks reversed), fork choice runs when
 * the import produced at least one new root, the import error is sorted into failure or not,
 * and the outcome is reported to the sync manager over a non-blocking channel.
 *
 * The worker thread is left out: `SpawnBlockProcessor` is the closure's body. The beacon chain is
 * a `BeaconChain` whose `live` flag stands for `Weak::upgrade` succeeding and whose two
 * operations answer from oracles while ghost logs record each call. The channel is a
 * `SyncSender` holding the messages it accepted.
 */
module BlockProcessor {
  import opened Wrappers
  import Types

  /** Which request a block sequence belongs to. */
  datatype ProcessId =
    | RangeBatchId(batchId: Types.BatchId)
    | ParentLookup(peerId: Types.PeerId)

  /** The terminal outcome of a range batch. */
  datatype BatchProcessResult = Success | Failed

  /** The two messages this worker sends to the sync manager. */
  datatype SyncMessage =
    | BatchProcessed(batchId: Types.BatchId, downloadedBlocks: seq<Types.SignedBeaconBlock>, result: BatchProcessResult)
    | ParentLookupFailed(peerId: Types.PeerId)

  /** The error `process_chain_segment` returns; `Rejected` stands for every variant not named here. */
  datatype BlockError =
    | ParentUnknown(parent: Types.Hash256)
    | BlockIsAlreadyKnown
    | FutureSlot(presentSlot: Types.Slot, blockSlot: Types.Slot)
    | WouldRevertFinalizedSlot(blockSlot: Types.Slot, finalizedSlot: Types.Slot)
    | GenesisBlock
    | BeaconChainError(chainError: Types.BeaconChainError)
    | Rejected(rejection: Types.RejectionCause)

  /** What `process_chain_segment` returns: the roots of the newly imported blocks, or an error. */
  type ImportResult = Result<seq<Types.Hash256>, BlockError>

  /** The reason in the `Err` of `process_blocks`, in place of its formatted string. */
  datatype FailureReason =
    | UnknownParent(parentRoot: Types.Hash256)
    | AheadOfSlotClock(blockSlot: Types.Slot, presentSlot: Types.Slot)
    | InternalError(error: Types.BeaconChainError)
    | InvalidBlock(outcome: BlockError)

  /** The import errors that do not fail a batch. */
  predicate Tolerated(e: BlockError) {
    e.BlockIsAlreadyKnown? || e.WouldRevertFinalizedSlot? || e.GenesisBlock?
  }

  /** The blocks in the order `iter().rev()` yields them: last one first. */
  function Reversed(s: seq<Types.SignedBeaconBlock>): (r: seq<Types.SignedBeaconBlock>)
    ensures |r| == |s|
    ensures forall k :: 0 <= k < |s| ==> r[k] == s[|s| - 1 - k]
  {
    if s == [] then [] else [s[|s| - 1]] + Reversed(s[..|s| - 1])
  }

  /** The order in which a request hands its blocks to `process_chain_segment`. */
  function ImportOrder(processId: ProcessId, downloadedBlocks: seq<Types.SignedBeaconBlock>)
    : (blocks: seq<Types.SignedBeaconBlock>)
    ensures |blocks| == |downloadedBlocks|
    ensures processId.RangeBatchId? ==> blocks == downloadedBlocks
    ensures processId.ParentLookup? ==>
              forall k :: 0 <= k < |blocks| ==> blocks[k] == downloadedBlocks[|downloadedBlocks| - 1 - k]
  {
    match processId
    case RangeBatchId(_) => downloadedBlocks
    case ParentLookup(_) => Reversed(downloadedBlocks)
  }

  /** How `process_blocks` sorts the import result of a live chain into `Ok` or `Err`. */
  function Classify(imported: ImportResult): (r: Result<(), FailureReason>)
    ensures r.Ok? <==> imported.Ok? || Tolerated(imported.error)
    ensures r.Err? && r.error.UnknownParent? <==> imported.Err? && imported.error.ParentUnknown?
    ensures imported.Err? && imported.error.ParentUnknown? ==> r.error.parentRoot == imported.error.parent
    ensures imported.Err? && imported.error.FutureSlot? ==>
              r.Err? && r.error == AheadOfSlotClock(imported.error.blockSlot, imported.error.presentSlot)
    ensures imported.Err? && imported.error.BeaconChainError? ==>
              r.Err? && r.error == InternalError(imported.error.chainError)
    ensures imported.Err? && imported.error.Rejected? ==> r.Err? && r.error == InvalidBlock(imported.error)
  {
    match imported
    case Ok(_) => Ok(())
    case Err(ParentUnknown(parent)) => Err(UnknownParent(parent))
    case Err(BlockIsAlreadyKnown) => Ok(())
    case Err(FutureSlot(presentSlot, blockSlot)) => Err(AheadOfSlotClock(blockSlot, presentSlot))
    case Err(WouldRevertFinalizedSlot(_, _)) => Ok(())
    case Err(GenesisBlock) => Ok(())
    case Err(BeaconChainError(e)) => Err(InternalError(e))
    case Err(other) => Err(InvalidBlock(other))
  }

  /** What `process_blocks` returns: `Ok` when the chain is gone, otherwise the classified import. */
  function ProcessOutcome(live: bool, imported: ImportResult): (r: Result<(), FailureReason>)
    ensures !live ==> r == Ok(())
    ensures live ==> r == Classify(imported)
  {
    if live then Classify(imported) else Ok(())
  }

  /** Fork choice runs exactly when a live chain imported at least one new block. */
  predicate ForkChoiceDue(live: bool, imported: ImportResult) {
    live && imported.Ok? && |imported.value| > 0
  }

  /** The messages a request sends, given what `process_blocks` returned. */
  function Report(processId: ProcessId, downloadedBlocks: seq<Types.SignedBeaconBlock>, outcome: Result<(), FailureReason>)
    : (msgs: seq<SyncMessage>)
    ensures |msgs| <= 1
    ensures processId.RangeBatchId? ==>
              && |msgs| == 1
              && msgs[0].BatchProcessed?
              && msgs[0].batchId == processId.batchId
              && msgs[0].downloadedBlocks == downloadedBlocks
              && (msgs[0].result == Success <==> outcome.Ok?)
    ensures processId.ParentLookup? ==>
              && (|msgs| == 1 <==> outcome.Err?)
              && forall m <- msgs :: m == ParentLookupFailed(processId.peerId)
  {
    match processId
    case RangeBatchId(batchId) =>
      [BatchProcessed(batchId, downloadedBlocks, if outcome.Ok? then Success else Failed)]
    case ParentLookup(peerId) =>
      if outcome.Err? then [ParentLookupFailed(peerId)] else []
  }

  /** The beacon chain as the worker sees it through its weak handle. */
  class BeaconChain {
    /** Whether the weak handle still upgrades to the chain. */
    var live: bool
    /** What `process_chain_segment` answers for a block sequence. */
    var importOracle: seq<Types.SignedBeaconBlock> -> ImportResult
    /** What `fork_choice` answers. */
    var forkChoiceOracle: Result<(), Types.BeaconChainError>
    /** The block sequences `process_chain_segment` was called with, in call order. */
    ghost var segmentCalls: seq<seq<Types.SignedBeaconBlock>>
    /** How many times `fork_choice` was called. */
    ghost var forkChoiceCalls: nat

    constructor (live: bool, importOracle: seq<Types.SignedBeaconBlock> -> ImportResult,
                 forkChoiceOracle: Result<(), Types.BeaconChainError>)
      ensures this.live == live && this.importOracle == importOracle
      ensures this.forkChoiceOracle == forkChoiceOracle
      ensures segmentCalls == [] && forkChoiceCalls == 0
    {
      this.live := live;
      this.importOracle := importOracle;
      this.forkChoiceOracle := forkChoiceOracle;
      segmentCalls := [];
      forkChoiceCalls := 0;
    }

    /** `process_chain_segment`, reachable only through a strong reference. */
    method ProcessChainSegment(blocks: seq<Types.SignedBeaconBlock>) returns (r: ImportResult)
      requires live
      modifies this`segmentCalls
      ensures r == importOracle(blocks)
      ensures segmentCalls == old(segmentCalls) + [blocks]
    {
      r := importOracle(blocks);
      segmentCalls := segmentCalls + [blocks];
    }

    /** `fork_choice`, reachable only through a strong reference. */
    method ForkChoice() returns (r: Result<(), Types.BeaconChainError>)
      requires live
      modifies this`forkChoiceCalls
      ensures r == forkChoiceOracle
      ensures forkChoiceCalls == old(forkChoiceCalls) + 1
    {
      r := forkChoiceOracle;
      forkChoiceCalls := forkChoiceCalls + 1;
    }
  }

  /** The sending half of the unbounded channel to the sync manager. */
  class SyncSender {
    /** False once the receiving side has been dropped. */
    var open: bool
    /** The messages the channel has accepted, oldest first. */
    var queue: seq<SyncMessage>

    constructor (open: bool)
      ensures this.open == open && queue == []
    {
      this.open := open;
      queue := [];
    }

    /** `try_send`: never blocks; on a closed channel it fails and changes nothing. */
    method TrySend(msg: SyncMessage) returns (delivered: bool)
      modifies this`queue
      ensures delivered == open
      ensures queue == if open then old(queue) + [msg] else old(queue)
    {
      delivered := open;
      if open {
        queue := queue + [msg];
      }
    }
  }

  /** `run_fork_choice`: a fork-choice failure is only logged, so nothing is returned. */
  method RunForkChoice(chain: BeaconChain)
    requires chain.live
    modifies chain`forkChoiceCalls
    ensures chain.forkChoiceCalls == old(chain.forkChoiceCalls) + 1
  {
    var outcome := chain.ForkChoice();
    // Either way `outcome` only goes to the log.
  }

  /** `process_blocks`: import the blocks once, run fork choice on new roots, classify the result. */
  method ProcessBlocks(chain: BeaconChain, downloadedBlocks: seq<Types.SignedBeaconBlock>)
    returns (r: Result<(), FailureReason>)
    modifies chain`segmentCalls, chain`forkChoiceCalls
    ensures r == ProcessOutcome(chain.live, chain.importOracle(downloadedBlocks))
    ensures chain.segmentCalls == old(chain.segmentCalls) + (if chain.live then [downloadedBlocks] else [])
    ensures chain.forkChoiceCalls ==
              old(chain.forkChoiceCalls) + (if ForkChoiceDue(chain.live, chain.importOracle(downloadedBlocks)) then 1 else 0)
  {
    if chain.live {
      var blocks := downloadedBlocks;
      var imported := chain.ProcessChainSegment(blocks);
      match imported {
        case Ok(roots) =>
          if |roots| > 0 {
            RunForkChoice(chain);
          }
        case Err(ParentUnknown(parent)) =>
          return Err(UnknownParent(parent));
        case Err(BlockIsAlreadyKnown) =>
        case Err(FutureSlot(presentSlot, blockSlot)) =>
          return Err(AheadOfSlotClock(blockSlot, presentSlot));
        case Err(WouldRevertFinalizedSlot(_, _)) =>
        case Err(GenesisBlock) =>
        case Err(BeaconChainError(e)) =>
          return Err(InternalError(e));
        case Err(other) =>
          return Err(InvalidBlock(other));
      }
    }
    return Ok(());
  }

  /** The body of the thread `spawn_block_processor` starts for one request. */
  method SpawnBlockProcessor(chain: BeaconChain, processId: ProcessId,
                             downloadedBlocks: seq<Types.SignedBeaconBlock>, syncSend: SyncSender)
    modifies chain`segmentCalls, chain`forkChoiceCalls, syncSend`queue
    ensures chain.segmentCalls ==
              old(chain.segmentCalls) + (if chain.live then [ImportOrder(processId, downloadedBlocks)] else [])
    ensures chain.forkChoiceCalls ==
              old(chain.forkChoiceCalls)
              + (if ForkChoiceDue(chain.live, chain.importOracle(ImportOrder(processId, downloadedBlocks))) then 1 else 0)
    ensures syncSend.queue ==
              old(syncSend.queue)
              + (if syncSend.open
                 then Report(processId, downloadedBlocks,
                             ProcessOutcome(chain.live, chain.importOracle(ImportOrder(processId, downloadedBlocks))))
                 else [])
  {
    match processId {
      case RangeBatchId(batchId) =>
        var outcome := ProcessBlocks(chain, downloadedBlocks);
        var result := if outcome.Ok? then Success else Failed;
        var msg := BatchProcessed(batchId, downloadedBlocks, result);
        var delivered := syncSend.TrySend(msg);
      case ParentLookup(peerId) =>
        // Parent blocks arrive highest slot first, so they are imported in reverse.
        var outcome := ProcessBlocks(chain, Reversed(downloadedBlocks));
        if outcome.Err? {
          var delivered := syncSend.TrySend(ParentLookupFailed(peerId));
        }
    }
  }

  /** Fork choice only ever runs on a request whose processing returns `Ok`. */
  lemma ForkChoiceOnlyOnSuccess(live: bool, imported: ImportResult)
    requires ForkChoiceDue(live, imported)
    ensures ProcessOutcome(live, imported) == Ok(())
  {
  }

  /** With the chain gone a range batch still reports `Success` and a parent lookup reports nothing. */
  lemma DanglingChainReports(processId: ProcessId, downloadedBlocks: seq<Types.SignedBeaconBlock>, imported: ImportResult)
    ensures !ForkChoiceDue(false, imported)
    ensures processId.RangeBatchId? ==>
              Report(processId, downloadedBlocks, ProcessOutcome(false, imported))
                == [BatchProcessed(processId.batchId, downloadedBlocks, Success)]
    ensures processId.ParentLookup? ==> Report(processId, downloadedBlocks, ProcessOutcome(false, imported)) == []
  {
  }

  /**
   * An import with new roots makes fork choice due and the range batch report `Success`.
   * `ProcessOutcome` takes no fork-choice answer, and `ProcessBlocks` ensures its result is
   * `ProcessOutcome`, whatever `forkChoiceOracle` holds: a fork-choice failure is swallowed.
   */
  lemma ImportWithNewRootsSucceeds(batchId: Types.BatchId, downloadedBlocks: seq<Types.SignedBeaconBlock>,
                                   roots: seq<Types.Hash256>)
    requires |roots| > 0
    ensures ForkChoiceDue(true, Ok(roots))
    ensures Report(RangeBatchId(batchId), downloadedBlocks, ProcessOutcome(true, Ok(roots)))
              == [BatchProcessed(batchId, downloadedBlocks, Success)]
  {
  }

  /** Reversing a parent lookup's blocks twice gives back the downloaded order. */
  lemma ReversedTwice(s: seq<Types.SignedBeaconBlock>)
    ensures Reversed(Reversed(s)) == s
  {
  }
}
