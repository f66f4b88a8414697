/**
 * The consensus types and identifiers the core passes around without looking inside.
 * Their layout belongs to the `types` crate and the networking crates, which are not part
 * of this model, so each is an abstract type here.
 */
module Types {

  /** One byte of a wire payload. */
  newtype byte = x: int | 0 <= x < 0x100

  /** A slot number (`Slot`, a `u64`). */
  newtype Slot = x: int | 0 <= x < 0x1_0000_0000_0000_0000

  /** A block or state root (`Hash256`). */
  type Hash256(!new)

  /** The attestation subnet a committee-index topic names (`SubnetId`). */
  type SubnetId(!new)

  /** A libp2p peer identity (`PeerId`). */
  type PeerId(!new)

  /** The identifier range sync gives a batch (`BatchId`). */
  type BatchId(!new)

  // Gossip payload objects.
  type BeaconBlock(!new)
  type AggregateAndProof(!new)
  type Attestation(!new)
  type VoluntaryExit(!new)
  type ProposerSlashing(!new)
  type AttesterSlashing(!new)

  /** A block as downloaded by sync (`SignedBeaconBlock`). */
  type SignedBeaconBlock(!new)

  /** The error the SSZ decoder reports for malformed bytes (`ssz::DecodeError`). */
  type SszDecodeError(!new)

  /** An internal error of the beacon chain (`BeaconChainError`, also what `fork_choice` fails with). */
  type BeaconChainError(!new)

  /**
   * The payload of every `BlockError` variant that block processing does not name
   * one by one (invalid signatures, state-root mismatches and so on).
   */
  type RejectionCause(!new)
}
