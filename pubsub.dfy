/**
 * Decoding and encoding of gossipsub messages (`PubsubMessage` in eth2-libp2p's pubsub.rs).
 *
 * A payload arrives tagged with one or more topic strings. The first topic that resolves to a
 * known gossip topic decides which SSZ decoder reads the bytes; if none resolves, the error
 * lists every topic that did not.
 *
 * The topic grammar (`GossipTopic::decode`) and the SSZ codec are not part of this model: the
 * resolver is a parameter of type `TopicResolver`, and the per-type SSZ decoders and encoders
 * are the arrows of an `SszCodec`. `Lawful` states the codec's round-trip law.
 */
module Pubsub {
  import opened Wrappers
  import Types

  type Bytes = seq<Types.byte>

  /** A topic identifier as the transport delivers it (`TopicHash`, an unhashed topic string). */
  type TopicHash = string

  datatype GossipEncoding = SSZ

  datatype GossipKind =
    | BeaconBlock
    | BeaconAggregateAndProof
    | CommitteeIndex(subnetId: Types.SubnetId)
    | VoluntaryExit
    | ProposerSlashing
    | AttesterSlashing

  /** A resolved topic: its wire encoding and the kind of message it carries. */
  datatype GossipTopic = GossipTopic(encoding: GossipEncoding, kind: GossipKind)

  /** `GossipTopic::decode`: `None` stands for its `Err`, a string that is not a gossip topic. */
  type TopicResolver = TopicHash -> Option<GossipTopic>

  /** One gossip message; each variant owns the decoded object it carries. */
  datatype PubsubMessage =
    | BeaconBlock(block: Types.BeaconBlock)
    | AggregateAndProofAttestation(aggregate: Types.AggregateAndProof)
    | Attestation(subnetId: Types.SubnetId, attestation: Types.Attestation)
    | VoluntaryExit(exit: Types.VoluntaryExit)
    | ProposerSlashing(proposerSlashing: Types.ProposerSlashing)
    | AttesterSlashing(attesterSlashing: Types.AttesterSlashing)

  /** Why `decode` failed: bad bytes under a known topic, or no known topic at all. */
  datatype DecodeError =
    | DecodeFailure(cause: Types.SszDecodeError)
    | UnknownTopics(topics: seq<TopicHash>)

  /** The `from_ssz_bytes` and `as_ssz_bytes` functions of the `ssz` crate, one per payload type. */
  datatype SszCodec = SszCodec(
    decodeAggregateAndProof: Bytes -> Result<Types.AggregateAndProof, Types.SszDecodeError>,
    decodeAttestation: Bytes -> Result<Types.Attestation, Types.SszDecodeError>,
    decodeBeaconBlock: Bytes -> Result<Types.BeaconBlock, Types.SszDecodeError>,
    decodeVoluntaryExit: Bytes -> Result<Types.VoluntaryExit, Types.SszDecodeError>,
    decodeProposerSlashing: Bytes -> Result<Types.ProposerSlashing, Types.SszDecodeError>,
    decodeAttesterSlashing: Bytes -> Result<Types.AttesterSlashing, Types.SszDecodeError>,
    encodeBeaconBlock: Types.BeaconBlock -> Bytes,
    encodeVoluntaryExit: Types.VoluntaryExit -> Bytes,
    encodeProposerSlashing: Types.ProposerSlashing -> Bytes,
    encodeAttesterSlashing: Types.AttesterSlashing -> Bytes)

  /** The SSZ round-trip law: decoding what was encoded gives the object back. */
  ghost predicate Lawful(codec: SszCodec) {
    && (forall b :: codec.decodeBeaconBlock(codec.encodeBeaconBlock(b)) == Ok(b))
    && (forall e :: codec.decodeVoluntaryExit(codec.encodeVoluntaryExit(e)) == Ok(e))
    && (forall p :: codec.decodeProposerSlashing(codec.encodeProposerSlashing(p)) == Ok(p))
    && (forall a :: codec.decodeAttesterSlashing(codec.encodeAttesterSlashing(a)) == Ok(a))
  }

  /** The topic kind a message belongs to; for an attestation it includes the subnet. */
  function KindOf(m: PubsubMessage): GossipKind {
    match m
    case BeaconBlock(_) => GossipKind.BeaconBlock
    case AggregateAndProofAttestation(_) => GossipKind.BeaconAggregateAndProof
    case Attestation(subnetId, _) => GossipKind.CommitteeIndex(subnetId)
    case VoluntaryExit(_) => GossipKind.VoluntaryExit
    case ProposerSlashing(_) => GossipKind.ProposerSlashing
    case AttesterSlashing(_) => GossipKind.AttesterSlashing
  }

  /** No topic in `topics[..n]` resolves. */
  ghost predicate NoneResolve(resolve: TopicResolver, topics: seq<TopicHash>, n: nat)
    requires n <= |topics|
  {
    forall j :: 0 <= j < n ==> resolve(topics[j]).None?
  }

  /** `topics[i]` is the first topic that resolves. */
  ghost predicate FirstResolvingAt(resolve: TopicResolver, topics: seq<TopicHash>, i: nat) {
    i < |topics| && resolve(topics[i]).Some? && NoneResolve(resolve, topics, i)
  }

  /** The index of the first topic that resolves, if any. */
  function FirstKnown(resolve: TopicResolver, topics: seq<TopicHash>): (r: Option<nat>)
    ensures r.None? <==> NoneResolve(resolve, topics, |topics|)
    ensures r.Some? ==> FirstResolvingAt(resolve, topics, r.value)
  {
    if |topics| == 0 then None
    else if resolve(topics[0]).Some? then Some(0)
    else
      match FirstKnown(resolve, topics[1..])
      case None => None
      case Some(i) => Some(i + 1)
  }

  /** The error the SSZ decoder for payloads of kind `kind` reports on `data`, if it fails. */
  ghost function DecoderError(codec: SszCodec, kind: GossipKind, data: Bytes): Option<Types.SszDecodeError> {
    match kind
    case BeaconAggregateAndProof =>
      var d := codec.decodeAggregateAndProof(data); if d.Err? then Some(d.error) else None
    case CommitteeIndex(_) =>
      var d := codec.decodeAttestation(data); if d.Err? then Some(d.error) else None
    case BeaconBlock =>
      var d := codec.decodeBeaconBlock(data); if d.Err? then Some(d.error) else None
    case VoluntaryExit =>
      var d := codec.decodeVoluntaryExit(data); if d.Err? then Some(d.error) else None
    case ProposerSlashing =>
      var d := codec.decodeProposerSlashing(data); if d.Err? then Some(d.error) else None
    case AttesterSlashing =>
      var d := codec.decodeAttesterSlashing(data); if d.Err? then Some(d.error) else None
  }

  /** The object `m` carries is the one its type's SSZ decoder reads from `data`. */
  ghost predicate CarriesDecoded(codec: SszCodec, m: PubsubMessage, data: Bytes) {
    match m
    case BeaconBlock(b) => codec.decodeBeaconBlock(data) == Ok(b)
    case AggregateAndProofAttestation(a) => codec.decodeAggregateAndProof(data) == Ok(a)
    case Attestation(_, a) => codec.decodeAttestation(data) == Ok(a)
    case VoluntaryExit(e) => codec.decodeVoluntaryExit(data) == Ok(e)
    case ProposerSlashing(p) => codec.decodeProposerSlashing(data) == Ok(p)
    case AttesterSlashing(a) => codec.decodeAttesterSlashing(data) == Ok(a)
  }

  /**
   * The body of the `for` loop once a topic has resolved: run the decoder for the topic's
   * kind and wrap its object in the variant that kind names; the decoder's error is passed on.
   */
  function DecodeAs(codec: SszCodec, topic: GossipTopic, data: Bytes): (r: Result<PubsubMessage, DecodeError>)
    ensures r.Ok? <==> DecoderError(codec, topic.kind, data).None?
    ensures r.Ok? ==> KindOf(r.value) == topic.kind && CarriesDecoded(codec, r.value, data)
    ensures r.Err? ==> r.error == DecodeFailure(DecoderError(codec, topic.kind, data).value)
  {
    match topic.encoding
    case SSZ =>
      match topic.kind
      case BeaconAggregateAndProof =>
        (match codec.decodeAggregateAndProof(data)
         case Err(e) => Err(DecodeFailure(e))
         case Ok(a) => Ok(PubsubMessage.AggregateAndProofAttestation(a)))
      case CommitteeIndex(subnetId) =>
        (match codec.decodeAttestation(data)
         case Err(e) => Err(DecodeFailure(e))
         case Ok(a) => Ok(PubsubMessage.Attestation(subnetId, a)))
      case BeaconBlock =>
        (match codec.decodeBeaconBlock(data)
         case Err(e) => Err(DecodeFailure(e))
         case Ok(b) => Ok(PubsubMessage.BeaconBlock(b)))
      case VoluntaryExit =>
        (match codec.decodeVoluntaryExit(data)
         case Err(e) => Err(DecodeFailure(e))
         case Ok(x) => Ok(PubsubMessage.VoluntaryExit(x)))
      case ProposerSlashing =>
        (match codec.decodeProposerSlashing(data)
         case Err(e) => Err(DecodeFailure(e))
         case Ok(p) => Ok(PubsubMessage.ProposerSlashing(p)))
      case AttesterSlashing =>
        (match codec.decodeAttesterSlashing(data)
         case Err(e) => Err(DecodeFailure(e))
         case Ok(a) => Ok(PubsubMessage.AttesterSlashing(a)))
  }

  /** What `decode` returns: first match wins, otherwise every topic is reported unknown. */
  function DecodeSpec(resolve: TopicResolver, codec: SszCodec, topics: seq<TopicHash>, data: Bytes)
    : (r: Result<PubsubMessage, DecodeError>)
    ensures (r.Err? && r.error.UnknownTopics?) <==> NoneResolve(resolve, topics, |topics|)
    ensures r.Err? && r.error.UnknownTopics? ==> r.error.topics == topics
    ensures forall i: nat :: FirstResolvingAt(resolve, topics, i) ==>
              r == DecodeAs(codec, resolve(topics[i]).value, data)
  {
    match FirstKnown(resolve, topics)
    case None => Err(UnknownTopics(topics))
    case Some(i) => DecodeAs(codec, resolve(topics[i]).value, data)
  }

  /**
   * `PubsubMessage::decode`: walk the topics in order, collecting the ones that do not resolve;
   * the first that resolves decides the decoder, and its failure is returned at once.
   */
  method Decode(resolve: TopicResolver, codec: SszCodec, topics: seq<TopicHash>, data: Bytes)
    returns (r: Result<PubsubMessage, DecodeError>)
    ensures r == DecodeSpec(resolve, codec, topics, data)
    ensures r.Ok? ==> exists i: nat :: FirstResolvingAt(resolve, topics, i) && KindOf(r.value) == resolve(topics[i]).value.kind
    ensures r.Err? && r.error.UnknownTopics? ==> r.error.topics == topics
  {
    var unknownTopics: seq<TopicHash> := [];
    for k := 0 to |topics|
      invariant unknownTopics == topics[..k]
      invariant NoneResolve(resolve, topics, k)
    {
      var topic := topics[k];
      match resolve(topic) {
        case None =>
          unknownTopics := unknownTopics + [topic];
        case Some(gossipTopic) =>
          assert FirstResolvingAt(resolve, topics, k);
          match gossipTopic.encoding {
            case SSZ =>
              match gossipTopic.kind {
                case BeaconAggregateAndProof =>
                  var aggAndProof := codec.decodeAggregateAndProof(data);
                  if aggAndProof.Err? {
                    return Err(DecodeFailure(aggAndProof.error));
                  }
                  return Ok(PubsubMessage.AggregateAndProofAttestation(aggAndProof.value));
                case CommitteeIndex(subnetId) =>
                  var attestation := codec.decodeAttestation(data);
                  if attestation.Err? {
                    return Err(DecodeFailure(attestation.error));
                  }
                  return Ok(PubsubMessage.Attestation(subnetId, attestation.value));
                case BeaconBlock =>
                  var beaconBlock := codec.decodeBeaconBlock(data);
                  if beaconBlock.Err? {
                    return Err(DecodeFailure(beaconBlock.error));
                  }
                  return Ok(PubsubMessage.BeaconBlock(beaconBlock.value));
                case VoluntaryExit =>
                  var voluntaryExit := codec.decodeVoluntaryExit(data);
                  if voluntaryExit.Err? {
                    return Err(DecodeFailure(voluntaryExit.error));
                  }
                  return Ok(PubsubMessage.VoluntaryExit(voluntaryExit.value));
                case ProposerSlashing =>
                  var proposerSlashing := codec.decodeProposerSlashing(data);
                  if proposerSlashing.Err? {
                    return Err(DecodeFailure(proposerSlashing.error));
                  }
                  return Ok(PubsubMessage.ProposerSlashing(proposerSlashing.value));
                case AttesterSlashing =>
                  var attesterSlashing := codec.decodeAttesterSlashing(data);
                  if attesterSlashing.Err? {
                    return Err(DecodeFailure(attesterSlashing.error));
                  }
                  return Ok(PubsubMessage.AttesterSlashing(attesterSlashing.value));
              }
          }
      }
    }
    assert topics[..|topics|] == topics;
    return Err(UnknownTopics(unknownTopics));
  }

  /**
   * `PubsubMessage::encode`. As written, the source's match has no arm for
   * `AggregateAndProofAttestation`, so that variant is outside this function's domain, and the
   * `Attestation` arm yields no bytes.
   */
  function Encode(codec: SszCodec, m: PubsubMessage, encoding: GossipEncoding): (bytes: Bytes)
    requires !m.AggregateAndProofAttestation?
    ensures Lawful(codec) && !m.Attestation? ==>
              DecodeAs(codec, GossipTopic(encoding, KindOf(m)), bytes) == Ok(m)
  {
    match encoding
    case SSZ =>
      match m
      case BeaconBlock(block) => codec.encodeBeaconBlock(block)
      case VoluntaryExit(exit) => codec.encodeVoluntaryExit(exit)
      case ProposerSlashing(proposerSlashing) => codec.encodeProposerSlashing(proposerSlashing)
      case AttesterSlashing(attesterSlashing) => codec.encodeAttesterSlashing(attesterSlashing)
      case Attestation(_, _) => []
  }

  /** Once `topics[i]` is the first topic that resolves, nothing after it matters. */
  lemma {:induction false} LaterTopicsIgnored(
    resolve: TopicResolver, codec: SszCodec, topics: seq<TopicHash>, data: Bytes, i: nat, later: seq<TopicHash>)
    requires FirstResolvingAt(resolve, topics, i)
    ensures DecodeSpec(resolve, codec, topics[..i + 1] + later, data) == DecodeSpec(resolve, codec, topics, data)
    ensures DecodeSpec(resolve, codec, topics, data) == DecodeAs(codec, resolve(topics[i]).value, data)
  {
    var extended := topics[..i + 1] + later;
    assert forall j :: 0 <= j <= i ==> extended[j] == topics[j];
    assert FirstResolvingAt(resolve, extended, i);
  }

  /**
   * A payload that the first resolving topic's decoder rejects fails with that decoder's error,
   * whatever the later topics are.
   */
  lemma MalformedKnownTopicFails(
    resolve: TopicResolver, codec: SszCodec, topics: seq<TopicHash>, data: Bytes, i: nat)
    requires FirstResolvingAt(resolve, topics, i)
    requires DecoderError(codec, resolve(topics[i]).value.kind, data).Some?
    ensures DecodeSpec(resolve, codec, topics, data)
              == Err(DecodeFailure(DecoderError(codec, resolve(topics[i]).value.kind, data).value))
  {
  }

  /**
   * Under the first resolving topic the result is `Ok` exactly when that kind's decoder accepts
   * the payload, and then it carries the decoded object in the variant of that kind.
   */
  lemma FirstTopicDecodesPayload(
    resolve: TopicResolver, codec: SszCodec, topics: seq<TopicHash>, data: Bytes, i: nat)
    requires FirstResolvingAt(resolve, topics, i)
    ensures var r := DecodeSpec(resolve, codec, topics, data);
            && (r.Ok? <==> DecoderError(codec, resolve(topics[i]).value.kind, data).None?)
            && (r.Ok? ==> KindOf(r.value) == resolve(topics[i]).value.kind && CarriesDecoded(codec, r.value, data))
  {
  }

  /**
   * A committee-index topic yields an `Attestation` with that topic's subnet id and the
   * attestation decoded from the payload, or the attestation decoder's error.
   */
  lemma CommitteeIndexKeepsSubnet(
    resolve: TopicResolver, codec: SszCodec, topics: seq<TopicHash>, data: Bytes, i: nat)
    requires FirstResolvingAt(resolve, topics, i)
    requires resolve(topics[i]).value.kind.CommitteeIndex?
    ensures var r := DecodeSpec(resolve, codec, topics, data);
            var subnetId := resolve(topics[i]).value.kind.subnetId;
            var a := codec.decodeAttestation(data);
            && (a.Ok? ==> r == Ok(PubsubMessage.Attestation(subnetId, a.value)))
            && (a.Err? ==> r == Err(DecodeFailure(a.error)))
  {
  }

  /**
   * An aggregate-and-proof topic yields `AggregateAndProofAttestation` with the decoded
   * aggregate, or the aggregate decoder's error.
   */
  lemma AggregateAndProofDecoded(
    resolve: TopicResolver, codec: SszCodec, topics: seq<TopicHash>, data: Bytes, i: nat)
    requires FirstResolvingAt(resolve, topics, i)
    requires resolve(topics[i]).value.kind.BeaconAggregateAndProof?
    ensures var r := DecodeSpec(resolve, codec, topics, data);
            var a := codec.decodeAggregateAndProof(data);
            && (a.Ok? ==> r == Ok(PubsubMessage.AggregateAndProofAttestation(a.value)))
            && (a.Err? ==> r == Err(DecodeFailure(a.error)))
  {
  }

  /** An empty topic list is an unknown-topics error listing nothing. */
  lemma EmptyTopicsUnknown(resolve: TopicResolver, codec: SszCodec, data: Bytes)
    ensures DecodeSpec(resolve, codec, [], data) == Err(UnknownTopics([]))
  {
  }

  /**
   * Round trip for the four variants the source encodes: decoding `Encode(m)` under topics whose
   * first resolving topic has `m`'s kind gives `m` back.
   */
  lemma EncodeDecodeRoundTrip(
    resolve: TopicResolver, codec: SszCodec, topics: seq<TopicHash>, i: nat, m: PubsubMessage)
    requires Lawful(codec)
    requires m.BeaconBlock? || m.VoluntaryExit? || m.ProposerSlashing? || m.AttesterSlashing?
    requires FirstResolvingAt(resolve, topics, i)
    requires resolve(topics[i]).value == GossipTopic(SSZ, KindOf(m))
    ensures DecodeSpec(resolve, codec, topics, Encode(codec, m, SSZ)) == Ok(m)
  {
  }

  /**
   * The `Attestation` arm of `encode` drops its payload: two different attestations encode to
   * the same bytes, so no decoder can give both back.
   */
  lemma AttestationEncodingLosesPayload(
    codec: SszCodec, subnetId: Types.SubnetId, a1: Types.Attestation, a2: Types.Attestation)
    requires a1 != a2
    ensures Encode(codec, PubsubMessage.Attestation(subnetId, a1), SSZ) == []
    ensures
      var topic := GossipTopic(SSZ, GossipKind.CommitteeIndex(subnetId));
      DecodeAs(codec, topic, Encode(codec, PubsubMessage.Attestation(subnetId, a1), SSZ))
        != Ok(PubsubMessage.Attestation(subnetId, a1))
      || DecodeAs(codec, topic, Encode(codec, PubsubMessage.Attestation(subnetId, a2), SSZ))
        != Ok(PubsubMessage.Attestation(subnetId, a2))
  {
  }
}
