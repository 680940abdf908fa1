/** The client handle that the builders and the binding talk to. Its
    request builders (prepare transfers, send trytes, get new address,
    check consistency, attach to tangle, broadcast bundle) run network
    round-trips and crypto whose code is not part of this model: each is
    an abstract collaborator here, a function from the request it is
    given to the answer it returns. The client also keeps a log of every
    request it received, so that contracts can say exactly what was sent,
    in which order, and when nothing was sent at all. */
module IotaClient {
  import opened Types

  /** What `prepare_transfers()` is given before `build()`; a field that was
      never set on that builder is None. */
  datatype PrepareRequest = PrepareRequest(
    seed: Seed,
    transfers: seq<Transfer>,
    security: uint8,
    inputs: Option<seq<Input>>,
    remainder: Option<Address>)

  /** What `send_trytes()` is given before `send()`. */
  datatype SendTrytesRequest = SendTrytesRequest(
    trytes: seq<Transaction>,
    depth: uint8,
    minWeightMagnitude: uint8,
    reference: Option<Hash>)

  /** What `get_new_address()` is given before `generate()`. */
  datatype NewAddressRequest = NewAddressRequest(
    seed: Seed,
    index: Option<uint64>,
    security: Option<uint8>)

  /** What `attach_to_tangle()` is given before `send()`. */
  datatype AttachRequest = AttachRequest(
    trunk: Option<Hash>,
    branch: Option<Hash>,
    minWeightMagnitude: Option<uint8>)

  /** The node's answer to a consistency check. */
  datatype ConsistencyResponse = ConsistencyResponse(state: bool, info: Option<string>)

  /** One request as the client received it. */
  datatype Call =
    | PrepareTransfers(prepare: PrepareRequest)
    | SendTrytes(send: SendTrytesRequest)
    | GetNewAddress(newAddress: NewAddressRequest)
    | CheckConsistency(tails: seq<Hash>)
    | AttachToTangle(attach: AttachRequest)
    | BroadcastBundle(tail: Hash)

  class Client {
    const prepareTransfers: PrepareRequest -> Result<seq<Transaction>>
    const sendTrytes: SendTrytesRequest -> Result<seq<Transaction>>
    const generateAddress: NewAddressRequest -> Result<(uint64, Address)>
    const checkConsistency: seq<Hash> -> Result<ConsistencyResponse>
    const attachToTangle: AttachRequest -> Result<seq<Transaction>>
    const broadcastBundle: Hash -> Result<seq<Transaction>>

    /** Every request received so far, oldest first. */
    ghost var calls: seq<Call>

    constructor (
      prepareTransfers: PrepareRequest -> Result<seq<Transaction>>,
      sendTrytes: SendTrytesRequest -> Result<seq<Transaction>>,
      generateAddress: NewAddressRequest -> Result<(uint64, Address)>,
      checkConsistency: seq<Hash> -> Result<ConsistencyResponse>,
      attachToTangle: AttachRequest -> Result<seq<Transaction>>,
      broadcastBundle: Hash -> Result<seq<Transaction>>)
      ensures this.prepareTransfers == prepareTransfers && this.sendTrytes == sendTrytes
      ensures this.generateAddress == generateAddress && this.checkConsistency == checkConsistency
      ensures this.attachToTangle == attachToTangle && this.broadcastBundle == broadcastBundle
      ensures calls == []
    {
      this.prepareTransfers := prepareTransfers;
      this.sendTrytes := sendTrytes;
      this.generateAddress := generateAddress;
      this.checkConsistency := checkConsistency;
      this.attachToTangle := attachToTangle;
      this.broadcastBundle := broadcastBundle;
      calls := [];
    }

    /** `prepare_transfers()...build()`. */
    method BuildTransfers(request: PrepareRequest) returns (r: Result<seq<Transaction>>)
      modifies this
      ensures calls == old(calls) + [PrepareTransfers(request)]
      ensures r == prepareTransfers(request)
    {
      calls := calls + [PrepareTransfers(request)];
      r := prepareTransfers(request);
    }

    /** `send_trytes()...send()`. */
    method SendTrytesSend(request: SendTrytesRequest) returns (r: Result<seq<Transaction>>)
      modifies this
      ensures calls == old(calls) + [SendTrytes(request)]
      ensures r == sendTrytes(request)
    {
      calls := calls + [SendTrytes(request)];
      r := sendTrytes(request);
    }

    /** `get_new_address()...generate()`. */
    method Generate(request: NewAddressRequest) returns (r: Result<(uint64, Address)>)
      modifies this
      ensures calls == old(calls) + [GetNewAddress(request)]
      ensures r == generateAddress(request)
    {
      calls := calls + [GetNewAddress(request)];
      r := generateAddress(request);
    }

    /** `check_consistency().tails(..).send()`. */
    method CheckConsistencySend(tails: seq<Hash>) returns (r: Result<ConsistencyResponse>)
      modifies this
      ensures calls == old(calls) + [CheckConsistency(tails)]
      ensures r == checkConsistency(tails)
    {
      calls := calls + [CheckConsistency(tails)];
      r := checkConsistency(tails);
    }

    /** `attach_to_tangle()...send()`. */
    method AttachSend(request: AttachRequest) returns (r: Result<seq<Transaction>>)
      modifies this
      ensures calls == old(calls) + [AttachToTangle(request)]
      ensures r == attachToTangle(request)
    {
      calls := calls + [AttachToTangle(request)];
      r := attachToTangle(request);
    }

    /** `broadcast_bundle(&tail)`. */
    method Broadcast(tail: Hash) returns (r: Result<seq<Transaction>>)
      modifies this
      ensures calls == old(calls) + [BroadcastBundle(tail)]
      ensures r == broadcastBundle(tail)
    {
      calls := calls + [BroadcastBundle(tail)];
      r := broadcastBundle(tail);
    }
  }
}
