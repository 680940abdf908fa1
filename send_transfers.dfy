/** The `SendTransfersBuilder`: a configuration with fixed defaults and one
    setter per field, whose `send` step fails fast without a seed, asks the
    client to prepare a bundle, reverses the prepared transactions in place
    and hands them to the client's send-trytes step. */
module SendTransfersApi {
  import opened Types
  import opened Sequences
  import opened IotaClient

  const DEFAULT_SECURITY: uint8 := 2
  const DEFAULT_DEPTH: uint8 := 3
  const DEFAULT_MIN_WEIGHT_MAGNITUDE: uint8 := 14

  /** Everything the builder holds besides its client handle. */
  datatype SendConfig = SendConfig(
    seed: Option<Seed>,
    transfers: seq<Transfer>,
    security: uint8,
    inputs: Option<seq<Input>>,
    remainder: Option<Address>,
    depth: uint8,
    minWeightMagnitude: uint8,
    reference: Option<Hash>)

  /** The configuration a fresh builder starts from. */
  function DefaultConfig(): (c: SendConfig)
    ensures c.seed == None && c.transfers == [] && c.security == 2
    ensures c.inputs == None && c.remainder == None
    ensures c.depth == 3 && c.minWeightMagnitude == 14 && c.reference == None
  {
    SendConfig(None, [], DEFAULT_SECURITY, None, None, DEFAULT_DEPTH, DEFAULT_MIN_WEIGHT_MAGNITUDE, None)
  }

  /** What one `send` does: the requests it issues, in order, and what it returns. */
  datatype Run = Run(calls: seq<Call>, result: Result<seq<Transaction>>)

  /** The outcome of `send` on configuration `cfg` against a client whose
      preparation step answers `prepare` and whose send-trytes step answers
      `sendTrytes`. */
  function SendOutcome(
    cfg: SendConfig,
    prepare: PrepareRequest -> Result<seq<Transaction>>,
    sendTrytes: SendTrytesRequest -> Result<seq<Transaction>>): (run: Run)
    // No seed: an error, and no request reaches the client.
    ensures cfg.seed.None? ==> run.calls == [] && run.result == Err(SeedNotProvided)
    // With a seed: exactly one preparation request first, carrying the
    // configured seed, transfers and security, and the inputs and remainder
    // exactly when they were set.
    ensures cfg.seed.Some? ==>
      1 <= |run.calls| <= 2 &&
      run.calls[0] == PrepareTransfers(PrepareRequest(cfg.seed.value, cfg.transfers, cfg.security, cfg.inputs, cfg.remainder))
    // A preparation error is returned as is and nothing else is sent.
    ensures cfg.seed.Some? && prepare(run.calls[0].prepare).Err? ==>
      |run.calls| == 1 && run.result == prepare(run.calls[0].prepare)
    // Otherwise one send-trytes request follows, carrying the prepared list
    // reversed, the configured depth and difficulty and the reference exactly
    // when it was set; its answer is the answer of `send`.
    ensures cfg.seed.Some? && prepare(run.calls[0].prepare).Ok? ==>
      var prepared := prepare(run.calls[0].prepare).value;
      |run.calls| == 2 && run.calls[1].SendTrytes? &&
      var sent := run.calls[1].send;
      |sent.trytes| == |prepared| &&
      (forall k :: 0 <= k < |prepared| ==> sent.trytes[k] == prepared[|prepared| - 1 - k]) &&
      multiset(sent.trytes) == multiset(prepared) &&
      Reversed(sent.trytes) == prepared &&
      sent.depth == cfg.depth && sent.minWeightMagnitude == cfg.minWeightMagnitude &&
      sent.reference == cfg.reference &&
      run.result == sendTrytes(sent)
    // Success is only ever the send-trytes answer.
    ensures run.result.Ok? ==> |run.calls| == 2 && run.calls[1].SendTrytes? && run.result == sendTrytes(run.calls[1].send)
  {
    match cfg.seed
    case None => Run([], Err(SeedNotProvided))
    case Some(seed) =>
      var request := PrepareRequest(seed, cfg.transfers, cfg.security, cfg.inputs, cfg.remainder);
      match prepare(request)
      case Err(e) => Run([PrepareTransfers(request)], Err(e))
      case Ok(prepared) =>
        var sent := SendTrytesRequest(Reversed(prepared), cfg.depth, cfg.minWeightMagnitude, cfg.reference);
        ReversedIndices(prepared);
        ReversedMultiset(prepared);
        ReversedTwice(prepared);
        Run([PrepareTransfers(request), SendTrytes(sent)], sendTrytes(sent))
  }

  class SendTransfersBuilder {
    const client: Client
    var seed: Option<Seed>
    var transfers: seq<Transfer>
    var security: uint8
    var inputs: Option<seq<Input>>
    var remainder: Option<Address>
    var depth: uint8
    var minWeightMagnitude: uint8
    var reference: Option<Hash>

    /** The builder's fields as one value. */
    function Configuration(): SendConfig
      reads this
    {
      SendConfig(seed, transfers, security, inputs, remainder, depth, minWeightMagnitude, reference)
    }

    /** `SendTransfersBuilder::new`: the defaults, and the client as given. */
    constructor (client: Client)
      ensures this.client == client
      ensures Configuration() == DefaultConfig()
    {
      this.client := client;
      seed := None;
      transfers := [];
      security := DEFAULT_SECURITY;
      inputs := None;
      remainder := None;
      depth := DEFAULT_DEPTH;
      minWeightMagnitude := DEFAULT_MIN_WEIGHT_MAGNITUDE;
      reference := None;
    }

    method SetSeed(s: Seed)
      modifies this
      ensures Configuration() == old(Configuration()).(seed := Some(s))
    {
      seed := Some(s);
    }

    /** Replaces the whole transfer list; earlier transfers are dropped. */
    method SetTransfers(t: seq<Transfer>)
      modifies this
      ensures Configuration() == old(Configuration()).(transfers := t)
    {
      transfers := t;
    }

    method SetSecurity(level: uint8)
      modifies this
      ensures Configuration() == old(Configuration()).(security := level)
    {
      security := level;
    }

    method SetInputs(i: seq<Input>)
      modifies this
      ensures Configuration() == old(Configuration()).(inputs := Some(i))
    {
      inputs := Some(i);
    }

    method SetRemainder(address: Address)
      modifies this
      ensures Configuration() == old(Configuration()).(remainder := Some(address))
    {
      remainder := Some(address);
    }

    method SetDepth(d: uint8)
      modifies this
      ensures Configuration() == old(Configuration()).(depth := d)
    {
      depth := d;
    }

    method SetMinWeightMagnitude(mwm: uint8)
      modifies this
      ensures Configuration() == old(Configuration()).(minWeightMagnitude := mwm)
    {
      minWeightMagnitude := mwm;
    }

    method SetReference(h: Hash)
      modifies this
      ensures Configuration() == old(Configuration()).(reference := Some(h))
    {
      reference := Some(h);
    }

    /** `send`: the requests it issues and its answer are those of
        `SendOutcome` on the current configuration. */
    method Send() returns (r: Result<seq<Transaction>>)
      modifies client
      ensures
        var run := SendOutcome(Configuration(), client.prepareTransfers, client.sendTrytes);
        client.calls == old(client.calls) + run.calls && r == run.result
    {
      ghost var cfg := Configuration();
      if seed.None? {
        return Err(SeedNotProvided);
      }
      var transfer := PrepareRequest(seed.value, transfers, security, None, None);
      if inputs.Some? {
        transfer := transfer.(inputs := Some(inputs.value));
      }
      if remainder.Some? {
        transfer := transfer.(remainder := Some(remainder.value));
      }
      assert transfer == PrepareRequest(cfg.seed.value, cfg.transfers, cfg.security, cfg.inputs, cfg.remainder);
      var built := client.BuildTransfers(transfer);
      if built.Err? {
        return Err(built.error);
      }
      var prepared := built.value;
      var trytes := new Transaction[|prepared|](k requires 0 <= k < |prepared| => prepared[k]);
      assert trytes[..] == prepared;
      ReverseInPlace(trytes);
      var sendTrytes := SendTrytesRequest(trytes[..], depth, minWeightMagnitude, None);
      if reference.Some? {
        sendTrytes := sendTrytes.(reference := Some(reference.value));
      }
      assert sendTrytes == SendTrytesRequest(Reversed(prepared), cfg.depth, cfg.minWeightMagnitude, cfg.reference);
      r := client.SendTrytesSend(sendTrytes);
    }
  }

  /** A builder configured the way a caller of the fluent interface would:
      setting the transfers twice keeps only the second list, and every
      untouched field keeps its default. */
  method ConfigureTwice(client: Client, first: seq<Transfer>, second: seq<Transfer>, s: Seed, d: uint8)
    returns (b: SendTransfersBuilder)
    ensures b.client == client
    ensures b.Configuration() == SendConfig(Some(s), second, 2, None, None, d, 14, None)
  {
    b := new SendTransfersBuilder(client);
    b.SetTransfers(first);
    b.SetSeed(s);
    b.SetTransfers(second);
    b.SetDepth(d);
  }
}
