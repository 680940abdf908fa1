/** The WebAssembly binding: it turns host-language arguments (already
    deserialised here) into the client library's types, calls the client,
    and turns the answers back into host-language records. The tryte
    decoder, the seed encoder and the address-to-trytes encoder it uses are
    foreign and are passed in as functions. */
module WasmBinding {
  import opened Types
  import opened Sequences
  import opened IotaClient
  import opened SendTransfersApi

  /** A transfer as the host sends it: only a value. */
  datatype NewTransfer = NewTransfer(value: uint64)

  /** A transaction as the binding reports it back. */
  datatype SentTransaction = SentTransaction(isTail: bool)

  /** The answer to `getNewAddress`. */
  datatype NewAddress = NewAddress(index: uint64, address: string)

  /** The hash `create_hash` builds: the first 243 entries of its input;
      anything after them is dropped. */
  function HashOf(bytes: seq<int8>): (h: Hash)
    requires |bytes| >= HASH_LENGTH
    ensures |h.trits| == HASH_LENGTH
    ensures forall i :: 0 <= i < HASH_LENGTH ==> h.trits[i] == bytes[i]
  {
    Hash(bytes[..HASH_LENGTH])
  }

  /** `create_hash`: copies the first 243 entries into a zeroed 243-entry
      buffer. A shorter input makes the source panic on its slice, hence
      the precondition. */
  method CreateHash(bytes: seq<int8>) returns (h: Hash)
    requires |bytes| >= HASH_LENGTH
    ensures h == HashOf(bytes)
  {
    var buffer := new int8[HASH_LENGTH](_ => 0);
    var prefix := bytes[..buffer.Length];
    var i := 0;
    while i < buffer.Length
      invariant 0 <= i <= buffer.Length
      invariant buffer[..i] == prefix[..i]
    {
      buffer[i] := prefix[i];
      i := i + 1;
    }
    h := Hash(buffer[..]);
  }

  /** Two inputs give the same hash exactly when they agree on their first
      243 entries. */
  lemma HashOfEqualIff(a: seq<int8>, b: seq<int8>)
    requires |a| >= HASH_LENGTH && |b| >= HASH_LENGTH
    ensures HashOf(a) == HashOf(b) <==> a[..HASH_LENGTH] == b[..HASH_LENGTH]
  {
  }

  /** Appending to an input does not change its hash. */
  lemma HashOfIgnoresSuffix(bytes: seq<int8>, extra: seq<int8>)
    requires |bytes| >= HASH_LENGTH
    ensures HashOf(bytes + extra) == HashOf(bytes)
  {
    assert (bytes + extra)[..HASH_LENGTH] == bytes[..HASH_LENGTH];
  }

  /** The silent truncation in concrete terms: two different inputs, one
      entry apart in length, are turned into the same hash. */
  lemma TruncationCollides()
    ensures exists a: seq<int8>, b: seq<int8> ::
      |a| >= HASH_LENGTH && |b| >= HASH_LENGTH && a != b && HashOf(a) == HashOf(b)
  {
    var a := seq(HASH_LENGTH, _ => 0 as int8);
    var b := a + [1 as int8];
    assert |a| != |b|;
    HashOfIgnoresSuffix(a, [1 as int8]);
  }

  /** The loop of `check_consistency`: one hash per tail, in order. */
  method TailHashes(tailsVec: seq<seq<int8>>) returns (tails: seq<Hash>)
    requires forall k :: 0 <= k < |tailsVec| ==> |tailsVec[k]| >= HASH_LENGTH
    ensures |tails| == |tailsVec|
    ensures forall k :: 0 <= k < |tailsVec| ==> tails[k] == HashOf(tailsVec[k])
  {
    tails := [];
    for i := 0 to |tailsVec|
      invariant |tails| == i
      invariant forall k :: 0 <= k < i ==> tails[k] == HashOf(tailsVec[k])
    {
      var h := CreateHash(tailsVec[i]);
      tails := tails + [h];
    }
  }

  /** The transfer list `sendTransfers` builds: one transfer per host
      transfer, in order, all to `address`, with the host's value and
      neither message nor tag. */
  function ToTransfers(address: Address, js: seq<NewTransfer>): (r: seq<Transfer>)
    ensures |r| == |js|
    ensures forall k :: 0 <= k < |js| ==> r[k].value == js[k].value
    ensures forall k :: 0 <= k < |js| ==> r[k].address == address
    ensures forall k :: 0 <= k < |js| ==> r[k].message == None && r[k].tag == None
  {
    if js == [] then [] else [Transfer(address, js[0].value, None, None)] + ToTransfers(address, js[1..])
  }

  /** The response `sendTransfers` builds: one record per returned
      transaction, in order, flagging the tails. */
  function ToSentTransactions(txs: seq<Transaction>): (r: seq<SentTransaction>)
    ensures |r| == |txs|
    ensures forall k :: 0 <= k < |txs| ==> r[k].isTail == txs[k].IsTail()
  {
    if txs == [] then [] else [SentTransaction(txs[0].IsTail())] + ToSentTransactions(txs[1..])
  }

  /** A present hash argument becomes a hash; an absent (falsy) one stays absent. */
  function OptionalHash(bytes: Option<seq<int8>>): (r: Option<Hash>)
    requires bytes.Some? ==> |bytes.value| >= HASH_LENGTH
    ensures r.Some? <==> bytes.Some?
    ensures bytes.Some? ==> r.value == HashOf(bytes.value)
  {
    match bytes
    case None => None
    case Some(b) => Some(HashOf(b))
  }

  /** The binding's view of a client answer whose content it does not
      serialise: an empty string on success. */
  function Discarded(response: Result<seq<Transaction>>): (r: Result<string>)
    ensures r.Ok? <==> response.Ok?
    ensures r.Ok? ==> r.value == ""
    ensures r.Err? ==> r.error == response.error
  {
    match response
    case Ok(_) => Ok("")
    case Err(e) => Err(e)
  }

  /** `getNewAddress`: the seed string is decoded into trits and encoded as
      a seed before anything is sent; the index and the
      security level reach the address builder only when the caller gave
      them. */
  method GetNewAddress(
    client: Client, seed: string, index: Option<uint64>, security: Option<uint8>,
    decodeTrytes: string -> Result<seq<int8>>, seedFromTrits: seq<int8> -> Result<Seed>,
    addressTrytes: Address -> Result<string>)
    returns (r: Result<NewAddress>)
    modifies client
    ensures decodeTrytes(seed).Err? ==>
      client.calls == old(client.calls) && r == Err(decodeTrytes(seed).error)
    ensures decodeTrytes(seed).Ok? && seedFromTrits(decodeTrytes(seed).value).Err? ==>
      client.calls == old(client.calls) && r == Err(seedFromTrits(decodeTrytes(seed).value).error)
    ensures decodeTrytes(seed).Ok? && seedFromTrits(decodeTrytes(seed).value).Ok? ==>
      var request := NewAddressRequest(seedFromTrits(decodeTrytes(seed).value).value, index, security);
      var generated := client.generateAddress(request);
      client.calls == old(client.calls) + [Call.GetNewAddress(request)] &&
      (generated.Err? ==> r == Err(generated.error)) &&
      (generated.Ok? ==>
        var trytes := addressTrytes(generated.value.1);
        r == if trytes.Ok? then Ok(NewAddress(generated.value.0, trytes.value)) else Err(trytes.error))
  {
    var decoded := decodeTrytes(seed);
    if decoded.Err? {
      return Err(decoded.error);
    }
    var encoded := seedFromTrits(decoded.value);
    if encoded.Err? {
      return Err(encoded.error);
    }
    var builder := NewAddressRequest(encoded.value, None, None);
    if index.Some? {
      builder := builder.(index := Some(index.value));
    }
    if security.Some? {
      builder := builder.(security := Some(security.value));
    }
    var generated := client.Generate(builder);
    if generated.Err? {
      return Err(generated.error);
    }
    var (i, address) := generated.value;
    var trytes := addressTrytes(address);
    if trytes.Err? {
      return Err(trytes.error);
    }
    r := Ok(NewAddress(i, trytes.value));
  }

  /** `attachToTangle`: a trunk or branch is hashed and passed on only when
      given, and so is the difficulty; the transactions argument is not
      passed on. */
  method AttachToTangle(
    client: Client, trunkBytes: Option<seq<int8>>, branchBytes: Option<seq<int8>>, minWeightMagnitude: Option<uint8>)
    returns (r: Result<string>)
    requires trunkBytes.Some? ==> |trunkBytes.value| >= HASH_LENGTH
    requires branchBytes.Some? ==> |branchBytes.value| >= HASH_LENGTH
    modifies client
    ensures
      var request := AttachRequest(OptionalHash(trunkBytes), OptionalHash(branchBytes), minWeightMagnitude);
      client.calls == old(client.calls) + [Call.AttachToTangle(request)] &&
      r == Discarded(client.attachToTangle(request))
  {
    var builder := AttachRequest(None, None, None);
    if trunkBytes.Some? {
      var hash := CreateHash(trunkBytes.value);
      builder := builder.(trunk := Some(hash));
    }
    if branchBytes.Some? {
      var hash := CreateHash(branchBytes.value);
      builder := builder.(branch := Some(hash));
    }
    if minWeightMagnitude.Some? {
      builder := builder.(minWeightMagnitude := Some(minWeightMagnitude.value));
    }
    var response := client.AttachSend(builder);
    if response.Err? {
      return Err(response.error);
    }
    r := Ok("");
  }

  /** `broadcastBundle`: the tail hash is built from the host's bytes. */
  method BroadcastBundle(client: Client, tailBytes: seq<int8>) returns (r: Result<string>)
    requires |tailBytes| >= HASH_LENGTH
    modifies client
    ensures client.calls == old(client.calls) + [Call.BroadcastBundle(HashOf(tailBytes))]
    ensures r == Discarded(client.broadcastBundle(HashOf(tailBytes)))
  {
    var tail := CreateHash(tailBytes);
    var response := client.Broadcast(tail);
    if response.Err? {
      return Err(response.error);
    }
    r := Ok("");
  }

  /** `checkConsistency`: one consistency request carrying the hash of every
      tail, in order; the node's answer is returned as is. */
  method CheckConsistency(client: Client, tailsVec: seq<seq<int8>>) returns (r: Result<ConsistencyResponse>)
    requires forall k :: 0 <= k < |tailsVec| ==> |tailsVec[k]| >= HASH_LENGTH
    modifies client
    ensures |client.calls| == |old(client.calls)| + 1
    ensures client.calls[..|old(client.calls)|] == old(client.calls)
    ensures
      var call := client.calls[|old(client.calls)|];
      call.CheckConsistency? &&
      |call.tails| == |tailsVec| &&
      (forall k :: 0 <= k < |tailsVec| ==> call.tails[k] == HashOf(tailsVec[k])) &&
      r == client.checkConsistency(call.tails)
  {
    var tails := TailHashes(tailsVec);
    r := client.CheckConsistencySend(tails);
  }

  /** The builder configuration `sendTransfers` submits: the encoded seed,
      the given transfers and, when given, the difficulty; every other field
      keeps the builder default. */
  function BindingConfig(seed: Seed, transfers: seq<Transfer>, minWeightMagnitude: Option<uint8>): (c: SendConfig)
    ensures c.seed == Some(seed) && c.transfers == transfers
    ensures c.minWeightMagnitude == (if minWeightMagnitude.Some? then minWeightMagnitude.value else 14)
    ensures c.security == 2 && c.inputs == None && c.remainder == None
    ensures c.depth == 3 && c.reference == None
  {
    DefaultConfig().(
      seed := Some(seed),
      transfers := transfers,
      minWeightMagnitude := minWeightMagnitude.GetOr(DEFAULT_MIN_WEIGHT_MAGNITUDE))
  }

  /** `sendTransfers`: the seed string is decoded into trits and encoded as
      a seed; the same string is decoded a second time and its trits are
      wrapped, unchecked, as the address every transfer goes to. A
      send-transfers builder with that seed, those transfers and, when
      given, that difficulty is sent; the answer is reported as one tail
      flag per transaction. */
  method SendTransfers(
    client: Client, seed: string, transfers: seq<NewTransfer>, minWeightMagnitude: Option<uint8>,
    decodeTrytes: string -> Result<seq<int8>>, seedFromTrits: seq<int8> -> Result<Seed>)
    returns (r: Result<seq<SentTransaction>>)
    modifies client
    ensures decodeTrytes(seed).Err? ==>
      client.calls == old(client.calls) && r == Err(decodeTrytes(seed).error)
    ensures decodeTrytes(seed).Ok? && seedFromTrits(decodeTrytes(seed).value).Err? ==>
      client.calls == old(client.calls) && r == Err(seedFromTrits(decodeTrytes(seed).value).error)
    ensures decodeTrytes(seed).Ok? && seedFromTrits(decodeTrytes(seed).value).Ok? ==>
      var trits := decodeTrytes(seed).value;
      var cfg := BindingConfig(seedFromTrits(trits).value, ToTransfers(Address(trits), transfers), minWeightMagnitude);
      var run := SendOutcome(cfg, client.prepareTransfers, client.sendTrytes);
      client.calls == old(client.calls) + run.calls &&
      // every transfer handed to the preparation step is addressed to the
      // seed's own trits
      |run.calls[0].prepare.transfers| == |transfers| &&
      (forall k :: 0 <= k < |transfers| ==> run.calls[0].prepare.transfers[k].address.trits == trits) &&
      r == if run.result.Ok? then Ok(ToSentTransactions(run.result.value)) else Err(run.result.error)
  {
    var decoded := decodeTrytes(seed);
    if decoded.Err? {
      return Err(decoded.error);
    }
    var encoded := seedFromTrits(decoded.value);
    if encoded.Err? {
      return Err(encoded.error);
    }
    // The second decoding of the same string gives the same trits, so its
    // error path cannot be taken once the first one succeeded.
    var address := Address(decodeTrytes(seed).value);
    var builder := new SendTransfersBuilder(client);
    builder.SetSeed(encoded.value);
    builder.SetTransfers(ToTransfers(address, transfers));
    if minWeightMagnitude.Some? {
      builder.SetMinWeightMagnitude(minWeightMagnitude.value);
    }
    assert builder.Configuration() == BindingConfig(encoded.value, ToTransfers(address, transfers), minWeightMagnitude);
    var transactions := builder.Send();
    if transactions.Err? {
      return Err(transactions.error);
    }
    r := Ok(ToSentTransactions(transactions.value));
  }

  /** Through the binding, a send always reaches the preparation step: the
      seed is always set, the security level is the default and neither
      inputs nor a remainder are forwarded. */
  lemma BindingAlwaysPrepares(
    seed: Seed, transfers: seq<Transfer>, minWeightMagnitude: Option<uint8>,
    prepare: PrepareRequest -> Result<seq<Transaction>>, sendTrytes: SendTrytesRequest -> Result<seq<Transaction>>)
    ensures
      var run := SendOutcome(BindingConfig(seed, transfers, minWeightMagnitude), prepare, sendTrytes);
      |run.calls| >= 1 &&
      run.calls[0] == PrepareTransfers(PrepareRequest(seed, transfers, 2, None, None))
  {
  }

  /** As written, `sendTransfers` puts the seed on the ledger: for any seed
      string that decodes and encodes, and any non-empty list of host
      transfers, every transfer in the preparation request goes to an
      address made of exactly the trits the submitted seed was encoded from. */
  lemma SeedBecomesDestination(
    s: string, transfers: seq<NewTransfer>, minWeightMagnitude: Option<uint8>,
    decodeTrytes: string -> Result<seq<int8>>, seedFromTrits: seq<int8> -> Result<Seed>,
    prepare: PrepareRequest -> Result<seq<Transaction>>, sendTrytes: SendTrytesRequest -> Result<seq<Transaction>>)
    requires transfers != []
    requires decodeTrytes(s).Ok? && seedFromTrits(decodeTrytes(s).value).Ok?
    ensures
      var trits := decodeTrytes(s).value;
      var cfg := BindingConfig(seedFromTrits(trits).value, ToTransfers(Address(trits), transfers), minWeightMagnitude);
      var request := SendOutcome(cfg, prepare, sendTrytes).calls[0].prepare;
      |request.transfers| == |transfers| &&
      forall k :: 0 <= k < |request.transfers| ==>
        request.transfers[k].address.trits == trits &&
        seedFromTrits(request.transfers[k].address.trits) == Ok(request.seed)
  {
    var trits := decodeTrytes(s).value;
    var cfg := BindingConfig(seedFromTrits(trits).value, ToTransfers(Address(trits), transfers), minWeightMagnitude);
    BindingAlwaysPrepares(cfg.seed.value, cfg.transfers, minWeightMagnitude, prepare, sendTrytes);
  }

  /** A host transfer that names its own destination. */
  datatype AddressedTransfer = AddressedTransfer(address: Address, value: uint64)

  /** The corrected conversion: each transfer goes to the address its host
      transfer names, with its value and neither message nor tag. */
  function ToAddressedTransfers(js: seq<AddressedTransfer>): (r: seq<Transfer>)
    ensures |r| == |js|
    ensures forall k :: 0 <= k < |js| ==> r[k].address == js[k].address && r[k].value == js[k].value
    ensures forall k :: 0 <= k < |js| ==> r[k].message == None && r[k].tag == None
  {
    if js == [] then [] else [Transfer(js[0].address, js[0].value, None, None)] + ToAddressedTransfers(js[1..])
  }

  /** With the corrected conversion, the seed's trits reach the ledger as a
      destination only if the caller named them as one. */
  lemma {:induction false} AddressedTransfersAvoidSeed(js: seq<AddressedTransfer>, trits: seq<int8>)
    requires forall k :: 0 <= k < |js| ==> js[k].address.trits != trits
    ensures forall k :: 0 <= k < |ToAddressedTransfers(js)| ==> ToAddressedTransfers(js)[k].address.trits != trits
  {
    if js != [] {
      AddressedTransfersAvoidSeed(js[1..], trits);
      assert ToAddressedTransfers(js) == [Transfer(js[0].address, js[0].value, None, None)] + ToAddressedTransfers(js[1..]);
    }
  }

  /** The corrected `sendTransfers`: as the binding, except that every
      transfer goes to the address its host transfer names instead of to
      the seed. */
  method SendAddressedTransfers(
    client: Client, seed: string, transfers: seq<AddressedTransfer>, minWeightMagnitude: Option<uint8>,
    decodeTrytes: string -> Result<seq<int8>>, seedFromTrits: seq<int8> -> Result<Seed>)
    returns (r: Result<seq<SentTransaction>>)
    modifies client
    ensures decodeTrytes(seed).Err? ==>
      client.calls == old(client.calls) && r == Err(decodeTrytes(seed).error)
    ensures decodeTrytes(seed).Ok? && seedFromTrits(decodeTrytes(seed).value).Err? ==>
      client.calls == old(client.calls) && r == Err(seedFromTrits(decodeTrytes(seed).value).error)
    ensures decodeTrytes(seed).Ok? && seedFromTrits(decodeTrytes(seed).value).Ok? ==>
      var cfg := BindingConfig(seedFromTrits(decodeTrytes(seed).value).value, ToAddressedTransfers(transfers), minWeightMagnitude);
      var run := SendOutcome(cfg, client.prepareTransfers, client.sendTrytes);
      client.calls == old(client.calls) + run.calls &&
      run.calls[0].prepare.transfers == ToAddressedTransfers(transfers) &&
      r == if run.result.Ok? then Ok(ToSentTransactions(run.result.value)) else Err(run.result.error)
  {
    var decoded := decodeTrytes(seed);
    if decoded.Err? {
      return Err(decoded.error);
    }
    var encoded := seedFromTrits(decoded.value);
    if encoded.Err? {
      return Err(encoded.error);
    }
    var builder := new SendTransfersBuilder(client);
    builder.SetSeed(encoded.value);
    builder.SetTransfers(ToAddressedTransfers(transfers));
    if minWeightMagnitude.Some? {
      builder.SetMinWeightMagnitude(minWeightMagnitude.value);
    }
    assert builder.Configuration() == BindingConfig(encoded.value, ToAddressedTransfers(transfers), minWeightMagnitude);
    var transactions := builder.Send();
    if transactions.Err? {
      return Err(transactions.error);
    }
    r := Ok(ToSentTransactions(transactions.value));
  }
}
