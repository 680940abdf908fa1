# IOTA client: send-transfers builder and WebAssembly binding

This project models two parts of the IOTA Rust client library in Dafny.

The first part is the `SendTransfersBuilder` (`iota-client/extended/send_transfers.rs`). It is a configuration with fixed defaults (security 2, depth 3, minimum weight magnitude 14, everything optional unset). Each setter overwrites one field. Its `send` step works as follows:

- it fails with "seed is not provided" when no seed was set;
- it asks the client to prepare a bundle from the seed, the transfers and the security level, adding the inputs and the remainder address only when they were set;
- it reverses the prepared transactions in place (by the bundle convention this turns them into tail-first order, but neither source file shows in which order the preparation step returns them);
- it hands them to the client's send-trytes step with the depth, the difficulty and, when set, the reference hash;
- it returns that step's answer unchanged.

The second part is the WebAssembly binding (`bindings/wasm/src/lib.rs`):

- `create_hash` copies the first 243 trits of a byte slice into a hash. Longer input is truncated. Shorter input panics.
- `getNewAddress` forwards the index and security level only when the caller gave them.
- `attachToTangle` hashes the trunk and branch arguments only when they are present, and forwards the difficulty only when given.
- `broadcastBundle` hashes its one tail hash argument and broadcasts it.
- `checkConsistency` hashes every tail, in order.
- `sendTransfers` builds one transfer per host transfer and reports one tail flag per returned transaction.

Layout:

- `types.dfy` (module `Types`): fixed-width integers, hashes, addresses, seeds, transfers, inputs, transactions, `Option`, `Result` and `Error`.
- `sequences.dfy` (module `Sequences`): sequence reversal, its lemmas, and the in-place array reversal used by `send`.
- `iota_client.dfy` (module `IotaClient`): the client handle. Each request builder of the client is modelled as an abstract collaborator: a function-valued field that maps the request to the answer. The handle also keeps a ghost log of every request it received. Contracts use that log to say exactly what was sent, in which order, and when nothing was sent. The code of `crate::Client` and of its request builders is not part of this model, so an unset field of such a request is modelled as `None`.
- `send_transfers.dfy` (module `SendTransfersApi`): the builder class, its defaults, and `SendOutcome`. `SendOutcome` is a pure specification of one `send`: the requests it issues and its result. `Send` is proved equal to it.
- `wasm_binding.dfy` (module `WasmBinding`): `create_hash`, the list conversions, and the binding's methods.

Points where the code is weaker than one might expect, modelled as written:

- `create_hash` does not reject inputs longer than 243 entries; it truncates them. `TruncationCollides` shows two different inputs that give the same hash.
- `send` does not check that the transfer list is non-empty.
- Neither `iota-client/extended/send_transfers.rs` nor `bindings/wasm/src/lib.rs` checks the range of the difficulty (minimum weight magnitude).

## Model

| member | source | states |
|---|---|---|
| `Sequences.Reversed` | iota-client/extended/send_transfers.rs:110 | Reversing keeps the length of the list. |
| `Sequences.ReversedAt` | iota-client/extended/send_transfers.rs:110 | After reversal, element `k` is the input's element `n-1-k`. |
| `Sequences.ReversedIndices` | iota-client/extended/send_transfers.rs:110 | The same, for every index at once. |
| `Sequences.ReversedMultiset` | iota-client/extended/send_transfers.rs:110 | Reversal keeps the multiset of transactions: nothing is lost or duplicated. |
| `Sequences.ReversedTwice` | iota-client/extended/send_transfers.rs:110 | Reversing twice gives back the original list, so the prepared order can be recovered from what was sent. |
| `Sequences.ReverseInPlace` | iota-client/extended/send_transfers.rs:110 | A front and a back index move towards each other, exchanging the entries they reach. The array ends up holding the reversal of its old contents, and nothing else changes. |
| `IotaClient.Client.constructor` | bindings/wasm/src/lib.rs:57 | The class stands for the abstract inner `iota::Client`. The client handle answers each kind of request with the given collaborator, and no request has been received yet. |
| `IotaClient.Client.BuildTransfers` | iota-client/extended/send_transfers.rs:94-109 | The preparation request is logged once, and its answer is the collaborator's answer. |
| `IotaClient.Client.SendTrytesSend` | iota-client/extended/send_transfers.rs:111-122 | The send-trytes request is logged once, and its answer is the collaborator's answer. |
| `IotaClient.Client.Generate` | bindings/wasm/src/lib.rs:107-120 | The new-address request is logged once, and its answer is the collaborator's answer. |
| `IotaClient.Client.CheckConsistencySend` | bindings/wasm/src/lib.rs:215-221 | The consistency request with the given tails is logged once, and its answer is the collaborator's answer. |
| `IotaClient.Client.AttachSend` | bindings/wasm/src/lib.rs:181-184 | The attach request is logged once, and its answer is the collaborator's answer. |
| `IotaClient.Client.Broadcast` | bindings/wasm/src/lib.rs:197-199 | The broadcast of the tail hash is logged once, and its answer is the collaborator's answer. |
| `SendTransfersApi.DefaultConfig` | iota-client/extended/send_transfers.rs:24-36 | Defaults: no seed, no transfers, security 2, no inputs, no remainder, depth 3, minimum weight magnitude 14, no reference. |
| `SendTransfersApi.SendTransfersBuilder.constructor` | iota-client/extended/send_transfers.rs:24-36 | `new` stores the client as given and starts from the defaults. |
| `SendTransfersApi.SendTransfersBuilder.SetSeed` | iota-client/extended/send_transfers.rs:39-42 | The seed becomes `Some(seed)`; every other field is unchanged. |
| `SendTransfersApi.SendTransfersBuilder.SetTransfers` | iota-client/extended/send_transfers.rs:45-48 | The transfer list is replaced by the given list, not appended to; every other field is unchanged. |
| `SendTransfersApi.SendTransfersBuilder.SetSecurity` | iota-client/extended/send_transfers.rs:51-54 | The security level becomes the given one; every other field is unchanged. |
| `SendTransfersApi.SendTransfersBuilder.SetInputs` | iota-client/extended/send_transfers.rs:58-61 | The inputs become `Some(inputs)`; every other field is unchanged. |
| `SendTransfersApi.SendTransfersBuilder.SetRemainder` | iota-client/extended/send_transfers.rs:64-67 | The remainder becomes `Some(address)`; every other field is unchanged. |
| `SendTransfersApi.SendTransfersBuilder.SetDepth` | iota-client/extended/send_transfers.rs:70-73 | The depth becomes the given one; every other field is unchanged. |
| `SendTransfersApi.SendTransfersBuilder.SetMinWeightMagnitude` | iota-client/extended/send_transfers.rs:76-79 | The difficulty becomes the given one; every other field is unchanged. |
| `SendTransfersApi.SendTransfersBuilder.SetReference` | iota-client/extended/send_transfers.rs:82-85 | The reference becomes `Some(hash)`; every other field is unchanged. |
| `SendTransfersApi.ConfigureTwice` | iota-client/extended/send_transfers.rs:39-85 | After setting the transfers twice, only the second list remains. Fields never set keep their defaults. |
| `SendTransfersApi.SendOutcome` | iota-client/extended/send_transfers.rs:88-122 | No seed: an error, and no request is sent. With a seed, a preparation request comes first. It carries the seed, the transfers and the security level, and the inputs and remainder exactly when they were set. A preparation error is returned as is, and nothing else is sent. Otherwise exactly one send-trytes request follows. Its list has the prepared length, element `k` equal to prepared element `n-1-k`, the same multiset, and reverses back to the prepared list. It carries the configured depth and difficulty, and the reference exactly when set. Its answer is the answer of `send`. A success is only ever that answer. |
| `SendTransfersApi.SendTransfersBuilder.Send` | iota-client/extended/send_transfers.rs:88-123 | The requests the client receives, in order, and the returned result are exactly those of `SendOutcome` on the builder's configuration. |
| `WasmBinding.HashOf` | bindings/wasm/src/lib.rs:69-74 | The hash has exactly 243 entries, and entry `i` equals input entry `i`. |
| `WasmBinding.CreateHash` | bindings/wasm/src/lib.rs:69-74 | Requires at least 243 entries, because a shorter slice panics. Copying into the zeroed buffer yields `HashOf(bytes)`. |
| `WasmBinding.HashOfEqualIff` | bindings/wasm/src/lib.rs:70-72 | Two inputs give equal hashes exactly when their first 243 entries agree. |
| `WasmBinding.HashOfIgnoresSuffix` | bindings/wasm/src/lib.rs:71 | Entries after the 243rd are dropped: appending never changes the hash. |
| `WasmBinding.TruncationCollides` | bindings/wasm/src/lib.rs:71 | Two different inputs exist that give the same hash. |
| `WasmBinding.TailHashes` | bindings/wasm/src/lib.rs:209-213 | One hash per input tail, in the same order, each the `create_hash` of that tail. |
| `WasmBinding.CheckConsistency` | bindings/wasm/src/lib.rs:207-226 | Exactly one consistency request is sent. It carries one hash per tail, in order, and its answer is returned unchanged. |
| `WasmBinding.ToTransfers` | bindings/wasm/src/lib.rs:246-251 | One transfer per host transfer, in order. Each has the same value, the shared seed address, no message and no tag. |
| `WasmBinding.ToSentTransactions` | bindings/wasm/src/lib.rs:266-268 | One record per returned transaction, in order. Its `isTail` equals that transaction's `IsTail()`. |
| `WasmBinding.OptionalHash` | bindings/wasm/src/lib.rs:161-171 | A trunk or branch argument becomes a hash exactly when it is present (truthy), and that hash is `create_hash` of its bytes. |
| `WasmBinding.Discarded` | bindings/wasm/src/lib.rs:181-189 | The binding reports success as an empty string and passes the client's error on unchanged; the answer's content is dropped (the same shape as the broadcast answer at lines 197-204). |
| `WasmBinding.GetNewAddress` | bindings/wasm/src/lib.rs:97-133 | A tryte-decoding or seed-encoding error returns before anything is sent. Otherwise exactly one new-address request is sent, with the index and security level exactly when the caller gave them. Generation and trytes-encoding errors are returned as is. On success the answer is the generated index and the address's trytes. |
| `WasmBinding.AttachToTangle` | bindings/wasm/src/lib.rs:151-190 | Exactly one attach request is sent. The trunk and branch are `create_hash`ed and present only when given. The difficulty is present only when given. The result is an empty string on success, or the client's error. |
| `WasmBinding.BroadcastBundle` | bindings/wasm/src/lib.rs:192-205 | Exactly one broadcast of `create_hash(tail)` is sent. The result is an empty string on success, or the client's error. |
| `WasmBinding.BindingConfig` | bindings/wasm/src/lib.rs:253-259 | The builder that `sendTransfers` submits holds the encoded seed and the given transfers. Its difficulty is the given one, or 14 when absent. Every other field is the builder default. |
| `WasmBinding.SendTransfers` | bindings/wasm/src/lib.rs:228-272 | A tryte-decoding or seed-encoding error returns before anything is sent. The second decoding of the same string cannot fail after the first succeeded. Otherwise the requests and the result are those of `SendOutcome` on `BindingConfig` with one transfer per host transfer. Every transfer in the preparation request is addressed to the seed's own decoded trits. On success, every returned transaction is mapped to its tail flag. |
| `WasmBinding.BindingAlwaysPrepares` | bindings/wasm/src/lib.rs:253-264 | Through the binding, `send` always reaches the preparation step. It carries the seed, the given transfers, security 2, and no inputs or remainder. |
| `WasmBinding.SeedBecomesDestination` | bindings/wasm/src/lib.rs:238-251 | For any seed string that decodes to trits and encodes to a seed, and any non-empty list of host transfers, every transfer in the preparation request is addressed to exactly those decoded trits. The seed in the same request is the encoding of that address's trits. |
| `WasmBinding.ToAddressedTransfers` | bindings/wasm/src/lib.rs:246-251 | Corrected conversion: one transfer per host transfer, in order, each to the address that host transfer names, with its value, no message and no tag. |
| `WasmBinding.AddressedTransfersAvoidSeed` | bindings/wasm/src/lib.rs:246-251 | With the corrected conversion, no transfer is addressed to the seed's trits unless the caller named them as a destination. |
| `WasmBinding.SendAddressedTransfers` | bindings/wasm/src/lib.rs:228-272 | Corrected `sendTransfers`: the same seed handling, error paths and response. The preparation request carries exactly the caller-addressed transfers. |

## Left out

- The bodies of the client's request builders and of its direct call are not part of this model, because they are network round-trips whose code is in neither `iota-client/extended/send_transfers.rs` nor `bindings/wasm/src/lib.rs`. The builders are prepare transfers, send trytes, get new address, check consistency and attach to tangle. The direct call is `broadcast_bundle(&hash)`. Each is an abstract collaborator. It answers the same request the same way, which is enough for one `send`, since a builder is used once.
- `async`/`await` scheduling is not modelled. The model's calls are sequential and happen in source order.
- `Client::new(uri)` and `getNodeInfo` (`bindings/wasm/src/lib.rs:78-95`) and `addNeighbors` (`bindings/wasm/src/lib.rs:135-149`) are left out. They only set up or query the node connection and have no local logic.
- Decoding a tryte string into trits (`TryteBuf::try_from_str(..).as_trits()`), `IotaSeed::<Kerl>::from_buf` and `trytes()` are foreign crypto and encoding. They are passed in as the functions `decodeTrytes`, `seedFromTrits` and `addressTrytes`. The re-encoding of the trits into a buffer before `from_buf` and `from_inner_unchecked` is taken to keep the trits.
- `Address` and `Seed` accept trit sequences of any length, because `Address::from_inner_unchecked` does not check a length and the seed's length check is inside the foreign `from_buf`.
- Deserialising host arguments (`into_serde`) is not modelled; arguments arrive already typed. A falsy trunk or branch argument is `None`. Serialising answers (`from_serde`) and its possible failure are not modelled either.
- `js_error`'s debug formatting is not modelled. Errors pass through unchanged.
- Console logging and the panic hook are left out.
- `attachToTangle`'s `transactions_trytes` argument is not a parameter, because the source ignores it: its deserialisation is commented out. So the attach request carries no transactions.
- The builder's borrowed `&'a Client` is an object reference, and the borrowed seed is a value.
- The by-value setter chaining (`mut self` in, `Self` out) is modelled as in-place updates of one builder object. This relies on nothing else holding the moved builder.
- `Transaction` keeps only the fields used here. `IsTail()` means "current index is 0", the bundle convention for tails. The transaction type's own code is not part of this model.
- `CreateHash`, `TailHashes`, `CheckConsistency`, `AttachToTangle` and `BroadcastBundle` require every hash argument to have at least 243 entries. The source panics on shorter input, and a panic is not modelled as a result.

## Findings

| source | as written | input that shows it | evidently intended | confidence | as-written member | corrected member |
|---|---|---|---|---|---|---|
| bindings/wasm/src/lib.rs:238-251 | `sendTransfers` wraps the decoded seed trits, unchecked, as the destination address of every transfer it builds. So the secret seed is sent as a ledger address. | any seed string that decodes, and host transfers `[{value: 0}]`: the preparation request holds a transfer to `Address(seed trits)` | each transfer goes to a destination address the caller names | not executed; high that the seed becomes the destination, medium on what the intended destination was | `WasmBinding.SeedBecomesDestination` (the same fact is in `WasmBinding.SendTransfers`' contract) | `WasmBinding.SendAddressedTransfers` with `WasmBinding.AddressedTransfersAvoidSeed` |
