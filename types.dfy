/** Values shared by the client library and its WebAssembly binding:
    fixed-width integers, hashes, addresses, transfers, inputs, transactions
    and the error and option wrappers used for fallible calls. */
module Types {

  /** Rust's `i8`, `u8` and `u64`. */
  newtype int8 = x: int | -128 <= x < 128
  newtype uint8 = x: int | 0 <= x < 256
  newtype uint64 = x: int | 0 <= x < 0x1_0000_0000_0000_0000

  /** Number of trit-sized entries in a hash (`[i8; 243]`). */
  const HASH_LENGTH: nat := 243

  datatype Option<+T> = None | Some(value: T) {
    /** The contained value, or `default` when there is none. */
    function GetOr(default: T): T {
      match this
      case Some(v) => v
      case None => default
    }
  }

  /** An error as it reaches the caller: the builder's own "seed is not
      provided" failure, or a failure reported by a collaborator (network,
      encoding, preparation), which is passed on unchanged. */
  datatype Error = SeedNotProvided | ClientError(message: string)

  datatype Result<+T> = Ok(value: T) | Err(error: Error)

  /** Exactly `HASH_LENGTH` trits, the shape of `[i8; 243]`. */
  type HashTrits = s: seq<int8> | |s| == HASH_LENGTH witness seq(243, _ => 0 as int8)

  /** A transaction hash, tip hash or tail hash: 243 signed trits. */
  datatype Hash = Hash(trits: HashTrits)

  /** A ledger address; its trits come from a foreign encoder. */
  datatype Address = Address(trits: seq<int8>)

  /** A seed in its encoded form; its derivation is foreign crypto. */
  datatype Seed = Seed(trits: seq<int8>)

  /** A requested value transfer. */
  datatype Transfer = Transfer(address: Address, value: uint64, message: Option<string>, tag: Option<string>)

  /** A caller-supplied spendable input. */
  datatype Input = Input(address: Address, balance: uint64, index: uint64)

  /** A bundle transaction, reduced to the fields this model looks at. */
  datatype Transaction = Transaction(address: Address, value: int, currentIndex: nat, lastIndex: nat) {
    /** The tail of a bundle is its transaction with index 0. */
    predicate IsTail() {
      currentIndex == 0
    }
  }
}
