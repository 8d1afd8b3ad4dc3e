/** Fixed-width integers and the Option/Result wrappers shared by every module.
    The Rust integer types are modelled as bounded subsets of the unbounded `int`;
    hashes, addresses and 256-bit words are numbers in their range. */
module Primitives {

  newtype byte = x: int | 0 <= x < 0x100

  /** Contract bytecode; the empty sequence means "no code" (an externally owned account). */
  type Bytes = seq<byte>

  type u64 = x: int | 0 <= x < 0x1_0000_0000_0000_0000
  type i64 = x: int | -0x8000_0000_0000_0000 <= x < 0x8000_0000_0000_0000
  type u128 = x: int | 0 <= x < 0x1_0000_0000_0000_0000_0000_0000_0000_0000
  type U256 = x: int | 0 <= x < 0x1_0000_0000_0000_0000_0000_0000_0000_0000_0000_0000_0000_0000_0000_0000

  /** A 20-byte account address. */
  type Address = x: int | 0 <= x < 0x1_0000_0000_0000_0000_0000_0000_0000_0000_0000

  /** A 32-byte hash. */
  type B256 = U256

  /** A chain, identified by its numeric chain id. */
  type Chain = u64

  const U64_MODULUS: int := 0x1_0000_0000_0000_0000

  datatype Option<T> = None | Some(value: T) {
    /** Rust's `unwrap_or`. */
    function UnwrapOr(default: T): T {
      match this
      case Some(v) => v
      case None => default
    }
  }

  datatype Result<T, E> = Ok(value: T) | Err(error: E)
}
