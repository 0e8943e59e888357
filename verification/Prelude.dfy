/** Shared vocabulary: optional values and byte strings. */
module Prelude {
  datatype Option<+T> = None | Some(value: T)

  newtype byte = x: int | 0 <= x < 256
  type Blob = seq<byte>

  const MAX_INT64 := 0x7fff_ffff_ffff_ffff
  const MAX_UINT32 := 0xffff_ffff
  const MAX_UINT64 := 0xffff_ffff_ffff_ffff

  type u32 = n: nat | n <= MAX_UINT32
  type u64 = n: nat | n <= MAX_UINT64
  type i64 = n: int | -MAX_INT64 - 1 <= n <= MAX_INT64

  /** The least amount of an output, and the most inputs of a spend. */
  const DUST_SATS := 330
  const MAX_INPUTS := 50

  /** The longest reference the Operator may give a registration. */
  const MAX_OPERATOR_REF_BYTES := 256

  /** Sixty-four lower-case hexadecimal characters. */
  predicate IsTxid(s: string) {
    |s| == 64 && forall i :: 0 <= i < 64 ==> '0' <= s[i] <= '9' || 'a' <= s[i] <= 'f'
  }
}
