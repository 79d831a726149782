/** Types shared by every module of the model. */
module Common {

  datatype Option<+T> = None | Some(value: T)

  datatype Result<+T, +E> = Ok(value: T) | Err(error: E)

  newtype byte = x: int | 0 <= x < 0x100

  type Bytes = seq<byte>

  /** Go's signed 64-bit integer, used for every wire and column value the source declares as int64. */
  const MAX_INT64: int := 0x7fff_ffff_ffff_ffff
  type int64 = x: int | -MAX_INT64 - 1 <= x <= MAX_INT64

  /** Go's unsigned 64-bit integer. */
  const MAX_UINT64: int := 0xffff_ffff_ffff_ffff
  type uint64 = x: int | 0 <= x <= MAX_UINT64

  /** Go's unsigned 32-bit and 16-bit integers. */
  const MAX_UINT32: int := 0xffff_ffff
  type uint32 = x: int | 0 <= x <= MAX_UINT32
  const MAX_UINT16: int := 0xffff
  type uint16 = x: int | 0 <= x <= MAX_UINT16

  /** Two's-complement wrap-around of a mathematical integer to 64 bits. */
  function WrapInt64(x: int): int64 {
    var m := x % (MAX_UINT64 + 1);
    if m <= MAX_INT64 then m else m - (MAX_UINT64 + 1)
  }

  function WrapUint64(x: int): uint64 {
    x % (MAX_UINT64 + 1)
  }

  /** A Go time.Time in UTC. Zero is the zero time, for which IsZero() is true. */
  type Time = int
  const ZERO_TIME: Time := 0
  const MILLISECOND: int := 1_000_000
  const SECOND: int := 1_000 * MILLISECOND
  const MINUTE: int := 60 * SECOND
  const HOUR: int := 60 * MINUTE

  function Max(a: int, b: int): int {
    if a < b then b else a
  }

  function Min(a: int, b: int): int {
    if a < b then a else b
  }

  function Pow2(n: nat): nat {
    if n == 0 then 1 else 2 * Pow2(n - 1)
  }

  lemma PrefixGrows<T>(s: seq<T>, i: nat)
    requires i < |s|
    ensures s[..i + 1] == s[..i] + [s[i]]
  {}

  lemma SliceOfSlice<T>(s: seq<T>, from: nat, to: nat, i: nat, j: nat)
    requires i <= j && from + j <= to <= |s|
    ensures s[from..to][i..j] == s[from + i..from + j]
  {
    forall k | 0 <= k < j - i
      ensures s[from..to][i..j][k] == s[from + i..from + j][k]
    {
      assert s[from..to][i + k] == s[from + i + k];
    }
  }

  lemma FirstAndRest<T>(s: seq<T>, offset: nat, first: seq<T>, rest: seq<T>)
    requires offset <= |s| && s[offset..] == first + rest
    ensures offset + |first| <= |s| && s[offset..offset + |first|] == first && s[offset + |first|..] == rest
  {
    assert |s| - offset == |first| + |rest|;
    SliceOfSlice(s, offset, |s|, 0, |first|);
    SliceOfSlice(s, offset, |s|, |first|, |first| + |rest|);
    assert (first + rest)[0..|first|] == first && (first + rest)[|first|..|first| + |rest|] == rest;
  }
}
