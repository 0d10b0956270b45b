/** Shared vocabulary of the daemon: optional values, the crate-wide error
    type, byte strings, the fixed-width integers the store casts between, and
    the password hasher the domain calls but does not implement. */
module Base {

  datatype Option<+T> = None | Some(value: T)

  /** `anyhow::Result`: either a value or one of the errors the core raises. */
  datatype Result<+T> = Ok(value: T) | Err(error: Error) {
    predicate IsFailure() { Err? }

    function PropagateFailure<U>(): Result<U>
      requires Err?
    {
      Err(error)
    }

    function Extract(): T
      requires Ok?
    {
      value
    }
  }

  /** The `bail!` sites of the domain, and the hasher's own failure. */
  datatype Error =
    | NamespaceUnavailable   // "namespace isn't available"
    | InvalidNamespace       // "invalid namespace"
    | InvalidApiKey          // "invalid api key"
    | HashingFailed          // "error computing hash digest"

  type Byte = b: int | 0 <= b < 256
  type Bytes = seq<Byte>

  /** `HashDigest = [u8; 32]` */
  type Digest = d: Bytes | |d| == 32 witness seq(32, _ => 0)

  /** `uuid::Uuid::into_bytes()` is always 16 bytes. */
  type Uuid = u: Bytes | |u| == 16 witness seq(16, _ => 0)

  /** Argon2 is a foreign library: the model only knows that it maps a secret
      and a salt to a 32-byte digest or fails, and that it is a function. */
  type Hasher = (Bytes, Bytes) -> Option<Digest>

  /** A hasher that never fails. */
  ghost predicate NeverFails(h: Hasher) {
    forall secret, salt :: h(secret, salt).Some?
  }

  const TWO_63: int := 0x8000_0000_0000_0000
  const TWO_64: int := 0x1_0000_0000_0000_0000

  type U64 = x: int | 0 <= x < 0x1_0000_0000_0000_0000
  type I64 = x: int | -0x8000_0000_0000_0000 <= x < 0x8000_0000_0000_0000

  /** Rust's `x as i64` for `x: u64`: two's-complement reinterpretation. */
  function U64ToI64(x: U64): (r: I64)
    ensures x < TWO_63 ==> r == x
    ensures r < 0 <==> x >= TWO_63
    ensures I64ToU64(r) == x
  {
    if x < TWO_63 then x else x - TWO_64
  }

  /** Rust's `x as u64` for `x: i64`. */
  function I64ToU64(x: I64): (r: U64)
    ensures 0 <= x ==> r == x
    ensures (r - x) % TWO_64 == 0
  {
    if 0 <= x then x else x + TWO_64
  }

  /** Reduction of an unbounded sum modulo 2^64; on every `i64` it is the
      `as u64` cast. */
  function WrapU64(x: int): (r: U64)
    ensures -TWO_63 <= x < TWO_63 ==> r == I64ToU64(x)
    ensures (r - x) % TWO_64 == 0
  {
    x % TWO_64
  }

  /** The two casts are inverse bijections between `i64` and `u64`. */
  lemma CastRoundTrip(x: I64, y: U64)
    ensures U64ToI64(I64ToU64(x)) == x
    ensures I64ToU64(U64ToI64(y)) == y
  {
  }

  /** The bytes of an ASCII literal such as `b"somesaltforyou"`. */
  function AsciiBytes(s: string): (r: Bytes)
    requires forall i :: 0 <= i < |s| ==> s[i] as int < 256
    ensures |r| == |s|
    ensures forall i :: 0 <= i < |s| ==> r[i] == s[i] as int
  {
    seq(|s|, i requires 0 <= i < |s| => s[i] as int)
  }
}
