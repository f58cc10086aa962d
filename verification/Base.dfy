/**
 Types shared by every module: bytes, the error codes of RFC 9113 section 7,
 and the two failure-compatible wrappers used for the source's `Result` and `Option`.
 */
module Base {

  type Byte = x: int | 0 <= x < 256

  datatype Option<+T> = None | Some(value: T)

  datatype ErrorCode =
    | NoError | ProtocolError | InternalError | FlowControlError | SettingsTimeout
    | StreamClosed | FrameSizeError | RefusedStream | Cancel | CompressionError
    | ConnectError | EnhanceYourCalm | InadequateSecurity | Http11Required

  datatype Result<+T> = Ok(value: T) | Err(code: ErrorCode) {
    predicate IsFailure() { Err? }

    function PropagateFailure<U>(): Result<U>
      requires Err?
    {
      Err(code)
    }

    function Extract(): T
      requires Ok?
    {
      value
    }
  }

  function Min(a: int, b: int): int {
    if a <= b then a else b
  }

  function Max(a: int, b: int): int {
    if a <= b then b else a
  }

  function Pow2(n: nat): (p: int)
    ensures p >= 1
  {
    if n == 0 then 1 else 2 * Pow2(n - 1)
  }

  /** Subtraction that stops at zero. */
  function SaturatingSub(a: nat, b: nat): nat {
    if a < b then 0 else a - b
  }

  /** One more than the largest value of 64 bits. */
  const U64_LIMIT := 0x1_0000_0000_0000_0000

  /** The bytes of an ASCII string. */
  function Ascii(s: string): (b: seq<Byte>)
    ensures |b| == |s|
  {
    seq(|s|, i requires 0 <= i < |s| => if s[i] as int < 128 then s[i] as int else 63)
  }
}
