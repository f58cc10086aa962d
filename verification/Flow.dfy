/**
 Flow-control windows (src/server/http2/flow.rs, section 5.2 of RFC 9113).
 */
module Flow {
  import opened Base

  const MAX_WINDOW_SIZE := 0x7FFF_FFFF
  const MIN_WINDOW := -0x8000_0000

  function Updated(available: int, increment: nat): Result<int> {
    if increment == 0 then Err(ProtocolError)
    else if available + increment > MAX_WINDOW_SIZE then Err(FlowControlError)
    else Ok(available + increment)
  }

  function Consumed(available: int, bytes: nat): Result<int> {
    if bytes > available then Err(FlowControlError) else Ok(available - bytes)
  }

  function Adjusted(available: int, delta: int): Result<int> {
    if MIN_WINDOW <= available + delta <= MAX_WINDOW_SIZE then Ok(available + delta) else Err(FlowControlError)
  }

  /** `initial_size as i32`: the two's-complement reading of an unsigned 32-bit size. */
  function AsI32(size: int): int
    requires 0 <= size < 0x1_0000_0000
  {
    if size <= MAX_WINDOW_SIZE then size else size - 0x1_0000_0000
  }

  /** A window whose credit is updated in place; a refused operation leaves it as it was. */
  class Window {
    var available: int

    ghost predicate Valid()
      reads this
    {
      MIN_WINDOW <= available <= MAX_WINDOW_SIZE
    }

    constructor (initialSize: int)
      requires 0 <= initialSize < 0x1_0000_0000
      ensures Valid() && available == AsI32(initialSize)
    {
      available := AsI32(initialSize);
    }

    method Update(increment: nat) returns (r: Result<()>)
      requires Valid()
      modifies this
      ensures Valid()
      ensures r.Ok? <==> increment > 0 && old(available) + increment <= MAX_WINDOW_SIZE
      ensures match Updated(old(available), increment)
              case Ok(v) => r.Ok? && available == v
              case Err(c) => r == Err(c) && available == old(available)
    {
      if increment == 0 {
        return Err(ProtocolError);
      }
      var newAvailable := available + increment;
      if newAvailable > MAX_WINDOW_SIZE {
        return Err(FlowControlError);
      }
      available := newAvailable;
      return Ok(());
    }

    method Consume(bytes: nat) returns (r: Result<()>)
      requires Valid()
      modifies this
      ensures Valid() && (r.Ok? ==> available >= 0)
      ensures match Consumed(old(available), bytes)
              case Ok(v) => r.Ok? && available == v
              case Err(c) => r == Err(c) && available == old(available)
    {
      if bytes > available {
        return Err(FlowControlError);
      }
      available := available - bytes;
      return Ok(());
    }

    method Adjust(delta: int) returns (r: Result<()>)
      requires Valid()
      modifies this
      ensures Valid()
      ensures match Adjusted(old(available), delta)
              case Ok(v) => r.Ok? && available == v
              case Err(c) => r == Err(c) && available == old(available)
    {
      var updated := available + delta;
      if updated > MAX_WINDOW_SIZE || updated < MIN_WINDOW {
        return Err(FlowControlError);
      }
      available := updated;
      return Ok(());
    }
  }
}
