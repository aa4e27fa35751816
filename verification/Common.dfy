/** What several components share: machine widths, bytes and small functions. */
module Common {

  const U16: nat := 0x1_0000
  const U32: nat := 0x1_0000_0000

  type byte = b: int | 0 <= b < 256

  datatype Option<+T> = None | Some(value: T)

  function Min(a: nat, b: nat): nat {
    if a < b then a else b
  }

  /** The time between two readings of a 32-bit clock. */
  function Elapsed(since: nat, now: nat): nat {
    (now - since) % U32
  }

  /** `http_code_has_payload`: the statuses whose responses carry a body. */
  predicate HasPayload(status: nat) {
    status == 200 || status == 400
  }

  /** The request does not fit in the receive buffer: of a streamed one only the head must. */
  predicate Oversized(streaming: bool, head: nat, body: nat, size: nat) {
    (if streaming then head else head + body) > size
  }
}
