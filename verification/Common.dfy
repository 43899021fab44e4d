/** Values shared by every component: clock readings, protocols, keys and 64-bit counters. */
module Common {

  /** A clock reading in nanoseconds; 0 is the zero `time.Time`. */
  type Time = int

  const SECOND: int := 1_000_000_000

  /** An 8-bit protocol code, of which only two values are supported. */
  datatype Protocol = BEAST | MLAT | Unsupported(code: nat)

  predicate ValidProtocol(p: Protocol) {
    p == BEAST || p == MLAT
  }

  /** A feeder's API key (a UUID). */
  datatype ApiKey = ApiKey(uuid: nat)

  /** A source address, compared by value; `NoIP` stands for an address that did not parse. */
  datatype IP = NoIP | IP(addr: nat)

  datatype Option<+T> = None | Some(value: T)

  const TWO_TO_THE_64: int := 0x1_0000_0000_0000_0000

  /** An unsigned 64-bit counter. */
  type U64 = n: nat | n < TWO_TO_THE_64

  /** Addition that wraps around at 64 bits. */
  function Add64(a: U64, b: U64): (r: U64) {
    (a + b) % TWO_TO_THE_64
  }

  /** Equality of counters up to 64-bit wrap-around. */
  predicate Same64(a: int, b: int) {
    (a - b) % TWO_TO_THE_64 == 0
  }

  lemma Add64Same(a: U64, b: U64)
    ensures Same64(Add64(a, b), a + b)
  {
  }

  lemma Same64Plus(a: int, b: int, c: int, d: int)
    requires Same64(a, b) && Same64(c, d)
    ensures Same64(a + c, b + d)
  {
  }
}
