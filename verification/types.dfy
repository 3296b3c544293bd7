/** Basic vocabulary shared by the relay model: bytes, the relay's
    configuration and the constants fixed in the source. Time is measured
    in whole milliseconds as a `nat`; `Instant`/`Duration` overflow is not
    modelled. */
module Types {

  /** One octet of a TCP byte stream (`u8`). */
  newtype byte = x: int | 0 <= x < 256

  /** Size of each side's read buffer (`[0; 1024]`). */
  const BUF_SIZE: nat := 1024

  /** Delay of the never-empty placeholder entry: 365 days, in milliseconds. */
  const PLACEHOLDER_DELAY_MS: nat := 3600 * 24 * 365 * 1000

  /** The two options the scheduler reads: the base one-way latency and the
      bound of the additional random delay, both in milliseconds. */
  datatype Config = Config(latency: nat, jitter: nat)
}
