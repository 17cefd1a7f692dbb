/** Limits of the HLS packager and the checks a configuration passes before one is built.
    Machine words are 64 bits; every multiplication and addition is checked. */
module HlsConfig {
  import opened Ts
  import opened HlsModel

  const U64_MAX := 0xFFFF_FFFF_FFFF_FFFF
  const ISIZE_MAX := 0x7FFF_FFFF_FFFF_FFFF
  const MAX_CONFIGURED_MEMORY_BYTES := 8 * 1024 * 1024 * 1024

  type U64 = x: nat | x <= U64_MAX

  datatype Config = Config(
    segmentPackets: U64, windowSegments: U64, segmentMs: U64, startupSegments: U64, startupTimeoutMs: U64)

  datatype ConfigError =
    | TooFewPackets | NoWindow | NoDuration | StartupExceedsWindow | TimeoutTooShort
    | SegmentOverflow | SegmentTooLarge | WindowOverflow | RetainedOverflow | RetainedTooLarge

  datatype Verdict = Accepted | Rejected(error: ConfigError)

  function CheckedMul(a: U64, b: U64): Option<U64> {
    if a * b <= U64_MAX then Some(a * b) else None
  }

  function SafePoolLimit(maxObjectBytes: U64): U64 {
    if maxObjectBytes / 4 < MAX_CONFIGURED_MEMORY_BYTES then maxObjectBytes / 4 else MAX_CONFIGURED_MEMORY_BYTES
  }

  function Max(a: nat, b: nat): nat {
    if a < b then b else a
  }

  function Retention(c: Config, maxObjectBytes: U64): Verdict {
    match CheckedMul(c.segmentPackets, 188)
    case None => Rejected(SegmentOverflow)
    case Some(segmentBytes) =>
      if segmentBytes > maxObjectBytes then Rejected(SegmentTooLarge)
      else if c.windowSegments + 1 > U64_MAX then Rejected(WindowOverflow)
      else
        match CheckedMul(segmentBytes, c.windowSegments + 1)
        case None => Rejected(RetainedOverflow)
        case Some(retained) =>
          if retained > SafePoolLimit(maxObjectBytes) then Rejected(RetainedTooLarge) else Accepted
  }

  function Validate(c: Config, maxObjectBytes: U64): (v: Verdict) {
    if c.segmentPackets < 3 then Rejected(TooFewPackets)
    else if c.windowSegments == 0 then Rejected(NoWindow)
    else if c.segmentMs == 0 then Rejected(NoDuration)
    else if Max(c.startupSegments, 1) > c.windowSegments then Rejected(StartupExceedsWindow)
    else if c.startupTimeoutMs < c.segmentMs then Rejected(TimeoutTooShort)
    else Retention(c, maxObjectBytes)
  }

  /** The limits a packager actually runs with; 90 ticks per millisecond. */
  function Effective(c: Config): Params {
    Params(Max(c.segmentPackets, 3), Max(c.windowSegments, 1), c.segmentMs * 90, Max(c.startupSegments, 1))
  }

  /** Acceptance is exactly: sane limits, and a full window plus the open segment fit the pool. */
  lemma ValidateExact(c: Config, maxObjectBytes: U64)
    ensures Validate(c, maxObjectBytes) == Accepted <==>
            && c.segmentPackets >= 3 && c.segmentMs >= 1
            && 1 <= Max(c.startupSegments, 1) <= c.windowSegments
            && c.segmentMs <= c.startupTimeoutMs
            && c.segmentPackets * 188 * (c.windowSegments + 1) <= SafePoolLimit(maxObjectBytes)
    ensures Validate(c, maxObjectBytes) == Accepted ==> ValidParams(Effective(c))
  {
    var bytes := c.segmentPackets * 188;
    assert bytes * (c.windowSegments + 1) >= bytes * 1;
    if bytes > 0 {
      assert bytes * (c.windowSegments + 1) >= 1 * (c.windowSegments + 1);
    }
  }
}
