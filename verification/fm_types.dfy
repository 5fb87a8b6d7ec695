/**
 Data model of the FM tuner customisation resolver: chip identities, the
 fake-channel entries and the process-wide fake-channel info, the
 configuration record that the resolver fills in, the system properties it
 reads and the header constants it copies.
 */
module FmTypes {

  /** A value that may be absent, used for system properties. */
  datatype Option<+T> = None | Some(value: T) {

    /** The value, or `default` when absent. */
    function GetOr(default: T): T {
      match this
      case Some(v) => v
      case None => default
    }
  }

  /** The chip identifiers the resolver knows, plus the "unsupported" marker.
      `Unrecognized` stands for any other integer code a caller may pass to the
      update routine; the numeric codes of the named chips live in a header
      that is not part of this model. */
  datatype ChipId =
    | MT6580
    | MT6620
    | MT6627
    | MT6628
    | MT6630
    | MT6631
    | MT6632
    | MT6635
    | Unsupported
    | Unrecognized(code: int)

  /** The eight chips for which the update routine selects a fake-channel table. */
  predicate IsSupported(c: ChipId) {
    !c.Unsupported? && !c.Unrecognized?
  }

  /** One fallback channel: frequency in units of 10 kHz, an RSSI threshold and
      a reserved word. An entry whose frequency is not positive ends a table. */
  datatype FakeChannel = FakeChannel(freq: int, rssiTh: int, reserve: int)

  /** Names the seven static fake-channel tables (in place of their addresses). */
  datatype TableTag = T6580 | T6620 | T6627 | T6628 | T6630 | T6631 | T6632

  /** The process-wide fake-channel info: the table last selected (`None` for the
      initial null pointer) and the number of valid entries counted in it. */
  datatype FakeChannelInfo = FakeChannelInfo(chan: Option<TableTag>, size: int)

  /** The value the fake-channel info holds when the process starts. */
  const InitialFakeChannelInfo: FakeChannelInfo := FakeChannelInfo(None, 0)

  /** What the configuration's `fake_chan` pointer refers to: the shared
      fake-channel info, or whatever the caller left there before. */
  datatype FakeChanRef = Unset | SharedInfo

  /** The fields of the configuration record that the resolver writes. */
  datatype CustCfg = CustCfg(
    chip: ChipId,
    band: int,
    lowBand: int,
    highBand: int,
    seekSpace: int,
    maxScanNum: int,
    seekLev: int,
    scanSort: int,
    shortAnaSup: bool,
    rssiThL2: int,
    fakeChan: FakeChanRef)

  /** Compile-time constants from headers that are not part of this model; the
      model never assumes their values. */
  datatype CustConstants = CustConstants(
    radioBand: int,        // FM_RAIDO_BAND
    freqMin: int,          // FM_FREQ_MIN
    freqMax: int,          // FM_FREQ_MAX
    maxChlSize: int,       // FM_MAX_CHL_SIZE
    seekthLevelDefault: int, // FM_SEEKTH_LEVEL_DEFAULT
    scanSortSelect: int,   // FM_SCAN_SORT_SELECT
    chipDeseRssiTh: int)   // FM_CHIP_DESE_RSSI_TH

  /** The four system properties the resolver reads. A string property is `None`
      when it is not set; an integer property is `None` when it is not set or
      does not parse as a 32-bit integer. */
  datatype Properties = Properties(
    fmChipId: Option<string>,            // persist.vendor.connsys.fm_chipid
    adieChipId: Option<string>,          // vendor.connsys.adie.chipid
    fiftyKhzSupport: Option<int>,        // persist.vendor.connsys.fm_50khz_support
    shortAntennaSupport: Option<int>)    // persist.vendor.connsys.fm_short_antenna_support

  /** Reads an integer property, falling back to `default` when it is unset or
      unparsable. */
  function PropertyInt32(p: Option<int>, default: int): int {
    p.GetOr(default)
  }

  /** An integer flag property read with default 0 and compared with 1, as the
      update routine does for its two flags: set exactly when the property holds 1. */
  function PropertyFlag(p: Option<int>): (on: bool)
    ensures on <==> p == Some(1)
  {
    PropertyInt32(p, 0) == 1
  }

  /** The length the property store reports for a string property: zero when the
      property is unset or empty, otherwise the length of its value. */
  function PropertyGetLength(p: Option<string>): (len: nat)
    ensures len == 0 <==> (p.None? || p.value == [])
    ensures p.Some? ==> len == |p.value|
  {
    match p
    case None => 0
    case Some(v) => |v|
  }

  /** A string property counts as present when the reported length is non-zero. */
  predicate PropertyPresent(p: Option<string>) {
    PropertyGetLength(p) > 0
  }
}
