/**
 The configuration update and the top-level query. The process-wide
 fake-channel info is threaded explicitly: the update takes its current value
 and returns the new one beside the configuration record.
 */
module CustCfgUpdate {
  import opened FmTypes
  import opened FakeChannels
  import opened ChipResolve

  /** Lower and upper bound of the level-2 de-sense RSSI threshold. */
  const RssiThL2Min: int := -102
  const RssiThL2Max: int := -72

  /** Seek-space codes: 5 is a 50 kHz step, 1 a 100 kHz step. */
  const SeekSpace50Khz: int := 5
  const SeekSpace100Khz: int := 1

  /** The configuration record and the fake-channel info after an update. */
  datatype Updated = Updated(cfg: CustCfg, info: FakeChannelInfo)

  /** The status and the state after the top-level query. */
  datatype GetResult = GetResult(status: int, cfg: CustCfg, info: FakeChannelInfo)

  /** Pulls a threshold into [-102, -72]: first capped from above, then from below. */
  function ClampRssiThL2(v: int): (r: int)
    ensures RssiThL2Min <= r <= RssiThL2Max
    ensures RssiThL2Min <= v <= RssiThL2Max ==> r == v
    ensures v > RssiThL2Max ==> r == RssiThL2Max
    ensures v < RssiThL2Min ==> r == RssiThL2Min
  {
    var capped := if v > RssiThL2Max then RssiThL2Max else v;
    if capped < RssiThL2Min then RssiThL2Min else capped
  }

  /** Clamping a clamped value changes nothing. */
  lemma ClampIdempotent(v: int)
    ensures ClampRssiThL2(ClampRssiThL2(v)) == ClampRssiThL2(v)
  {
  }

  /** The clamped value is the point of the range nearest to the input. */
  lemma ClampIsNearest(v: int, w: int)
    requires RssiThL2Min <= w <= RssiThL2Max
    ensures var r := ClampRssiThL2(v);
      (if r >= v then r - v else v - r) <= (if w >= v then w - v else v - w)
  {
  }

  /** The table each chip selects in the dispatch; MT6635 reuses MT6631's table,
      and unsupported or unrecognised chips select none. */
  function ChipTable(c: ChipId): (t: Option<TableTag>)
    ensures t.Some? <==> IsSupported(c)
  {
    match c
    case MT6580 => Some(T6580)
    case MT6620 => Some(T6620)
    case MT6627 => Some(T6627)
    case MT6628 => Some(T6628)
    case MT6630 => Some(T6630)
    case MT6631 => Some(T6631)
    case MT6632 => Some(T6632)
    case MT6635 => Some(T6631)
    case _ => None
  }

  /** Distinct supported chips select distinct tables, except MT6635, which
      shares MT6631's. */
  lemma ChipTableInjective(a: ChipId, b: ChipId)
    requires IsSupported(a) && IsSupported(b)
    ensures ChipTable(a) == ChipTable(b)
        <==> (a == b || (a in {MT6631, MT6635} && b in {MT6631, MT6635}))
  {
  }

  /** The fake-channel info after a scan of table `tag`. */
  function ScanInfo(tag: TableTag): (info: FakeChannelInfo)
    ensures info.chan == Some(tag)
    ensures IsFirstSentinel(TableData(tag), info.size)
  {
    TablesTerminated(tag);
    FirstSentinelIsValidCount(TableData(tag), ValidCount(TableData(tag)));
    FakeChannelInfo(Some(tag), ValidCount(TableData(tag)))
  }

  /** Updates the configuration for `chip`. Only a supported chip is written
      into the record and refreshes the shared fake-channel info; every other
      field is filled whatever the chip, and `fakeChan` always refers to the
      shared info. */
  function UpdateCfg(cfg: CustCfg, info: FakeChannelInfo, chip: ChipId,
                     k: CustConstants, props: Properties): (r: Updated)
    // chip field and fake-channel info
    ensures IsSupported(chip) ==> r.cfg.chip == chip
    ensures !IsSupported(chip) ==> r.cfg.chip == cfg.chip && r.info == info
    ensures IsSupported(chip) ==>
      && r.info.chan == ChipTable(chip)
      && IsFirstSentinel(TableData(r.info.chan.value), r.info.size)
    ensures r.cfg.fakeChan == SharedInfo
    // unconditional fields
    ensures r.cfg.band == k.radioBand
    ensures r.cfg.lowBand == k.freqMin * 10 && r.cfg.highBand == k.freqMax * 10
    ensures r.cfg.maxScanNum == k.maxChlSize
    ensures r.cfg.seekLev == k.seekthLevelDefault
    ensures r.cfg.scanSort == k.scanSortSelect
    // property-driven fields
    ensures r.cfg.seekSpace in {SeekSpace50Khz, SeekSpace100Khz}
    ensures r.cfg.seekSpace == SeekSpace50Khz <==> props.fiftyKhzSupport == Some(1)
    ensures !r.cfg.shortAnaSup <==> props.shortAntennaSupport == Some(1)
    // clamped threshold
    ensures RssiThL2Min <= r.cfg.rssiThL2 <= RssiThL2Max
    ensures RssiThL2Min <= k.chipDeseRssiTh <= RssiThL2Max ==> r.cfg.rssiThL2 == k.chipDeseRssiTh
    ensures k.chipDeseRssiTh > RssiThL2Max ==> r.cfg.rssiThL2 == RssiThL2Max
    ensures k.chipDeseRssiTh < RssiThL2Min ==> r.cfg.rssiThL2 == RssiThL2Min
    ensures r.cfg.rssiThL2 == ClampRssiThL2(k.chipDeseRssiTh)
  {
    var table := ChipTable(chip);
    var chip' := if table.Some? then chip else cfg.chip;
    var seekSpace :=
      if PropertyFlag(props.fiftyKhzSupport) then SeekSpace50Khz else SeekSpace100Khz;
    var shortAnaSup := !PropertyFlag(props.shortAntennaSupport);
    var info' := if table.Some? then ScanInfo(table.value) else info;
    Updated(
      CustCfg(
        chip := chip',
        band := k.radioBand,
        lowBand := k.freqMin * 10,
        highBand := k.freqMax * 10,
        seekSpace := seekSpace,
        maxScanNum := k.maxChlSize,
        seekLev := k.seekthLevelDefault,
        scanSort := k.scanSortSelect,
        shortAnaSup := shortAnaSup,
        rssiThL2 := ClampRssiThL2(k.chipDeseRssiTh),
        fakeChan := SharedInfo),
      info')
  }

  /** The top-level query: resolve the chip from the properties, update the
      configuration for it, and report success. */
  function GetCfg(cfg: CustCfg, info: FakeChannelInfo, k: CustConstants,
                  props: Properties): (r: GetResult)
    ensures r.status == 0
    // the resolved chip decides the chip field and the shared info
    ensures var c := ResolveChip(props.fmChipId, props.adieChipId);
      && (IsSupported(c) ==> r.cfg.chip == c && r.info == ScanInfo(ChipTable(c).value))
      && (c == Unsupported ==> r.cfg.chip == cfg.chip && r.info == info)
    ensures r.cfg.fakeChan == SharedInfo
    // every other field is filled whatever the chip
    ensures r.cfg.band == k.radioBand
    ensures r.cfg.lowBand == k.freqMin * 10 && r.cfg.highBand == k.freqMax * 10
    ensures r.cfg.maxScanNum == k.maxChlSize
    ensures r.cfg.seekLev == k.seekthLevelDefault
    ensures r.cfg.scanSort == k.scanSortSelect
    ensures r.cfg.seekSpace == SeekSpace50Khz <==> props.fiftyKhzSupport == Some(1)
    ensures r.cfg.seekSpace != SeekSpace50Khz ==> r.cfg.seekSpace == SeekSpace100Khz
    ensures !r.cfg.shortAnaSup <==> props.shortAntennaSupport == Some(1)
    ensures r.cfg.rssiThL2 == ClampRssiThL2(k.chipDeseRssiTh)
  {
    var u := UpdateCfg(cfg, info, ResolveChip(props.fmChipId, props.adieChipId), k, props);
    GetResult(0, u.cfg, u.info)
  }

  /** The number of fake channels listed for each supported chip. */
  function ListedFakeChannels(c: ChipId): nat
    requires IsSupported(c)
  {
    match c
    case MT6580 => 5
    case MT6620 => 4
    case MT6627 => 3
    case MT6628 => 0
    case MT6630 => 2
    case MT6631 => 4
    case MT6632 => 2
    case MT6635 => 4
  }

  /** The number of valid fake channels each supported chip ends up with. */
  lemma UpdateSizes(cfg: CustCfg, info: FakeChannelInfo, chip: ChipId,
                    k: CustConstants, props: Properties)
    requires IsSupported(chip)
    ensures UpdateCfg(cfg, info, chip, k, props).info.size == ListedFakeChannels(chip)
  {
    var tag := ChipTable(chip).value;
    assert UpdateCfg(cfg, info, chip, k, props).info.size == ValidCount(TableData(tag)) by {
      UpdateSizeIsValidCount(cfg, info, chip, k, props);
    }
    ListedMatchesTable(chip);
  }

  /** The listed counts are the valid-entry counts of the chips' tables. */
  lemma ListedMatchesTable(chip: ChipId)
    requires IsSupported(chip)
    ensures ValidCount(TableData(ChipTable(chip).value)) == ListedFakeChannels(chip)
  {
    TableCounts();
  }

  /** After an update for a supported chip, the shared count is the valid-entry
      count of that chip's table. */
  lemma UpdateSizeIsValidCount(cfg: CustCfg, info: FakeChannelInfo, chip: ChipId,
                               k: CustConstants, props: Properties)
    requires IsSupported(chip)
    ensures UpdateCfg(cfg, info, chip, k, props).info.size == ValidCount(TableData(ChipTable(chip).value))
  {
    var u := UpdateCfg(cfg, info, chip, k, props);
    FirstSentinelIsValidCount(TableData(ChipTable(chip).value), u.info.size);
  }

  /** MT6635 gets the same table, count and fields as MT6631; only the chip
      written into the record differs. */
  lemma Mt6635AliasesMt6631(cfg: CustCfg, info: FakeChannelInfo, k: CustConstants, props: Properties)
    ensures var a := UpdateCfg(cfg, info, MT6635, k, props);
      var b := UpdateCfg(cfg, info, MT6631, k, props);
      && a.info == b.info
      && a.cfg.chip == MT6635 && b.cfg.chip == MT6631
      && a.cfg == b.cfg.(chip := MT6635)
  {
  }

  /** For a supported chip the outcome does not depend on the state before the
      call; for any chip, repeating the update changes nothing. */
  lemma UpdateForgetsAndRepeats(cfg1: CustCfg, info1: FakeChannelInfo,
                                cfg2: CustCfg, info2: FakeChannelInfo,
                                chip: ChipId, k: CustConstants, props: Properties)
    ensures IsSupported(chip) ==>
      UpdateCfg(cfg1, info1, chip, k, props) == UpdateCfg(cfg2, info2, chip, k, props)
    ensures var u := UpdateCfg(cfg1, info1, chip, k, props);
      UpdateCfg(u.cfg, u.info, chip, k, props) == u
  {
  }

  /** Only the chip field and the shared info depend on the chip: the remaining
      fields are the same for any two chips. */
  lemma FieldsIndependentOfChip(cfg: CustCfg, info: FakeChannelInfo, a: ChipId, b: ChipId,
                                k: CustConstants, props: Properties)
    ensures var ua := UpdateCfg(cfg, info, a, k, props);
      var ub := UpdateCfg(cfg, info, b, k, props);
      ua.cfg.(chip := cfg.chip) == ub.cfg.(chip := cfg.chip)
  {
  }

  /** End to end: a primary "mt6628" gives MT6628 and its sentinel-only table. */
  lemma GetCfgMt6628(cfg: CustCfg, info: FakeChannelInfo, k: CustConstants, props: Properties)
    requires props.fmChipId == Some("mt6628")
    ensures var r := GetCfg(cfg, info, k, props);
      r.cfg.chip == MT6628 && r.info == FakeChannelInfo(Some(T6628), 0)
  {
    PrimaryWins(MT6628, props.adieChipId);
    UpdateSizes(cfg, info, MT6628, k, props);
  }

  /** End to end: no primary property and A-die "0x6635" give MT6635 with
      MT6631's four-entry table. */
  lemma GetCfgAdie6635(cfg: CustCfg, info: FakeChannelInfo, k: CustConstants, props: Properties)
    requires props.fmChipId == None && props.adieChipId == Some("0x6635")
    ensures var r := GetCfg(cfg, info, k, props);
      r.cfg.chip == MT6635 && r.info == FakeChannelInfo(Some(T6631), 4)
  {
    SecondaryFallback(props.fmChipId, props.adieChipId, MT6635);
    UpdateSizes(cfg, info, MT6635, k, props);
  }

  /** End to end: with no chip property set the record keeps its chip and the
      shared info is untouched, yet every other field is filled. */
  lemma GetCfgNoChipProperty(cfg: CustCfg, info: FakeChannelInfo, k: CustConstants, props: Properties)
    requires props.fmChipId == None && props.adieChipId == None
    ensures var r := GetCfg(cfg, info, k, props);
      && r.status == 0
      && r.cfg.chip == cfg.chip && r.info == info
      && r.cfg.fakeChan == SharedInfo
      && r.cfg.band == k.radioBand && r.cfg.lowBand == k.freqMin * 10
      && r.cfg.highBand == k.freqMax * 10 && r.cfg.maxScanNum == k.maxChlSize
      && r.cfg.seekLev == k.seekthLevelDefault && r.cfg.scanSort == k.scanSortSelect
  {
  }

  /** From the initial process state, a query that resolves no chip leaves the
      shared info at its initial empty value. */
  lemma GetCfgFromInitialState(cfg: CustCfg, k: CustConstants, props: Properties)
    requires ResolveChip(props.fmChipId, props.adieChipId) == Unsupported
    ensures GetCfg(cfg, InitialFakeChannelInfo, k, props).info == FakeChannelInfo(None, 0)
  {
  }
}
