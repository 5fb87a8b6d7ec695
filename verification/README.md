# FM tuner customisation resolver, modelled in Dafny

This project models `jni/fmr/custom.cpp` of the MediaTek FM radio application's
native library. That file is the routine that fills the tuner's default
configuration record (`CUST_cfg_ds`):

- `CUST_get_cfg` reads the chip-identity properties and maps them to a chip.
  It tries the primary property `persist.vendor.connsys.fm_chipid` first, with
  eight literals. Only when that gives nothing does it try the A-die property
  `vendor.connsys.adie.chipid`, with two literals.
- `CUST_update_cfg` takes that chip and does three things:
  - it selects one of seven static, sentinel-terminated fake-channel tables;
  - it fills the fixed and property-driven fields of the record;
  - it clamps the level-2 de-sense RSSI threshold into [-102, -72].
- When a table was selected, it counts the table's valid entries into the
  process-wide `fake_ch_info`.

Modules:

- `FmTypes` (`fm_types.dfy`): the chip identifiers, fake-channel entries, the
  shared fake-channel info, the configuration record, the four properties, and
  the header constants. The header constants are a `CustConstants` parameter
  whose values are never assumed.
- `FakeChannels` (`fake_channels.dfy`): the seven tables, and the sentinel scan.
  The scan appears twice: as a recursive count (`ValidCount`) and as the
  source's loop (`ScanSentinel`).
- `ChipResolve` (`chip_resolve.dfy`): the two-stage string-to-chip mapping.
- `CustCfgUpdate` (`cust_cfg.dfy`): the threshold clamp, the dispatch, the
  update and the top-level query.

How the global state and the inputs are represented:

- The global `fake_ch_info` is threaded explicitly. `UpdateCfg` and `GetCfg`
  take its current value and return the new one beside the record.
- The selected table is named by a `TableTag`, not by its address. The record's
  `fake_chan` pointer is a `FakeChanRef`: it is either `SharedInfo`, meaning
  `&fake_ch_info`, or `Unset`, meaning whatever the caller left there.
- Property reads are inputs of type `Option`. A string property that is set to
  the empty string counts as absent, because `property_get` returns the value's
  length. An integer property is `None` when it is unset or does not parse, so
  it reads as the default 0.

Two details of the code shape the model:

- For an unsupported or unrecognised chip, `cfg->chip` is not written. It keeps
  its previous value (custom.cpp:148-150). It is not set to "unsupported".
- `cfg->fake_chan` always points at the shared info (custom.cpp:186). It is
  never left null. When no table is selected, the shared info itself is left as
  it was (custom.cpp:178-184). Initially that is `{NULL, 0}`.

## Model

| member | source | states |
|---|---|---|
| FmTypes.PropertyFlag | jni/fmr/custom.cpp:158-172 | an integer flag property read with default 0 is on if and only if the property holds exactly 1; unset, unparsable and every other value read as off |
| FmTypes.PropertyGetLength | jni/fmr/custom.cpp:194 | the reported length of a string property is zero exactly when it is unset or empty, and otherwise the value's length; the chip-property tests at lines 194 and 215 take a non-zero length as present |
| FakeChannels.TableData | jni/fmr/custom.cpp:44-104 | every static table is non-empty and ends with the `{0, 0, 0}` sentinel |
| FakeChannels.ValidCount | jni/fmr/custom.cpp:178-184 | the count never exceeds the table length; every entry before it has a positive frequency; the entry at it, when there is one, has a non-positive frequency |
| FakeChannels.FirstSentinelIsValidCount | jni/fmr/custom.cpp:181-183 | an index is the first entry with frequency <= 0 exactly when the table has such an entry and the index is the valid-entry count, so the stopping point is unique |
| FakeChannels.ScanSentinel | jni/fmr/custom.cpp:179-183 | the scan loop, given a terminated table, stops in bounds at the first entry with frequency <= 0; every earlier entry is positive; the result equals the valid-entry count |
| FakeChannels.TablesTerminated | jni/fmr/custom.cpp:44-104 | every table has a sentinel, and its only sentinel is the last entry, so each listed channel is counted |
| FakeChannels.TableCounts | jni/fmr/custom.cpp:44-104 | the valid-entry counts of the tables as written: 5, 4, 3, 0, 2, 4 and 2 for the MT6580, MT6620, MT6627, MT6628, MT6630, MT6631 and MT6632 tables |
| ChipResolve.ResolvePrimary | jni/fmr/custom.cpp:194-212 | the primary stage yields a supported chip or "unsupported"; an unset or empty property yields "unsupported" |
| ChipResolve.ResolveSecondary | jni/fmr/custom.cpp:214-225 | the A-die stage yields only MT6631, MT6635 or "unsupported"; an unset or empty property yields "unsupported" |
| ChipResolve.ResolveChip | jni/fmr/custom.cpp:192-226 | a primary hit is the result; only when the primary stage yields "unsupported" does the A-die stage decide; the result is never an unrecognised code |
| ChipResolve.PrimaryMapping | jni/fmr/custom.cpp:195-211 | for each of the eight chips, the primary stage yields it if and only if the property is exactly its literal ("soc" for MT6580, "mt66xx" for the others) |
| ChipResolve.PrimaryUnsupported | jni/fmr/custom.cpp:192-212 | the primary stage yields "unsupported" if and only if the property is unset or equals none of the eight literals |
| ChipResolve.SecondaryMapping | jni/fmr/custom.cpp:216-222 | the A-die stage yields a chip if and only if the property is exactly that chip's literal; only "0x6631" gives MT6631 and only "0x6635" gives MT6635 |
| ChipResolve.PrimaryWins | jni/fmr/custom.cpp:194-219 | a primary literal decides the chip whatever the A-die property holds |
| ChipResolve.SecondaryFallback | jni/fmr/custom.cpp:214-226 | when the primary stage misses, the overall result is a given chip if and only if the A-die property holds that chip's literal |
| CustCfgUpdate.ClampRssiThL2 | jni/fmr/custom.cpp:174-176 | the threshold ends in [-102, -72]; a value already in range is unchanged; a value above the range becomes -72 and one below becomes -102 |
| CustCfgUpdate.ClampIdempotent | jni/fmr/custom.cpp:175-176 | clamping twice equals clamping once |
| CustCfgUpdate.ClampIsNearest | jni/fmr/custom.cpp:175-176 | the clamped value is at least as close to the input as any point of [-102, -72] |
| CustCfgUpdate.ChipTable | jni/fmr/custom.cpp:114-151 | the dispatch selects a table exactly for the eight supported chips, and none for "unsupported" or any other code |
| CustCfgUpdate.ChipTableInjective | jni/fmr/custom.cpp:114-151 | two supported chips share a table if and only if they are equal or both in {MT6631, MT6635} |
| CustCfgUpdate.ScanInfo | jni/fmr/custom.cpp:178-184 | refreshing the shared info points it at the selected table, with the size stopping at that table's first sentinel |
| CustCfgUpdate.UpdateCfg | jni/fmr/custom.cpp:108-187 | a supported chip is written and refreshes the shared info with its table and first-sentinel count; any other chip leaves the record's chip and the shared info unchanged; `fake_chan` always refers to the shared info; band, band limits (times 10), scan size, seek level and sort mode come from the constants; seek space is 5 if and only if the 50 kHz property is 1, and 1 otherwise; the short-antenna flag is false if and only if its property is 1; the threshold is the clamp of the constant: unchanged in [-102, -72], -72 above the range and -102 below |
| CustCfgUpdate.GetCfg | jni/fmr/custom.cpp:189-231 | the query always returns 0; when the two chip properties resolve to a supported chip, the record holds that chip and the shared info is its table scanned to the first sentinel; when they resolve to "unsupported", the record's chip and the shared info are unchanged; `fake_chan` always refers to the shared info; band, band limits (times 10), scan size, seek level and sort mode come from the constants; seek space is 5 if and only if the 50 kHz property is 1, and 1 otherwise; the short-antenna flag is false if and only if its property is 1; the threshold is the clamp of the constant |
| CustCfgUpdate.UpdateSizes | jni/fmr/custom.cpp:114-184 | after an update the shared count is 5, 4, 3, 0, 2, 4, 2 and 4 for MT6580, MT6620, MT6627, MT6628, MT6630, MT6631, MT6632 and MT6635 |
| CustCfgUpdate.ListedMatchesTable | jni/fmr/custom.cpp:44-104 | for each supported chip, the listed count (5, 4, 3, 0, 2, 4, 2, 4) is the valid-entry count of the table the dispatch gives it |
| CustCfgUpdate.UpdateSizeIsValidCount | jni/fmr/custom.cpp:178-184 | after an update for a supported chip, the shared count is the valid-entry count of that chip's table |
| CustCfgUpdate.Mt6635AliasesMt6631 | jni/fmr/custom.cpp:136-147 | an update for MT6635 yields the same shared info (table and size) and the same fields as one for MT6631, except that the record's chip is MT6635 |
| CustCfgUpdate.UpdateForgetsAndRepeats | jni/fmr/custom.cpp:108-187 | for a supported chip the update's outcome does not depend on the prior record or info; for any chip, repeating the update on its own output changes nothing |
| CustCfgUpdate.FieldsIndependentOfChip | jni/fmr/custom.cpp:153-176 | every field other than the chip is the same whichever chip is passed |
| CustCfgUpdate.GetCfgMt6628 | jni/fmr/custom.cpp:189-231 | primary "mt6628" yields chip MT6628, and the shared info names the MT6628 table with size 0 |
| CustCfgUpdate.GetCfgAdie6635 | jni/fmr/custom.cpp:189-231 | an unset primary and A-die "0x6635" yield chip MT6635, and the shared info names MT6631's table with size 4 |
| CustCfgUpdate.GetCfgNoChipProperty | jni/fmr/custom.cpp:189-231 | with neither chip property set, the status is 0, the record's chip and the shared info are unchanged, `fake_chan` refers to the shared info, and the unconditional fields are filled |
| CustCfgUpdate.GetCfgFromInitialState | jni/fmr/custom.cpp:106-231 | from the initial shared info `{NULL, 0}`, a query that resolves no chip leaves the shared info at `{NULL, 0}` |

## Left out

- Logging (`LOGI`, `LOGE`): diagnostics only, with no effect on any result.
- The Android property store is not modelled. Property values are inputs.
  - The `PROPERTY_VALUE_MAX` buffer, its truncation and C string handling are
    not modelled. A value is a Dafny string compared by equality.
  - An integer property that is out of the 32-bit range or does not parse is
    given as `None`. That is the case where the store returns the default.
- Header constants: `fmr.h` and `fmlib_cust.h` are not part of this model.
  - `FM_RAIDO_BAND`, `FM_FREQ_MIN`, `FM_FREQ_MAX`, `FM_MAX_CHL_SIZE`,
    `FM_SEEKTH_LEVEL_DEFAULT`, `FM_SCAN_SORT_SELECT` and `FM_CHIP_DESE_RSSI_TH`
    are fields of an uninterpreted `CustConstants` value.
  - The numeric codes of the `FM_CHIP_*` constants are replaced by the
    `ChipId` datatype. Any other integer code is `Unrecognized(code)`.
- Integer widths: the field types of `CUST_cfg_ds` live in an unseen header.
  Arithmetic is on unbounded integers. The products `FM_FREQ_MIN * 10` and
  `FM_FREQ_MAX * 10` are not wrapped.
- Fields of `CUST_cfg_ds` that this file never writes are not represented.
- Pointer identity is not modelled. A table is named by a tag. `fake_chan` only
  records whether it refers to the shared info.
- Concurrency: the unprotected shared `fake_ch_info` is modelled as sequential
  state threaded through each call. Races between concurrent calls are not
  modelled.
- FakeChannels.ScanSentinel: requires the table to contain a sentinel. On a
  table without one, the source reads past the array, which has no defined
  result. All seven static tables meet this requirement (`TablesTerminated`).
