/**
 The seven static fake-channel tables and the sentinel scan that counts the
 valid entries at the head of a table.
 */
module FakeChannels {
  import opened FmTypes

  /** The contents of each static table, sentinel `{0, 0, 0}` included. */
  function TableData(t: TableTag): (s: seq<FakeChannel>)
    ensures |s| > 0 && s[|s| - 1] == FakeChannel(0, 0, 0)
  {
    match t
    case T6620 => [FakeChannel(10400, -40, -1), FakeChannel(9100, -40, -1),
                   FakeChannel(9600, -40, -1), FakeChannel(9220, -80, -1),
                   FakeChannel(0, 0, 0)]
    case T6628 => [FakeChannel(0, 0, 0)]
    case T6627 => [FakeChannel(9600, -107, -1), FakeChannel(10400, -107, -1),
                   FakeChannel(10750, -224, -1), FakeChannel(0, 0, 0)]
    case T6580 => [FakeChannel(9600, -107, -1), FakeChannel(9570, -258, -1),
                   FakeChannel(9580, -258, -1), FakeChannel(9590, -258, -1),
                   FakeChannel(10400, -107, -1), FakeChannel(0, 0, 0)]
    case T6630 => [FakeChannel(9600, -107, -1), FakeChannel(10400, -107, -1),
                   FakeChannel(0, 0, 0)]
    case T6631 => [FakeChannel(9210, -205, -1), FakeChannel(9600, -152, -1),
                   FakeChannel(10400, -152, -1), FakeChannel(10750, -205, -1),
                   FakeChannel(0, 0, 0)]
    case T6632 => [FakeChannel(9600, -107, -1), FakeChannel(10400, -107, -1),
                   FakeChannel(0, 0, 0)]
  }

  /** The table holds an entry that stops the scan, so the scan stays in bounds. */
  ghost predicate HasSentinel(t: seq<FakeChannel>) {
    exists k :: 0 <= k < |t| && t[k].freq <= 0
  }

  /** `n` is where the scan stops: the first entry whose frequency is not positive. */
  ghost predicate IsFirstSentinel(t: seq<FakeChannel>, n: int) {
    && 0 <= n < |t|
    && t[n].freq <= 0
    && forall j :: 0 <= j < n ==> t[j].freq > 0
  }

  /** The number of leading entries with a positive frequency. */
  function ValidCount(t: seq<FakeChannel>): (r: nat)
    ensures r <= |t|
    ensures forall j :: 0 <= j < r ==> t[j].freq > 0
    ensures r < |t| ==> t[r].freq <= 0
  {
    if |t| == 0 || t[0].freq <= 0 then 0 else 1 + ValidCount(t[1..])
  }

  /** Only one index can be the first sentinel, and on a terminated table it is
      the valid-entry count. */
  lemma FirstSentinelIsValidCount(t: seq<FakeChannel>, n: int)
    ensures IsFirstSentinel(t, n) <==> (HasSentinel(t) && n == ValidCount(t))
  {
  }

  /** The scan of the update routine: walk from index 0 while the frequency is
      positive. The source reads past the table when no sentinel exists, so a
      sentinel is required. */
  method ScanSentinel(t: seq<FakeChannel>) returns (size: nat)
    requires HasSentinel(t)
    ensures IsFirstSentinel(t, size)
    ensures size == ValidCount(t)
  {
    ghost var k :| 0 <= k < |t| && t[k].freq <= 0;
    size := 0;
    while t[size].freq > 0
      invariant size <= k
      invariant forall j :: 0 <= j < size ==> t[j].freq > 0
      decreases k - size
    {
      size := size + 1;
    }
    FirstSentinelIsValidCount(t, size);
  }

  /** Every static table is terminated, and its only sentinel is the last entry:
      every channel listed before it is counted. */
  lemma TablesTerminated(tag: TableTag)
    ensures HasSentinel(TableData(tag))
    ensures ValidCount(TableData(tag)) == |TableData(tag)| - 1
  {
    var t := TableData(tag);
    assert t[|t| - 1].freq <= 0;
    assert IsFirstSentinel(t, |t| - 1);
    FirstSentinelIsValidCount(t, |t| - 1);
  }

  /** The valid-entry count of each table as written. */
  lemma TableCounts()
    ensures ValidCount(TableData(T6580)) == 5
    ensures ValidCount(TableData(T6620)) == 4
    ensures ValidCount(TableData(T6627)) == 3
    ensures ValidCount(TableData(T6628)) == 0
    ensures ValidCount(TableData(T6630)) == 2
    ensures ValidCount(TableData(T6631)) == 4
    ensures ValidCount(TableData(T6632)) == 2
  {
    TablesTerminated(T6580);
    TablesTerminated(T6620);
    TablesTerminated(T6627);
    TablesTerminated(T6628);
    TablesTerminated(T6630);
    TablesTerminated(T6631);
    TablesTerminated(T6632);
  }
}
