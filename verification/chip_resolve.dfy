/**
 Chip-identity resolution: the primary chip-id property is matched against
 eight literals; only when that yields "unsupported" is the A-die chip-id
 property consulted, and it knows two literals.
 */
module ChipResolve {
  import opened FmTypes

  /** The value of the primary property that selects each supported chip. */
  function PrimaryName(c: ChipId): (s: string)
    requires IsSupported(c)
  {
    match c
    case MT6580 => "soc"
    case MT6620 => "mt6620"
    case MT6627 => "mt6627"
    case MT6628 => "mt6628"
    case MT6630 => "mt6630"
    case MT6631 => "mt6631"
    case MT6632 => "mt6632"
    case MT6635 => "mt6635"
  }

  /** The value of the A-die property that selects a chip, for the two chips
      that have one. */
  function SecondaryName(c: ChipId): Option<string> {
    match c
    case MT6631 => Some("0x6631")
    case MT6635 => Some("0x6635")
    case _ => None
  }

  /** First stage: exact match of the primary property against eight literals. */
  function ResolvePrimary(p: Option<string>): (c: ChipId)
    ensures c == Unsupported || IsSupported(c)
    ensures !PropertyPresent(p) ==> c == Unsupported
  {
    if !PropertyPresent(p) then Unsupported
    else
      var v := p.value;
      if v == "soc" then MT6580
      else if v == "mt6620" then MT6620
      else if v == "mt6627" then MT6627
      else if v == "mt6628" then MT6628
      else if v == "mt6630" then MT6630
      else if v == "mt6631" then MT6631
      else if v == "mt6632" then MT6632
      else if v == "mt6635" then MT6635
      else Unsupported
  }

  /** Second stage: exact match of the A-die property against two literals. */
  function ResolveSecondary(p: Option<string>): (c: ChipId)
    ensures c in {Unsupported, MT6631, MT6635}
    ensures !PropertyPresent(p) ==> c == Unsupported
  {
    if !PropertyPresent(p) then Unsupported
    else if p.value == "0x6631" then MT6631
    else if p.value == "0x6635" then MT6635
    else Unsupported
  }

  /** The two stages together: the A-die property is consulted only when the
      primary one resolves to nothing. */
  function ResolveChip(primary: Option<string>, secondary: Option<string>): (c: ChipId)
    ensures c == Unsupported || IsSupported(c)
    ensures ResolvePrimary(primary) != Unsupported ==> c == ResolvePrimary(primary)
    ensures ResolvePrimary(primary) == Unsupported ==> c == ResolveSecondary(secondary)
  {
    var c := ResolvePrimary(primary);
    if c == Unsupported then ResolveSecondary(secondary) else c
  }

  /** The primary property selects a supported chip exactly when it holds that
      chip's literal. */
  lemma PrimaryMapping(p: Option<string>, c: ChipId)
    requires IsSupported(c)
    ensures ResolvePrimary(p) == c <==> p == Some(PrimaryName(c))
  {
  }

  /** The primary stage yields "unsupported" exactly when the property is unset,
      empty, or none of the eight literals. */
  lemma PrimaryUnsupported(p: Option<string>)
    ensures ResolvePrimary(p) == Unsupported
        <==> (p.None? || forall c :: IsSupported(c) ==> p.value != PrimaryName(c))
  {
    if ResolvePrimary(p) != Unsupported {
      PrimaryMapping(p, ResolvePrimary(p));
    } else if p.Some? {
      forall c | IsSupported(c) ensures p.value != PrimaryName(c) {
        PrimaryMapping(p, c);
      }
    }
  }

  /** The A-die property selects a chip exactly when it holds that chip's literal;
      only MT6631 and MT6635 can be selected this way. */
  lemma SecondaryMapping(p: Option<string>, c: ChipId)
    requires c != Unsupported
    ensures ResolveSecondary(p) == c <==> (SecondaryName(c).Some? && p == SecondaryName(c))
  {
  }

  /** A primary hit is never overridden, whatever the A-die property holds. */
  lemma PrimaryWins(c: ChipId, secondary: Option<string>)
    requires IsSupported(c)
    ensures ResolveChip(Some(PrimaryName(c)), secondary) == c
  {
    PrimaryMapping(Some(PrimaryName(c)), c);
  }

  /** With no primary hit, the overall result is decided by the A-die property
      alone, and is one of MT6631, MT6635 or "unsupported". */
  lemma SecondaryFallback(primary: Option<string>, secondary: Option<string>, c: ChipId)
    requires ResolvePrimary(primary) == Unsupported
    requires c != Unsupported
    ensures ResolveChip(primary, secondary) == c
        <==> (SecondaryName(c).Some? && secondary == SecondaryName(c))
  {
    SecondaryMapping(secondary, c);
  }
}
