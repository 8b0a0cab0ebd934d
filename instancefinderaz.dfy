// instance-finder/az.py, the helpers: price and label formatting, the
// FAMILY list and its match tokens, SKU capabilities and GPU details, the
// zones a SKU is offered in, and the cheapest matching retail price item.
// The Resource SKU listing and the Retail Prices API pages are inputs.
module InstanceFinderAz {
  import opened Wrappers
  import opened Strings
  import opened Numbers
  import opened FixedPoint
  import opened Ordering

  /** `x or ""` on an optional string. */
  function OrEmpty(s: Option<string>): string {
    if s.Some? then s.value else ""
  }

  /** `a or b` on optional strings: b when a is None or empty. */
  function OrElse(a: Option<string>, b: Option<string>): Option<string> {
    if a.Some? && a.value != "" then a else b
  }

  // ------------------------------------------------------------ money

  lemma {:induction false} ScaledFour(x: real)
    ensures Scaled(x, 4) == x * 10000.0
  {
    assert Scaled(x, 2) == x * 100.0 by {
      assert Scaled(x, 1) == x * 10.0;
    }
    assert Scaled(x, 3) == x * 1000.0;
  }

  lemma {:induction false} UnitsFour(n: int)
    ensures Units(n, 4) == n as real / 10000.0
  {
    assert Units(n, 2) == n as real / 100.0 by {
      assert Units(n, 1) == n as real / 10.0;
    }
    assert Units(n, 3) == n as real / 1000.0;
  }

  /** str() of a Decimal quantized to 0.0001 ends in a point and four digits. */
  lemma {:induction false} FourPlacesShape(x: real)
    ensures var s := FixedToString(x, 4);
      |s| >= 6 && s[|s| - 5] == '.' && forall i :: |s| - 4 <= i < |s| ==> IsDigit(s[i])
  {
    var m := Magnitude(QuantizeHalfUp(x, 4));
    var w, f := WholeDigits(m, 4), FractionDigits(m, 4);
    assert FixedDigits(m, 4) == w + "." + f;
    var d := FixedDigits(m, 4);
    var s := FixedToString(x, 4);
    assert s == d || s == "-" + d;
    assert d[|d| - 5..] == "." + f;
    assert s[|s| - 5..] == d[|d| - 5..];
    assert forall i :: |s| - 4 <= i < |s| ==> s[i] == f[i - (|s| - 4)];
  }

  /** dec_to_str_money: None for None, else "$" and the value rounded ROUND_HALF_UP to four places. */
  function DecToStrMoney(d: Option<real>): Option<string> {
    match d
    case None => None
    case Some(v) => Some("$" + FixedToString(v, 4))
  }

  /**
   * The partner of DecToStrMoney: the text is "$", then a number with four
   * decimals that reads back as the value rounded half-up to 0.0001, within
   * 0.00005 of it.
   */
  lemma {:induction false} DecToStrMoneySpec(d: Option<real>)
    ensures DecToStrMoney(d).None? <==> d.None?
    ensures d.Some? ==> var s := DecToStrMoney(d).value; var n := s[1..];
      |s| >= 7 && s[0] == '$' && n[|n| - 5] == '.' && (forall i :: |n| - 4 <= i < |n| ==> IsDigit(n[i])) &&
      DecimalReading(n).Some? && DecimalReading(n).value == Units(QuantizeHalfUp(d.value, 4), 4) &&
      -0.00005 <= DecimalReading(n).value - d.value <= 0.00005
  {
    if d.Some? {
      var v := d.value;
      var s := DecToStrMoney(d).value;
      assert s[1..] == FixedToString(v, 4);
      FourPlacesShape(v);
      FixedToStringReading(v, 4);
      ScaledFour(v);
      UnitsFour(QuantizeHalfUp(v, 4));
    }
  }

  // ------------------------------------------------------------ labels

  /** `re.sub(r"[_\-]", " ", name)`: every underscore and hyphen becomes a space. */
  function SpaceSeparators(s: string): (r: string)
    ensures |r| == |s|
    ensures forall i :: 0 <= i < |s| ==> r[i] == if s[i] == '_' || s[i] == '-' then ' ' else s[i]
  {
    if s == [] then [] else [if s[0] == '_' || s[0] == '-' then ' ' else s[0]] + SpaceSeparators(s[1..])
  }

  /** to_title_label: separators to spaces, each double space (left to right) to one, then str.title(). */
  function ToTitleLabel(name: string): string {
    Title(ReplaceAll(SpaceSeparators(name), "  ", " "))
  }

  /** Every character of a replacement's result comes from the input or from the replacement text. */
  lemma {:induction false} ReplaceAllChars(s: string, pat: string, rep: string, c: char)
    requires |pat| > 0
    requires c in ReplaceAll(s, pat, rep)
    ensures c in s || c in rep
    decreases |s|
  {
    if |s| >= |pat| {
      if pat <= s {
        if c !in rep {
          ReplaceAllChars(s[|pat|..], pat, rep, c);
        }
      } else if c != s[0] {
        ReplaceAllChars(s[1..], pat, rep, c);
      }
    }
  }

  /** No underscore or hyphen is left in a title label. */
  lemma {:induction false} TitleLabelNoSeparators(name: string)
    ensures '_' !in ToTitleLabel(name) && '-' !in ToTitleLabel(name)
  {
    var spaced := ReplaceAll(SpaceSeparators(name), "  ", " ");
    forall c | c == '_' || c == '-'
      ensures c !in Title(spaced)
    {
      if c in spaced {
        ReplaceAllChars(SpaceSeparators(name), "  ", " ", c);
      }
      TitleKeepsOut(spaced, c);
    }
  }

  /** Title-casing brings in no non-letter that was not there. */
  lemma {:induction false} TitleKeepsOut(s: string, c: char)
    requires !IsLetter(c) && c !in s
    ensures c !in Title(s)
  {
    var r := TitleFrom(s, false);
    forall i | 0 <= i < |r|
      ensures r[i] != c
    {
      if r[i] == c {
        assert r[i] == (if (if i == 0 then false else IsLetter(s[i - 1])) then LowerChar(s[i]) else UpperChar(s[i]));
        CaseKeepsNonLetter(s[i], c);
      }
    }
  }

  /** Changing case maps a letter to a letter, so the only character that becomes a non-letter is itself. */
  lemma {:induction false} CaseKeepsNonLetter(x: char, c: char)
    requires !IsLetter(c) && (LowerChar(x) == c || UpperChar(x) == c)
    ensures x == c
  {
  }

  /** A name without separators or double spaces is only title-cased. */
  lemma {:induction false} TitleLabelPlain(name: string)
    requires '_' !in name && '-' !in name && !Contains(name, "  ")
    ensures ToTitleLabel(name) == Title(name)
  {
    assert SpaceSeparators(name) == name;
    ReplaceAllAbsent(name, "  ", " ");
  }

  // ---------------------------------------------------------- short size name

  /** short_size_name: "Standard_" removed, then every underscore made a space. */
  function ShortSizeName(sizeName: string): string {
    ReplaceAll(ReplaceAll(sizeName, "Standard_", ""), "_", " ")
  }

  /** No underscore is left, and "Standard_D4s_v5" becomes "D4s v5": the rest, underscores made spaces. */
  lemma {:induction false} ShortSizeNameSpec(rest: string)
    requires !Contains(rest, "Standard_")
    ensures var r := ShortSizeName("Standard_" + rest);
      |r| == |rest| && forall i :: 0 <= i < |rest| ==> r[i] == if rest[i] == '_' then ' ' else rest[i]
  {
    var s := "Standard_" + rest;
    assert "Standard_" <= s;
    assert s[9..] == rest;
    ReplaceAllAbsent(rest, "Standard_", "");
    assert ReplaceAll(s, "Standard_", "") == rest;
    ReplaceCharAt(rest, '_', ' ');
  }

  /** No short size name holds an underscore. */
  lemma {:induction false} ShortSizeNameNoUnderscore(sizeName: string)
    ensures '_' !in ShortSizeName(sizeName)
  {
    var t := ReplaceAll(sizeName, "Standard_", "");
    ReplaceCharAt(t, '_', ' ');
  }

  // ------------------------------------------------------------ families

  datatype FamilyError = MissingFamily

  /** A stripped part of FAMILY, kept when it is not empty. */
  function FamilyPart(part: string): Option<string> {
    if Trim(part) != "" then Some(Trim(part)) else None
  }

  /** read_families: an unset or empty FAMILY is fatal; otherwise the non-empty stripped comma-separated parts. */
  function ReadFamilies(family: Option<string>): Result<seq<string>, FamilyError> {
    if family.None? || family.value == "" then Err(MissingFamily)
    else Ok(FilterMap(Split(family.value, ','), FamilyPart))
  }

  /** The partner of ReadFamilies: each family read is a non-empty stripped part of FAMILY, and every such part is read. */
  lemma {:induction false} ReadFamiliesSpec(family: string, f: string)
    requires family != ""
    ensures ReadFamilies(Some(family)).Ok?
    ensures f in ReadFamilies(Some(family)).value <==>
      f != "" && exists i :: 0 <= i < |Split(family, ',')| && Trim(Split(family, ',')[i]) == f
    ensures f in ReadFamilies(Some(family)).value ==> Trim(f) == f && ',' !in f
  {
    var parts := Split(family, ',');
    FilterMapMember(parts, FamilyPart, f);
    if f in ReadFamilies(Some(family)).value {
      var i :| 0 <= i < |parts| && FamilyPart(parts[i]) == Some(f);
      TrimIdempotent(parts[i]);
      TrimInside(parts[i], ',');
    }
  }

  /** Stripping keeps a character out. */
  lemma {:induction false} TrimInside(s: string, c: char)
    requires c !in s
    ensures c !in Trim(s)
  {
  }

  /** The comparison key of a size name or token: lower case without underscores. */
  function Key(s: string): string {
    ReplaceAll(Lower(s), "_", "")
  }

  /** normalize_family_match_tokens: the stripped family and its underscore-free form, each also behind "Standard_". */
  function MatchTokens(family: string): set<string> {
    var f := Trim(family);
    var g := ReplaceAll(f, "_", "");
    {f, "Standard_" + f, g, "Standard_" + g}
  }

  /** size_matches_family: the size's key starts with the key of some token of some family. */
  predicate SizeMatchesFamily(sizeName: string, families: seq<string>) {
    exists i, tok :: 0 <= i < |families| && tok in MatchTokens(families[i]) && StartsWith(Key(sizeName), Key(tok))
  }

  /** Lower-casing does not create or remove underscores. */
  lemma {:induction false} LowerRemoveUnderscore(s: string)
    ensures Lower(ReplaceAll(s, "_", "")) == ReplaceAll(Lower(s), "_", "")
    decreases |s|
  {
    if |s| > 0 {
      LowerRemoveUnderscore(s[1..]);
      assert "_" <= s <==> s[0] == '_';
      assert "_" <= Lower(s) <==> s[0] == '_';
      assert Lower(s)[1..] == Lower(s[1..]);
      if s[0] == '_' {
        assert ReplaceAll(s, "_", "") == ReplaceAll(s[1..], "_", "");
        assert ReplaceAll(Lower(s), "_", "") == ReplaceAll(Lower(s)[1..], "_", "");
      } else {
        assert ReplaceAll(s, "_", "") == [s[0]] + ReplaceAll(s[1..], "_", "");
        assert Lower(ReplaceAll(s, "_", "")) == [LowerChar(s[0])] + Lower(ReplaceAll(s[1..], "_", ""));
        assert ReplaceAll(Lower(s), "_", "") == [Lower(s)[0]] + ReplaceAll(Lower(s)[1..], "_", "");
      }
    }
  }

  /** Dropping underscores first does not change the key. */
  lemma {:induction false} KeyOfUnderscoreFree(f: string)
    ensures Key(ReplaceAll(f, "_", "")) == Key(f)
  {
    LowerRemoveUnderscore(f);
    RemoveCharGone(Lower(f), '_');
    RemoveCharAbsent(ReplaceAll(Lower(f), "_", ""), '_');
  }

  lemma {:induction false} StandardKey()
    ensures Key("Standard_") == "standard"
  {
    LowerStandard();
    StandardWithoutUnderscore();
  }

  lemma {:induction false} LowerStandard()
    ensures Lower("Standard_") == "standard_"
  {
    var rest := "tandard_";
    assert "Standard_" == ['S'] + rest;
    LowerOfLower(rest);
    LowerConcat(['S'], rest);
  }

  lemma {:induction false} StandardWithoutUnderscore()
    ensures ReplaceAll("standard_", "_", "") == "standard"
  {
    assert "standard_" == "standard" + "_";
    RemoveCharConcat("standard", "_", '_');
    RemoveCharAbsent("standard", '_');
    assert ReplaceAll("_", "_", "") == "";
  }

  /** The key of a "Standard_" token is "standard" before the family's key. */
  lemma {:induction false} KeyOfStandard(f: string)
    ensures Key("Standard_" + f) == "standard" + Key(f)
  {
    LowerConcat("Standard_", f);
    RemoveCharConcat(Lower("Standard_"), Lower(f), '_');
    StandardKey();
  }

  /**
   * The partner of SizeMatchesFamily: of the four tokens only two keys
   * remain, so a size matches exactly when its key starts with the key of
   * a stripped family or with "standard" and that key.
   */
  lemma {:induction false} SizeMatchesFamilyIff(sizeName: string, families: seq<string>)
    ensures SizeMatchesFamily(sizeName, families) <==>
      exists i :: 0 <= i < |families| &&
        (StartsWith(Key(sizeName), Key(Trim(families[i]))) || StartsWith(Key(sizeName), "standard" + Key(Trim(families[i]))))
  {
    forall i | 0 <= i < |families|
      ensures (exists tok :: tok in MatchTokens(families[i]) && StartsWith(Key(sizeName), Key(tok))) <==>
        (StartsWith(Key(sizeName), Key(Trim(families[i]))) || StartsWith(Key(sizeName), "standard" + Key(Trim(families[i]))))
    {
      var f := Trim(families[i]);
      var g := ReplaceAll(f, "_", "");
      KeyOfUnderscoreFree(f);
      KeyOfStandard(f);
      KeyOfStandard(g);
      assert Key(f) in {Key(f)} && "Standard_" + f in MatchTokens(families[i]);
    }
  }

  // ------------------------------------------------------------ capabilities

  /** A SKU capability: its name and value, each possibly absent. */
  datatype Capability = Capability(name: Option<string>, value: Option<string>)

  predicate NameIs(c: Capability, key: string) {
    Lower(OrEmpty(c.name)) == Lower(key)
  }

  /** The position of the first capability named key (case-insensitively), or -1. */
  function CapabilityIndex(caps: seq<Capability>, key: string): (i: int)
    ensures -1 <= i < |caps|
    ensures i >= 0 ==> NameIs(caps[i], key) && forall j :: 0 <= j < i ==> !NameIs(caps[j], key)
    ensures i < 0 ==> forall j :: 0 <= j < |caps| ==> !NameIs(caps[j], key)
    decreases |caps|
  {
    if caps == [] then -1
    else if NameIs(caps[0], key) then 0
    else
      var k := CapabilityIndex(caps[1..], key);
      assert forall j :: 1 <= j < |caps| ==> caps[j] == caps[1..][j - 1];
      if k < 0 then -1 else k + 1
  }

  /** get_capability: the value of the first capability named key, None when there is none. */
  function GetCapability(caps: seq<Capability>, key: string): Option<string> {
    var i := CapabilityIndex(caps, key);
    if i < 0 then None else caps[i].value
  }

  /** The partner of GetCapability: the value is that of a capability with the name, and the first of them; None also when no capability has it. */
  lemma {:induction false} GetCapabilitySpec(caps: seq<Capability>, key: string)
    ensures (forall j :: 0 <= j < |caps| ==> !NameIs(caps[j], key)) ==> GetCapability(caps, key).None?
    ensures forall i :: 0 <= i < |caps| && NameIs(caps[i], key) && (forall j :: 0 <= j < i ==> !NameIs(caps[j], key)) ==>
      GetCapability(caps, key) == caps[i].value
  {
    var k := CapabilityIndex(caps, key);
    forall i | 0 <= i < |caps| && NameIs(caps[i], key) && (forall j :: 0 <= j < i ==> !NameIs(caps[j], key))
      ensures GetCapability(caps, key) == caps[i].value
    {
      assert k >= 0;
    }
  }

  /** The GPU details of an Azure SKU. */
  datatype AzGpu = AzGpu(enabled: bool, manufacturer: Option<string>, count: int, model: Option<string>, memory: Option<string>)

  /** `int(gpus) if gpus is not None else 0`, an unparseable count giving 0. */
  function GpuCount(gpus: Option<string>): int {
    if gpus.None? then 0
    else match PyInt(gpus.value)
      case None => 0
      case Some(n) => n
  }

  /** parse_gpu_info_from_sku. */
  function ParseGpuInfo(caps: seq<Capability>): AzGpu {
    var count := GpuCount(GetCapability(caps, "GPUs"));
    var model := OrElse(GetCapability(caps, "GpuName"), GetCapability(caps, "GpuModel"));
    var mem := OrElse(GetCapability(caps, "GpuMemoryGb"), GetCapability(caps, "GPU_Memory_GB"));
    AzGpu(count > 0, if count == 0 then None else Some("NVIDIA"), count, model,
          if mem.Some? && mem.value != "" then Some(mem.value + " GiB") else None)
  }

  /**
   * The partner of ParseGpuInfo: the GPU is enabled exactly for a positive
   * count; the manufacturer is NVIDIA exactly for a non-zero count (so a
   * negative count is disabled yet names NVIDIA); a missing or unparseable
   * count is 0; the memory is shown in GiB exactly when it is non-empty.
   */
  lemma {:induction false} ParseGpuInfoSpec(caps: seq<Capability>)
    ensures var g := ParseGpuInfo(caps);
      (g.enabled <==> g.count > 0) &&
      (g.manufacturer.Some? <==> g.count != 0) && (g.manufacturer.Some? ==> g.manufacturer.value == "NVIDIA")
    ensures var gpus := GetCapability(caps, "GPUs");
      (gpus.None? || PyInt(gpus.value).None?) ==> ParseGpuInfo(caps).count == 0 && !ParseGpuInfo(caps).enabled
    ensures var gpus := GetCapability(caps, "GPUs");
      gpus.Some? && PyInt(gpus.value).Some? ==> ParseGpuInfo(caps).count == PyInt(gpus.value).value
    ensures var mem := OrElse(GetCapability(caps, "GpuMemoryGb"), GetCapability(caps, "GPU_Memory_GB"));
      var m := ParseGpuInfo(caps).memory;
      (m.Some? <==> mem.Some? && mem.value != "") && (m.Some? ==> m.value == mem.value + " GiB")
  {
  }

  // ------------------------------------------------------------ zones

  /** A SKU location entry: its location and its zones. */
  datatype LocationInfo = LocationInfo(location: Option<string>, zones: seq<string>)

  predicate InRegion(li: LocationInfo, region: string) {
    Lower(OrEmpty(li.location)) == Lower(region)
  }

  /** The zones appended by the loop: those of every entry in the region, in order. */
  function CollectedZones(locs: seq<LocationInfo>, region: string): seq<string>
    decreases |locs|
  {
    if locs == [] then []
    else
      var last := locs[|locs| - 1];
      CollectedZones(locs[..|locs| - 1], region) + (if InRegion(last, region) then last.zones else [])
  }

  /** Every element lies above the ones before it: a sorted list without duplicates. */
  predicate StrictlySorted(s: seq<string>) {
    forall i, j :: 0 <= i < j < |s| ==> StrLe(s[i], s[j]) && s[i] != s[j]
  }

  /** Inserting into a strictly sorted list, unless the element is already there. */
  function InsertUnique(s: seq<string>, z: string): (r: seq<string>)
    decreases |s|
  {
    if s == [] then [z]
    else if z == s[0] then s
    else if StrLe(z, s[0]) then [z] + s
    else [s[0]] + InsertUnique(s[1..], z)
  }

  lemma {:induction false} InsertUniqueSpec(s: seq<string>, z: string)
    requires StrictlySorted(s)
    ensures StrictlySorted(InsertUnique(s, z))
    ensures forall y :: y in InsertUnique(s, z) <==> y in s || y == z
    decreases |s|
  {
    if s != [] && z != s[0] {
      if StrLe(z, s[0]) {
        forall j | 0 <= j < |s|
          ensures StrLe(z, s[j]) && z != s[j]
        {
          if j > 0 {
            StrLeTransitive(z, s[0], s[j]);
            if z == s[j] {
              StrLeAntisymmetric(s[0], s[j]);
            }
          }
        }
        var r := [z] + s;
        assert forall i :: 0 < i < |r| ==> r[i] == s[i - 1];
      } else {
        StrLeTotal(z, s[0]);
        InsertUniqueSpec(s[1..], z);
        var t := InsertUnique(s[1..], z);
        var r := [s[0]] + t;
        assert forall y :: y in s <==> y == s[0] || y in s[1..];
        forall j | 0 <= j < |t|
          ensures StrLe(s[0], t[j]) && s[0] != t[j]
        {
          assert t[j] in s[1..] || t[j] == z;
          if t[j] in s[1..] {
            var k :| 0 <= k < |s[1..]| && s[1..][k] == t[j];
            assert s[k + 1] == t[j];
          }
        }
        assert forall i :: 0 < i < |r| ==> r[i] == t[i - 1];
      }
    }
  }

  /** `sorted({z for z in zones})`: the distinct zones in ascending order. */
  function SortedSet(zones: seq<string>): seq<string>
    decreases |zones|
  {
    if zones == [] then [] else InsertUnique(SortedSet(zones[..|zones| - 1]), zones[|zones| - 1])
  }

  /** The partner of SortedSet: it is strictly sorted and holds exactly the zones given. */
  lemma {:induction false} SortedSetSpec(zones: seq<string>)
    ensures StrictlySorted(SortedSet(zones))
    ensures forall z :: z in SortedSet(zones) <==> z in zones
    decreases |zones|
  {
    if zones != [] {
      var init := zones[..|zones| - 1];
      SortedSetSpec(init);
      InsertUniqueSpec(SortedSet(init), zones[|zones| - 1]);
      assert zones == init + [zones[|zones| - 1]];
    }
  }

  /** sku_supported_zones: the zones of the SKU's locations in the region, appended in turn, then sorted without duplicates. */
  method SkuSupportedZones(locs: seq<LocationInfo>, region: string) returns (zs: seq<string>)
    ensures zs == SortedSet(CollectedZones(locs, region))
  {
    var zones: seq<string> := [];
    for i := 0 to |locs|
      invariant zones == CollectedZones(locs[..i], region)
    {
      assert locs[..i + 1][..i] == locs[..i];
      var li := locs[i];
      if Lower(OrEmpty(li.location)) != Lower(region) {
        continue;
      }
      ghost var before := zones;
      for k := 0 to |li.zones|
        invariant zones == before + li.zones[..k]
      {
        zones := zones + [li.zones[k]];
        assert li.zones[..k + 1] == li.zones[..k] + [li.zones[k]];
      }
      assert li.zones[..|li.zones|] == li.zones;
    }
    assert locs[..|locs|] == locs;
    zs := SortedSet(zones);
  }

  /** The partner of the supported zones: sorted, without duplicates, and exactly the zones of the entries in the region, compared case-insensitively. */
  lemma {:induction false} SupportedZonesSpec(locs: seq<LocationInfo>, region: string, z: string)
    ensures StrictlySorted(SortedSet(CollectedZones(locs, region)))
    ensures z in SortedSet(CollectedZones(locs, region)) <==>
      exists i :: 0 <= i < |locs| && InRegion(locs[i], region) && z in locs[i].zones
  {
    SortedSetSpec(CollectedZones(locs, region));
    CollectedZonesMember(locs, region, z);
  }

  lemma {:induction false} CollectedZonesMember(locs: seq<LocationInfo>, region: string, z: string)
    ensures z in CollectedZones(locs, region) <==> exists i :: 0 <= i < |locs| && InRegion(locs[i], region) && z in locs[i].zones
    decreases |locs|
  {
    if locs != [] {
      var init := locs[..|locs| - 1];
      CollectedZonesMember(init, region, z);
      assert forall i :: 0 <= i < |init| ==> init[i] == locs[i];
    }
  }

  // ------------------------------------------------------------ retail price

  /** A Retail Prices API item: the fields the filter reads, each possibly absent, and unitPrice as a decimal. */
  datatype RetailItem = RetailItem(serviceName: Option<string>, productName: Option<string>, armRegionName: Option<string>,
                                   meterName: Option<string>, skuName: Option<string>, unitOfMeasure: Option<string>,
                                   unitPrice: Option<real>)

  const HourUnits: set<string> := {"1 Hour", "Hour", "hours", "1 hour"}

  /**
   * The checks of the item loop: a Virtual Machines item, not Windows, in
   * the region; a spot meter exactly for the spot lookup (no spot or low
   * priority meter otherwise); the short size name in its skuName; an
   * hourly unit; a unit price.
   */
  predicate Accepted(item: RetailItem, region: string, short: string, spot: bool) {
    var meter := Lower(OrEmpty(item.meterName));
    item.serviceName == Some("Virtual Machines") &&
    !Contains(Lower(OrEmpty(item.productName)), "windows") &&
    Lower(OrEmpty(item.armRegionName)) == Lower(region) &&
    (spot ==> Contains(meter, "spot")) &&
    (!spot ==> !Contains(meter, "spot") && !Contains(meter, "low priority")) &&
    Contains(Lower(OrEmpty(item.skuName)), Lower(short)) &&
    item.unitOfMeasure.Some? && item.unitOfMeasure.value in HourUnits &&
    item.unitPrice.Some?
  }

  /** The best price after the items: a strictly lower accepted price replaces it. */
  function MinPrice(items: seq<RetailItem>, region: string, short: string, spot: bool): Option<real>
    decreases |items|
  {
    if items == [] then None
    else
      var best := MinPrice(items[..|items| - 1], region, short, spot);
      var item := items[|items| - 1];
      if !Accepted(item, region, short, spot) then best
      else if best.None? || item.unitPrice.value < best.value then item.unitPrice
      else best
  }

  /** The partner of MinPrice: None exactly when no item passes the checks. */
  lemma {:induction false} MinPriceNone(items: seq<RetailItem>, region: string, short: string, spot: bool)
    ensures MinPrice(items, region, short, spot).None? <==> forall i :: 0 <= i < |items| ==> !Accepted(items[i], region, short, spot)
    decreases |items|
  {
    if items != [] {
      var init := items[..|items| - 1];
      MinPriceNone(init, region, short, spot);
      assert forall i :: 0 <= i < |init| ==> init[i] == items[i];
    }
  }

  /** No item that passes the checks is cheaper than the price found. */
  lemma {:induction false} MinPriceLeast(items: seq<RetailItem>, region: string, short: string, spot: bool, i: int)
    requires MinPrice(items, region, short, spot).Some?
    requires 0 <= i < |items| && Accepted(items[i], region, short, spot)
    ensures MinPrice(items, region, short, spot).value <= items[i].unitPrice.value
    decreases |items|
  {
    var init := items[..|items| - 1];
    var b := MinPrice(init, region, short, spot);
    if i < |init| {
      assert init[i] == items[i];
      if b.None? {
        MinPriceNone(init, region, short, spot);
      } else {
        MinPriceLeast(init, region, short, spot, i);
      }
    }
  }

  /** A price found is the unit price of an item that passes the checks. */
  lemma {:induction false} MinPriceFound(items: seq<RetailItem>, region: string, short: string, spot: bool)
    requires MinPrice(items, region, short, spot).Some?
    ensures exists i :: (0 <= i < |items| && Accepted(items[i], region, short, spot) &&
                         items[i].unitPrice == MinPrice(items, region, short, spot))
    decreases |items|
  {
    var init := items[..|items| - 1];
    var last := items[|items| - 1];
    if MinPrice(items, region, short, spot) == MinPrice(init, region, short, spot) {
      MinPriceFound(init, region, short, spot);
      var i :| 0 <= i < |init| && Accepted(init[i], region, short, spot) && init[i].unitPrice == MinPrice(init, region, short, spot);
      assert items[i] == init[i];
    } else {
      assert Accepted(last, region, short, spot) && last.unitPrice == MinPrice(items, region, short, spot);
    }
  }

  /** The item loop of retail_price_for_size, over the items of the pages. */
  method RetailPriceForSize(items: seq<RetailItem>, region: string, sizeName: string, spot: bool) returns (best: Option<real>)
    ensures best == MinPrice(items, region, ShortSizeName(sizeName), spot)
  {
    var short := ShortSizeName(sizeName);
    best := None;
    for i := 0 to |items|
      invariant best == MinPrice(items[..i], region, short, spot)
    {
      assert items[..i + 1][..i] == items[..i];
      var item := items[i];
      if item.serviceName != Some("Virtual Machines") {
        continue;
      }
      if Contains(Lower(OrEmpty(item.productName)), "windows") {
        continue;
      }
      if Lower(OrEmpty(item.armRegionName)) != Lower(region) {
        continue;
      }
      if spot && !Contains(Lower(OrEmpty(item.meterName)), "spot") {
        continue;
      }
      if !spot && (Contains(Lower(OrEmpty(item.meterName)), "spot") || Contains(Lower(OrEmpty(item.meterName)), "low priority")) {
        continue;
      }
      if !Contains(Lower(OrEmpty(item.skuName)), Lower(short)) {
        continue;
      }
      if item.unitOfMeasure.None? || item.unitOfMeasure.value !in HourUnits {
        continue;
      }
      if item.unitPrice.None? {
        continue;
      }
      var dec := item.unitPrice.value;
      if best.None? || dec < best.value {
        best := Some(dec);
      }
    }
    assert items[..|items|] == items;
  }
}
