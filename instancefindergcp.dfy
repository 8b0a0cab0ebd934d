// instance-finder/gcp.py: the formatting helpers, the family filter, the
// A2 GPU heuristic and the price estimate from the Cloud Billing catalog.
// The catalog is a parameter: the pages of SKUs that the services.skus
// listing returns, the same pages for the on-demand and the spot lookup.
module InstanceFinderGcp {
  import opened Wrappers
  import opened Strings
  import opened Numbers
  import opened FixedPoint
  import Az = InstanceFinderAz

  // ------------------------------------------------------------ formatting

  /** dec_to_str_money here is the same function as in az.py. */
  function DecToStrMoney(d: Option<real>): Option<string> {
    Az.DecToStrMoney(d)
  }

  /** mb_to_gib_str: None for None, else mb/1024 rounded ROUND_HALF_UP to 0.01 and " GiB". */
  function MbToGibStr(mb: Option<int>): Option<string> {
    match mb
    case None => None
    case Some(m) => Some(FixedToString(m as real / 1024.0, 2) + " GiB")
  }

  /**
   * The partner of MbToGibStr: the text is a number with two decimals and
   * " GiB"; the number reads back as mb/1024 rounded half-up to 0.01, so
   * within 0.005 of it.
   */
  lemma {:induction false} MbToGibStrSpec(mb: Option<int>)
    ensures MbToGibStr(mb).None? <==> mb.None?
    ensures mb.Some? ==> var s := MbToGibStr(mb).value; var n := s[..|s| - 4];
      |s| >= 8 && s[|s| - 4..] == " GiB" &&
      n[|n| - 3] == '.' && IsDigit(n[|n| - 2]) && IsDigit(n[|n| - 1]) &&
      DecimalReading(n).Some? && DecimalReading(n).value == Units(QuantizeHalfUp(mb.value as real / 1024.0, 2), 2) &&
      -0.005 <= DecimalReading(n).value - mb.value as real / 1024.0 <= 0.005
  {
    if mb.Some? {
      var g := mb.value as real / 1024.0;
      var s := MbToGibStr(mb).value;
      assert s[..|s| - 4] == FixedToString(g, 2);
      CentsShape(g);
      FixedToStringReading(g, 2);
      CentsNear(g);
    }
  }

  // ------------------------------------------------------------ families

  /** A part of FAMILY, stripped and lower-cased, kept when the stripped part is not empty. */
  function FamilyPart(part: string): Option<string> {
    if Trim(part) != "" then Some(Lower(Trim(part))) else None
  }

  /** get_families: an unset or empty FAMILY is fatal; otherwise the non-empty parts, stripped and lower-cased. */
  function GetFamilies(family: Option<string>): Result<seq<string>, Az.FamilyError> {
    if family.None? || family.value == "" then Err(Az.MissingFamily)
    else Ok(FilterMap(Split(family.value, ','), FamilyPart))
  }

  /** An unset or empty FAMILY is the only failure of GetFamilies. */
  lemma {:induction false} GetFamiliesErrorIff(family: Option<string>)
    ensures GetFamilies(family).Err? <==> family.None? || family.value == ""
  {
  }

  /** The partner of GetFamilies: each family is the lower case of a non-empty stripped part, and every such part gives one. */
  lemma {:induction false} GetFamiliesSpec(family: string, f: string)
    requires family != ""
    ensures GetFamilies(Some(family)).Ok?
    ensures f in GetFamilies(Some(family)).value <==>
      exists i :: 0 <= i < |Split(family, ',')| && FamilyPart(Split(family, ',')[i]) == Some(f)
  {
    var parts := Split(family, ',');
    FilterMapMember(parts, FamilyPart, f);
    if f in GetFamilies(Some(family)).value {
      var i :| 0 <= i < |parts| && FamilyPart(parts[i]) == Some(f);
      assert parts[i] == Split(family, ',')[i];
    }
  }

  /** Every family read is non-empty, lower case and free of commas. */
  lemma {:induction false} GetFamiliesShape(family: string, f: string)
    requires family != "" && f in GetFamilies(Some(family)).value
    ensures f != "" && ',' !in f && Lower(f) == f
  {
    var parts := Split(family, ',');
    FilterMapMember(parts, FamilyPart, f);
    var i :| 0 <= i < |parts| && FamilyPart(parts[i]) == Some(f);
    assert ',' !in parts[i];
    FamilyPartSpec(parts[i]);
  }

  /** A kept part is non-empty, lower case, and free of any character the part lacks. */
  lemma {:induction false} FamilyPartSpec(part: string)
    requires ',' !in part && FamilyPart(part).Some?
    ensures var f := FamilyPart(part).value; f != "" && ',' !in f && Lower(f) == f
  {
    var t := Trim(part);
    Az.TrimInside(part, ',');
    LowerIdempotent(t);
    assert forall j :: 0 <= j < |t| ==> Lower(t)[j] == LowerChar(t[j]);
  }

  /** filter_by_family: the lower-case name starts with some family followed by "-", or with some family. */
  predicate FilterByFamily(name: string, families: seq<string>) {
    exists i :: 0 <= i < |families| &&
      (StartsWith(Lower(name), families[i] + "-") || StartsWith(Lower(name), families[i]))
  }

  /** The "-" alternative adds nothing: a name passes exactly when its lower case starts with some family. */
  lemma {:induction false} FilterByFamilyIff(name: string, families: seq<string>)
    ensures FilterByFamily(name, families) <==> exists i :: 0 <= i < |families| && StartsWith(Lower(name), families[i])
  {
    forall i | 0 <= i < |families| && StartsWith(Lower(name), families[i] + "-")
      ensures StartsWith(Lower(name), families[i])
    {
      assert families[i] <= families[i] + "-";
    }
  }

  // ------------------------------------------------------------ GPU

  datatype GcpGpu = GcpGpu(enabled: bool, manufacturer: Option<string>, count: nat, model: Option<string>,
                           memory: Option<string>)

  /** The length of the run of digits of s starting at i. */
  function DigitRun(s: string, i: nat): (n: nat)
    requires i <= |s|
    ensures i + n <= |s|
    ensures forall j :: i <= j < i + n ==> IsDigit(s[j])
    ensures i + n < |s| ==> !IsDigit(s[i + n])
    decreases |s| - i
  {
    if i < |s| && IsDigit(s[i]) then 1 + DigitRun(s, i + 1) else 0
  }

  /**
   * The pattern `-(\d+)g($|-)` matches at p: a hyphen, digits, "g", then the
   * end of the name or a hyphen. Names are taken to be newline-free, so `$`
   * matching just before a final newline does not arise. The digit run has
   * to be the whole run, since a shorter one is followed by a digit rather
   * than "g".
   */
  predicate SuffixAt(s: string, p: nat) {
    p < |s| && s[p] == '-' &&
    var n := DigitRun(s, p + 1);
    n > 0 && p + 1 + n < |s| && s[p + 1 + n] == 'g' && (p + 2 + n == |s| || s[p + 2 + n] == '-')
  }

  /** re.search: the leftmost position from p on where the pattern matches, or -1. */
  function FirstSuffix(s: string, p: nat): (r: int)
    requires p <= |s|
    ensures r == -1 || (p <= r < |s| && SuffixAt(s, r))
    ensures r == -1 ==> forall q :: p <= q < |s| ==> !SuffixAt(s, q)
    ensures r >= 0 ==> forall q :: p <= q < r ==> !SuffixAt(s, q)
    decreases |s| - p
  {
    if p == |s| then -1 else if SuffixAt(s, p) then p else FirstSuffix(s, p + 1)
  }

  /** The digits of the match at p. */
  function SuffixDigits(s: string, p: nat): string
    requires p < |s|
  {
    s[p + 1..p + 1 + DigitRun(s, p + 1)]
  }

  /** `int(m.group(1)) if m else 0`. */
  function SuffixCount(s: string): nat {
    var p := FirstSuffix(s, 0);
    if p < 0 then 0 else DigitsValue(SuffixDigits(s, p))
  }

  /** extract_gpu_info: an A2 machine type has as many GPUs as its "-<N>g" suffix says; any other has none. */
  function ExtractGpuInfo(name: string): GcpGpu {
    var n := Lower(name);
    if StartsWith(n, "a2-") then
      var count := SuffixCount(n);
      var enabled := count > 0;
      GcpGpu(enabled, if enabled then Some("NVIDIA") else None, if enabled then count else 0, None, None)
    else GcpGpu(false, None, 0, None, None)
  }

  /**
   * The partner of ExtractGpuInfo: enabled exactly for a positive count, and
   * then made by NVIDIA; model and memory are never known; only A2 names can
   * be enabled, and then the count is the value of the digits of the
   * leftmost "-<N>g" suffix of the lower-case name; an A2 name without such
   * a suffix has no GPU.
   */
  lemma {:induction false} ExtractGpuInfoSpec(name: string)
    ensures var g := ExtractGpuInfo(name);
      (g.enabled <==> g.count > 0) && (g.manufacturer.Some? <==> g.enabled) &&
      (g.manufacturer.Some? ==> g.manufacturer.value == "NVIDIA") && g.model.None? && g.memory.None?
    ensures !StartsWith(Lower(name), "a2-") ==> ExtractGpuInfo(name) == GcpGpu(false, None, 0, None, None)
    ensures StartsWith(Lower(name), "a2-") && (forall q :: 0 <= q < |Lower(name)| ==> !SuffixAt(Lower(name), q)) ==>
      !ExtractGpuInfo(name).enabled
    ensures ExtractGpuInfo(name).enabled ==>
      StartsWith(Lower(name), "a2-") &&
      exists p :: 0 <= p < |Lower(name)| && SuffixAt(Lower(name), p) &&
        (forall q :: 0 <= q < p ==> !SuffixAt(Lower(name), q)) &&
        ExtractGpuInfo(name).count == DigitsValue(SuffixDigits(Lower(name), p))
  {
    var n := Lower(name);
    if StartsWith(n, "a2-") && ExtractGpuInfo(name).enabled {
      var p := FirstSuffix(n, 0);
      assert p >= 0;
    }
  }

  // ------------------------------------------------------------ catalog SKUs

  /** The first tier's unitPrice of a pricing entry, absent fields being 0 as the lookups default them. */
  datatype Tier = Tier(units: int, nanos: int)

  /** A pricingInfo entry: its pricingExpression's tieredRates, empty when absent. */
  datatype PricingInfo = PricingInfo(tiers: seq<Tier>)

  /** A catalog SKU: description and category.usageType ("" when absent) and its pricing entries. */
  datatype BillingSku = BillingSku(description: string, usageType: string, pricingInfo: seq<PricingInfo>)

  datatype Meter = Core | Ram

  /** _unit_price_to_decimal: units plus nanos / 10^9 of the first tier, None without tiers. */
  function UnitPriceToDecimal(pi: PricingInfo): Option<real> {
    if pi.tiers == [] then None
    else Some(pi.tiers[0].units as real + pi.tiers[0].nanos as real / 1000000000.0)
  }

  /**
   * The partner of UnitPriceToDecimal: None exactly without tiers; else the
   * price is exact to the nano, only the first tier counts, and with nanos
   * in [0, 10^9) the units are the whole part.
   */
  lemma {:induction false} UnitPriceSpec(pi: PricingInfo)
    ensures UnitPriceToDecimal(pi).None? <==> pi.tiers == []
    ensures pi.tiers != [] ==> var t := pi.tiers[0]; var v := UnitPriceToDecimal(pi).value;
      v * 1000000000.0 == (t.units * 1000000000 + t.nanos) as real &&
      UnitPriceToDecimal(PricingInfo(pi.tiers[..1])) == UnitPriceToDecimal(pi) &&
      (0 <= t.nanos < 1000000000 ==> v.Floor == t.units)
  {
  }

  /** _usage_type_ok: spot accepts preemptible or spot, on-demand accepts ondemand, in any case. */
  predicate UsageTypeOk(sku: BillingSku, wantSpot: bool) {
    if wantSpot then Lower(sku.usageType) in {"preemptible", "spot"} else Lower(sku.usageType) == "ondemand"
  }

  /** A SKU is never taken for both kinds of price. */
  lemma {:induction false} UsageTypesDisjoint(sku: BillingSku)
    ensures !(UsageTypeOk(sku, true) && UsageTypeOk(sku, false))
    ensures UsageTypeOk(sku, true) <==> Lower(sku.usageType) == "preemptible" || Lower(sku.usageType) == "spot"
  {
  }

  /** The keywords that make a description a vCPU meter. */
  predicate CoreWords(d: string) {
    Contains(d, "instance core") || Contains(d, "vcpu") || Contains(d, "core running")
  }

  /** _is_core_or_ram: the core keywords win over the RAM ones. */
  function IsCoreOrRam(sku: BillingSku): Option<Meter> {
    var d := Lower(sku.description);
    if CoreWords(d) then Some(Core)
    else if Contains(d, "ram") || Contains(d, "memory") then Some(Ram)
    else None
  }

  /**
   * The partner of IsCoreOrRam: "core" whenever a core keyword occurs, even
   * beside a RAM keyword; "ram" exactly when only RAM keywords occur; the
   * test ignores case.
   */
  lemma {:induction false} IsCoreOrRamSpec(sku: BillingSku)
    ensures var d := Lower(sku.description);
      (IsCoreOrRam(sku) == Some(Core) <==> CoreWords(d)) &&
      (IsCoreOrRam(sku) == Some(Ram) <==> !CoreWords(d) && (Contains(d, "ram") || Contains(d, "memory"))) &&
      (IsCoreOrRam(sku).None? <==> !CoreWords(d) && !Contains(d, "ram") && !Contains(d, "memory"))
    ensures IsCoreOrRam(BillingSku(Lower(sku.description), sku.usageType, sku.pricingInfo)) == IsCoreOrRam(sku)
  {
    LowerIdempotent(sku.description);
  }

  /** FAMILY_SKU_HINTS. */
  const FamilySkuHints: map<string, seq<string>> := map[
    "e2" := ["E2"], "n1" := ["N1"], "n2" := ["N2"], "n2d" := ["N2D"], "c2" := ["C2"], "c2d" := ["C2D"],
    "c3" := ["C3"], "c3d" := ["C3D"], "t2d" := ["Tau T2D", "T2D"], "a2" := ["A2"]]

  /** The hints of a lower-case family: its entry, else the family upper-cased. */
  function Hints(fam: string): seq<string> {
    if fam in FamilySkuHints then FamilySkuHints[fam] else [Upper(fam)]
  }

  /** _matches_family: some hint of the family occurs in the description, ignoring case. */
  predicate MatchesFamily(desc: string, fam: string) {
    var h := Hints(Lower(fam));
    exists i :: 0 <= i < |h| && Contains(Lower(desc), Lower(h[i]))
  }

  /** Upper-casing a lower-case string and lowering it again gives it back. */
  lemma {:induction false} LowerUpperLower(s: string)
    ensures Lower(Upper(Lower(s))) == Lower(s)
  {
    var l := Lower(s);
    assert forall i :: 0 <= i < |l| ==> LowerChar(UpperChar(l[i])) == l[i];
  }

  /** A family without an entry matches the descriptions that contain it, ignoring case. */
  lemma {:induction false} MatchesUnknownFamily(desc: string, fam: string)
    requires Lower(fam) !in FamilySkuHints
    ensures MatchesFamily(desc, fam) <==> Contains(Lower(desc), Lower(fam))
  {
    LowerUpperLower(fam);
    var h := Hints(Lower(fam));
    assert h == [Upper(Lower(fam))];
    assert Lower(h[0]) == Lower(fam);
    if Contains(Lower(desc), Lower(fam)) {
      assert 0 < |h| && Contains(Lower(desc), Lower(h[0]));
    }
  }

  /** The t2d entry's first hint is redundant: its second occurs in it. */
  lemma {:induction false} MatchesT2d(desc: string)
    ensures MatchesFamily(desc, "t2d") <==> Contains(Lower(desc), "t2d")
  {
    assert Lower("t2d") == "t2d";
    assert Hints("t2d") == ["Tau T2D", "T2D"];
    assert Lower("Tau T2D") == "tau t2d";
    assert Lower("T2D") == "t2d";
    if Contains(Lower(desc), "tau t2d") {
      var d := Lower(desc);
      var i := ContainsWitness(d, "tau t2d");
      assert d[i..i + 7] == "tau t2d";
      assert d[i + 4..i + 7] == d[i..i + 7][4..];
      assert "tau t2d"[4..] == "t2d";
      OccursContains(d, "t2d", i + 4);
    }
    if Contains(Lower(desc), "t2d") {
      assert Contains(Lower(desc), Lower(Hints("t2d")[1]));
    }
  }

  /** A hint is a substring test, so an N2D description also matches the n2 family. */
  lemma {:induction false} N2MatchesN2d(desc: string)
    requires Contains(Lower(desc), "n2d")
    ensures MatchesFamily(desc, "n2")
  {
    assert Lower("n2") == "n2";
    assert Hints("n2") == ["N2"];
    assert Lower("N2") == "n2";
    var i := ContainsWitness(Lower(desc), "n2d");
    var d := Lower(desc);
    assert d[i..i + 3] == "n2d";
    assert d[i..i + 2] == d[i..i + 3][..2];
    assert "n2d"[..2] == "n2";
    OccursContains(d, "n2", i);
    assert Contains(d, Lower(Hints("n2")[0]));
  }

  // ------------------------------------------------------------ core and RAM prices

  /** A SKU the scan takes for meter m: the usage type, the meter kind and the family all fit. */
  predicate Eligible(sku: BillingSku, fam: string, wantSpot: bool, m: Meter) {
    UsageTypeOk(sku, wantSpot) && IsCoreOrRam(sku) == Some(m) && MatchesFamily(sku.description, fam)
  }

  /** The price of the first pricing entry that has one. */
  function FirstUnitPrice(pis: seq<PricingInfo>): Option<real>
    decreases |pis|
  {
    if pis == [] then None else FirstSome(UnitPriceToDecimal(pis[0]), FirstUnitPrice(pis[1..]))
  }

  /** The price for meter m: that of the first eligible SKU with a priced entry. */
  function FirstMeterPrice(skus: seq<BillingSku>, fam: string, wantSpot: bool, m: Meter): Option<real>
    decreases |skus|
  {
    if skus == [] then None
    else FirstSome(if Eligible(skus[0], fam, wantSpot, m) then FirstUnitPrice(skus[0].pricingInfo) else None,
                   FirstMeterPrice(skus[1..], fam, wantSpot, m))
  }

  /** What fetch_family_core_ram_prices returns for the catalog's pages. */
  function CoreRamPrices(pages: seq<seq<BillingSku>>, fam: string, wantSpot: bool): (Option<real>, Option<real>) {
    var all := Flatten(pages);
    (FirstMeterPrice(all, fam, wantSpot, Core), FirstMeterPrice(all, fam, wantSpot, Ram))
  }

  lemma {:induction false} FirstUnitPriceConcat(a: seq<PricingInfo>, b: seq<PricingInfo>)
    ensures FirstUnitPrice(a + b) == FirstSome(FirstUnitPrice(a), FirstUnitPrice(b))
    decreases |a|
  {
    if a != [] {
      assert (a + b)[1..] == a[1..] + b;
      assert (a + b)[0] == a[0];
      FirstUnitPriceConcat(a[1..], b);
    } else {
      assert a + b == b;
    }
  }

  lemma {:induction false} FirstMeterPriceConcat(a: seq<BillingSku>, b: seq<BillingSku>, fam: string, wantSpot: bool, m: Meter)
    ensures FirstMeterPrice(a + b, fam, wantSpot, m) ==
      FirstSome(FirstMeterPrice(a, fam, wantSpot, m), FirstMeterPrice(b, fam, wantSpot, m))
    decreases |a|
  {
    if a != [] {
      assert (a + b)[1..] == a[1..] + b;
      assert (a + b)[0] == a[0];
      FirstMeterPriceConcat(a[1..], b, fam, wantSpot, m);
    } else {
      assert a + b == b;
    }
  }

  /** The partner of FirstUnitPrice: the price of the first entry with tiers, None when no entry has any. */
  lemma {:induction false} FirstUnitPriceSpec(pis: seq<PricingInfo>)
    ensures FirstUnitPrice(pis).None? <==> forall k :: 0 <= k < |pis| ==> pis[k].tiers == []
    ensures FirstUnitPrice(pis).Some? ==>
      exists k :: 0 <= k < |pis| && UnitPriceToDecimal(pis[k]) == FirstUnitPrice(pis) &&
        forall j :: 0 <= j < k ==> pis[j].tiers == []
    decreases |pis|
  {
    if pis != [] {
      FirstUnitPriceSpec(pis[1..]);
      assert forall k :: 1 <= k < |pis| ==> pis[k] == pis[1..][k - 1];
      if UnitPriceToDecimal(pis[0]).None? && FirstUnitPrice(pis).Some? {
        var k :| 0 <= k < |pis[1..]| && UnitPriceToDecimal(pis[1..][k]) == FirstUnitPrice(pis[1..]) &&
          forall j :: 0 <= j < k ==> pis[1..][j].tiers == [];
        assert UnitPriceToDecimal(pis[k + 1]) == FirstUnitPrice(pis);
      }
    }
  }

  /** A SKU that the scan can price for meter m. */
  predicate Priced(sku: BillingSku, fam: string, wantSpot: bool, m: Meter) {
    Eligible(sku, fam, wantSpot, m) && FirstUnitPrice(sku.pricingInfo).Some?
  }

  /** The partner of FirstMeterPrice: None exactly when no SKU can be priced for the meter. */
  lemma {:induction false} FirstMeterPriceNone(skus: seq<BillingSku>, fam: string, wantSpot: bool, m: Meter)
    ensures FirstMeterPrice(skus, fam, wantSpot, m).None? <==> forall i :: 0 <= i < |skus| ==> !Priced(skus[i], fam, wantSpot, m)
    decreases |skus|
  {
    if skus != [] {
      var rest := skus[1..];
      FirstMeterPriceNone(rest, fam, wantSpot, m);
      assert forall k :: 1 <= k < |skus| ==> skus[k] == rest[k - 1];
    }
  }

  /** A price found is that of the first SKU that can be priced for the meter. */
  lemma {:induction false} FirstMeterPriceFirst(skus: seq<BillingSku>, fam: string, wantSpot: bool, m: Meter) returns (i: nat)
    requires FirstMeterPrice(skus, fam, wantSpot, m).Some?
    ensures i < |skus| && Priced(skus[i], fam, wantSpot, m)
    ensures FirstUnitPrice(skus[i].pricingInfo) == FirstMeterPrice(skus, fam, wantSpot, m)
    ensures forall j :: 0 <= j < i ==> !Priced(skus[j], fam, wantSpot, m)
    decreases |skus|
  {
    if Priced(skus[0], fam, wantSpot, m) {
      i := 0;
    } else {
      var rest := skus[1..];
      var k := FirstMeterPriceFirst(rest, fam, wantSpot, m);
      i := k + 1;
      assert skus[i] == rest[k];
      assert forall j :: 1 <= j < i ==> skus[j] == rest[j - 1];
    }
  }

  /**
   * The pricingInfo loop for one SKU of kind m: the slot of m keeps a price
   * it already has and otherwise takes the SKU's first price; the other slot
   * is unchanged; it stops once both slots are filled.
   */
  method ScanPricing(pis: seq<PricingInfo>, m: Meter, core0: Option<real>, ram0: Option<real>)
    returns (core: Option<real>, ram: Option<real>)
    ensures core == (if m == Core then FirstSome(core0, FirstUnitPrice(pis)) else core0)
    ensures ram == (if m == Ram then FirstSome(ram0, FirstUnitPrice(pis)) else ram0)
  {
    core, ram := core0, ram0;
    for k := 0 to |pis|
      invariant core == (if m == Core then FirstSome(core0, FirstUnitPrice(pis[..k])) else core0)
      invariant ram == (if m == Ram then FirstSome(ram0, FirstUnitPrice(pis[..k])) else ram0)
    {
      PricingStep(pis, k);
      var price := UnitPriceToDecimal(pis[k]);
      if price.None? {
        continue;
      }
      if m == Core && core.None? {
        core := price;
      }
      if m == Ram && ram.None? {
        ram := price;
      }
      if core.Some? && ram.Some? {
        PricingRest(pis, k + 1);
        break;
      }
    }
    assert pis[..|pis|] == pis;
  }

  lemma {:induction false} PricingStep(pis: seq<PricingInfo>, k: nat)
    requires k < |pis|
    ensures FirstUnitPrice(pis[..k + 1]) == FirstSome(FirstUnitPrice(pis[..k]), UnitPriceToDecimal(pis[k]))
  {
    assert pis[..k + 1] == pis[..k] + [pis[k]];
    FirstUnitPriceConcat(pis[..k], [pis[k]]);
    assert [pis[k]][1..] == [];
  }

  lemma {:induction false} PricingRest(pis: seq<PricingInfo>, k: nat)
    requires k <= |pis|
    ensures FirstUnitPrice(pis) == FirstSome(FirstUnitPrice(pis[..k]), FirstUnitPrice(pis[k..]))
  {
    assert pis == pis[..k] + pis[k..];
    FirstUnitPriceConcat(pis[..k], pis[k..]);
  }

  /**
   * The SKU loop of one page: each slot keeps a price it already has and
   * otherwise takes the first price the page gives for its meter; it stops
   * once both slots are filled. The region is never consulted.
   */
  method ScanPage(skus: seq<BillingSku>, region: string, fam: string, wantSpot: bool, core0: Option<real>, ram0: Option<real>)
    returns (core: Option<real>, ram: Option<real>)
    ensures core == FirstSome(core0, FirstMeterPrice(skus, fam, wantSpot, Core))
    ensures ram == FirstSome(ram0, FirstMeterPrice(skus, fam, wantSpot, Ram))
  {
    core, ram := core0, ram0;
    for i := 0 to |skus|
      invariant core == FirstSome(core0, FirstMeterPrice(skus[..i], fam, wantSpot, Core))
      invariant ram == FirstSome(ram0, FirstMeterPrice(skus[..i], fam, wantSpot, Ram))
    {
      var sku := skus[i];
      MeterStep(skus, i, fam, wantSpot, Core);
      MeterStep(skus, i, fam, wantSpot, Ram);
      if !UsageTypeOk(sku, wantSpot) {
        continue;
      }
      var kind := IsCoreOrRam(sku);
      if kind.None? {
        continue;
      }
      if !MatchesFamily(sku.description, fam) {
        continue;
      }
      core, ram := ScanPricing(sku.pricingInfo, kind.value, core, ram);
      if core.Some? && ram.Some? {
        MeterRest(skus, i + 1, fam, wantSpot, Core);
        MeterRest(skus, i + 1, fam, wantSpot, Ram);
        break;
      }
    }
    assert skus[..|skus|] == skus;
  }

  lemma {:induction false} MeterStep(skus: seq<BillingSku>, i: nat, fam: string, wantSpot: bool, m: Meter)
    requires i < |skus|
    ensures FirstMeterPrice(skus[..i + 1], fam, wantSpot, m) ==
      FirstSome(FirstMeterPrice(skus[..i], fam, wantSpot, m),
                if Eligible(skus[i], fam, wantSpot, m) then FirstUnitPrice(skus[i].pricingInfo) else None)
  {
    assert skus[..i + 1] == skus[..i] + [skus[i]];
    FirstMeterPriceConcat(skus[..i], [skus[i]], fam, wantSpot, m);
    assert [skus[i]][1..] == [];
  }

  lemma {:induction false} MeterRest(skus: seq<BillingSku>, k: nat, fam: string, wantSpot: bool, m: Meter)
    requires k <= |skus|
    ensures FirstMeterPrice(skus, fam, wantSpot, m) ==
      FirstSome(FirstMeterPrice(skus[..k], fam, wantSpot, m), FirstMeterPrice(skus[k..], fam, wantSpot, m))
  {
    assert skus == skus[..k] + skus[k..];
    FirstMeterPriceConcat(skus[..k], skus[k..], fam, wantSpot, m);
  }

  /**
   * fetch_family_core_ram_prices: the pages are read until both prices are
   * known or the listing ends; the result is the first core price and the
   * first RAM price over the whole catalog, whatever the region.
   */
  method FetchFamilyCoreRamPrices(pages: seq<seq<BillingSku>>, region: string, fam: string, wantSpot: bool)
    returns (core: Option<real>, ram: Option<real>)
    ensures (core, ram) == CoreRamPrices(pages, fam, wantSpot)
  {
    core, ram := None, None;
    var i := 0;
    while i < |pages| && (core.None? || ram.None?)
      invariant 0 <= i <= |pages|
      invariant core == FirstMeterPrice(Flatten(pages[..i]), fam, wantSpot, Core)
      invariant ram == FirstMeterPrice(Flatten(pages[..i]), fam, wantSpot, Ram)
    {
      core, ram := ScanPage(pages[i], region, fam, wantSpot, core, ram);
      PageStep(pages, i, fam, wantSpot, Core);
      PageStep(pages, i, fam, wantSpot, Ram);
      i := i + 1;
    }
    PageRest(pages, i, fam, wantSpot, Core);
    PageRest(pages, i, fam, wantSpot, Ram);
  }

  lemma {:induction false} PageStep(pages: seq<seq<BillingSku>>, i: nat, fam: string, wantSpot: bool, m: Meter)
    requires i < |pages|
    ensures FirstMeterPrice(Flatten(pages[..i + 1]), fam, wantSpot, m) ==
      FirstSome(FirstMeterPrice(Flatten(pages[..i]), fam, wantSpot, m), FirstMeterPrice(pages[i], fam, wantSpot, m))
  {
    assert pages[..i + 1] == pages[..i] + [pages[i]];
    FlattenConcat(pages[..i], [pages[i]]);
    assert Flatten([pages[i]]) == pages[i] + Flatten([pages[i]][1..]);
    assert [pages[i]][1..] == [];
    assert pages[i] + [] == pages[i];
    FirstMeterPriceConcat(Flatten(pages[..i]), pages[i], fam, wantSpot, m);
  }

  lemma {:induction false} PageRest(pages: seq<seq<BillingSku>>, i: nat, fam: string, wantSpot: bool, m: Meter)
    requires i <= |pages|
    requires i < |pages| ==> FirstMeterPrice(Flatten(pages[..i]), fam, wantSpot, m).Some?
    ensures FirstMeterPrice(Flatten(pages), fam, wantSpot, m) == FirstMeterPrice(Flatten(pages[..i]), fam, wantSpot, m)
  {
    assert pages == pages[..i] + pages[i..];
    FlattenConcat(pages[..i], pages[i..]);
    FirstMeterPriceConcat(Flatten(pages[..i]), Flatten(pages[i..]), fam, wantSpot, m);
    if i == |pages| {
      assert pages[i..] == [];
    }
  }

  // ------------------------------------------------------------ estimate

  /** `machine_type_name.split("-", 1)[0].lower()`. */
  function FamilyOf(name: string): string {
    var k := IndexOf(name, '-');
    Lower(if k < 0 then name else name[..k])
  }

  /** The family is the lower case of the part of the name before its first hyphen, the whole name without one. */
  lemma {:induction false} FamilyOfSpec(name: string)
    ensures '-' !in FamilyOf(name)
    ensures exists pre :: Lower(pre) == FamilyOf(name) && '-' !in pre && (pre == name || StartsWith(name, pre + "-"))
  {
    var k := IndexOf(name, '-');
    var pre := if k < 0 then name else name[..k];
    assert forall j :: 0 <= j < |pre| ==> FamilyOf(name)[j] == LowerChar(pre[j]);
    if k >= 0 {
      assert name[..k + 1] == pre + "-";
    }
  }

  /** vcpus times the core price plus the memory in GiB times the RAM price, when both prices are known. */
  function Estimate(core: Option<real>, ram: Option<real>, vcpus: int, memMb: int): Option<real> {
    if core.Some? && ram.Some? then Some(Cost(vcpus, core.value, memMb, ram.value)) else None
  }

  /** `(Decimal(vcpus) * core) + (ram_gib * ram)`, with ram_gib = mem_mb / 1024. */
  function Cost(vcpus: int, core: real, memMb: int, ram: real): real {
    vcpus as real * core + (memMb as real / 1024.0) * ram
  }

  /**
   * estimate_machine_price: the on-demand and spot estimates from the
   * family's core and RAM prices of each usage type.
   */
  method EstimateMachinePrice(pages: seq<seq<BillingSku>>, region: string, name: string, vcpus: int, memMb: int)
    returns (onDemand: Option<real>, spot: Option<real>)
    ensures var (core, ram) := CoreRamPrices(pages, FamilyOf(name), false); onDemand == Estimate(core, ram, vcpus, memMb)
    ensures var (core, ram) := CoreRamPrices(pages, FamilyOf(name), true); spot == Estimate(core, ram, vcpus, memMb)
  {
    var k := IndexOf(name, '-');
    var fam := Lower(if k < 0 then name else name[..k]);
    assert fam == FamilyOf(name);
    var coreOd, ramOd := FetchFamilyCoreRamPrices(pages, region, fam, false);
    onDemand := None;
    if coreOd.Some? && ramOd.Some? {
      onDemand := Some(Cost(vcpus, coreOd.value, memMb, ramOd.value));
    }
    var coreSpot, ramSpot := FetchFamilyCoreRamPrices(pages, region, fam, true);
    spot := None;
    if coreSpot.Some? && ramSpot.Some? {
      spot := Some(Cost(vcpus, coreSpot.value, memMb, ramSpot.value));
    }
  }

  /**
   * The partner of Estimate: there is an estimate exactly when both prices
   * are known; it is not negative for non-negative prices and sizes, and
   * grows with the vCPU count.
   */
  lemma {:induction false} EstimateSpec(core: Option<real>, ram: Option<real>, vcpus: int, memMb: int)
    ensures Estimate(core, ram, vcpus, memMb).Some? <==> core.Some? && ram.Some?
    ensures core.Some? && ram.Some? && core.value >= 0.0 && ram.value >= 0.0 && vcpus >= 0 && memMb >= 0 ==>
      Estimate(core, ram, vcpus, memMb).value >= 0.0
    ensures core.Some? && ram.Some? && core.value >= 0.0 ==>
      Estimate(core, ram, vcpus, memMb).value <= Estimate(core, ram, vcpus + 1, memMb).value
  {
    if core.Some? && ram.Some? && core.value >= 0.0 && ram.value >= 0.0 && vcpus >= 0 && memMb >= 0 {
      assert vcpus as real * core.value >= 0.0;
      assert (memMb as real / 1024.0) * ram.value >= 0.0;
    }
  }

  /** No SKU of the catalog that can be priced for a meter means no estimate of that kind. */
  lemma {:induction false} NoMeterNoEstimate(pages: seq<seq<BillingSku>>, name: string, vcpus: int, memMb: int, wantSpot: bool, m: Meter)
    requires forall i :: 0 <= i < |Flatten(pages)| ==> !Priced(Flatten(pages)[i], FamilyOf(name), wantSpot, m)
    ensures var (core, ram) := CoreRamPrices(pages, FamilyOf(name), wantSpot); Estimate(core, ram, vcpus, memMb).None?
  {
    FirstMeterPriceNone(Flatten(pages), FamilyOf(name), wantSpot, m);
  }
}
