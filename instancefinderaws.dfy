// instance-finder/aws.py: the formatting helpers, the family filter, the
// chunked describe_instance_types calls, the GPU summary and the two price
// lookups.  The EC2 and Pricing clients are parameters: a describe call is
// a function from the requested chunk to the descriptions returned, a
// price query gives the products read and whether the pagination then
// raised BotoCoreError.
module InstanceFinderAws {
  import opened Wrappers
  import opened Strings
  import opened Numbers
  import opened FixedPoint
  import opened Ordering

  // ------------------------------------------------------------ formatting

  /** dec_to_str_money: "" for None, otherwise the value rounded ROUND_HALF_UP to cents. */
  function DecToStrMoney(x: Option<real>): string {
    match x
    case None => ""
    case Some(v) => FixedToString(v, 2)
  }

  /** The partner of DecToStrMoney: the text shows two decimals and reads back as the value rounded half-up to cents. */
  lemma {:induction false} DecToStrMoneySpec(x: Option<real>)
    ensures x.None? <==> DecToStrMoney(x) == ""
    ensures x.Some? ==> var s := DecToStrMoney(x);
      |s| >= 4 && s[|s| - 3] == '.' && IsDigit(s[|s| - 2]) && IsDigit(s[|s| - 1]) &&
      DecimalReading(s).Some? && DecimalReading(s).value == Units(QuantizeHalfUp(x.value, 2), 2) &&
      -0.005 <= DecimalReading(s).value - x.value <= 0.005
  {
    if x.Some? {
      CentsShape(x.value);
      FixedToStringReading(x.value, 2);
      CentsNear(x.value);
    }
  }

  /**
   * mib_to_gib_str: mib/1024 quantized half-up to 0.01 GiB, shown as an
   * integer when the quantized value is integral, else with two decimals.
   */
  function MibToGibStr(mib: Option<int>): string {
    match mib
    case None => ""
    case Some(m) =>
      var gib := m as real / 1024.0;
      var q := QuantizeHalfUp(gib, 2);
      if q % 100 == 0 then IntToString(q / 100) + "Gi" else FixedToString(gib, 2) + "Gi"
  }

  /**
   * The partner of MibToGibStr: the number before "Gi" reads back as the
   * size in GiB rounded half-up to cents (within 0.005 of it); it has no
   * point exactly when that rounded value is integral, and otherwise ends
   * in a point and two digits.
   */
  lemma {:induction false} MibToGibStrSpec(m: int)
    ensures var r := MibToGibStr(Some(m));
      var q := QuantizeHalfUp(m as real / 1024.0, 2);
      var n := r[..|r| - 2];
      |r| >= 3 && r[|r| - 2..] == "Gi" &&
      DecimalReading(n).Some? && DecimalReading(n).value == Units(q, 2) &&
      -0.005 <= Units(q, 2) - m as real / 1024.0 <= 0.005 &&
      (q % 100 == 0 ==> '.' !in n) &&
      (q % 100 != 0 ==> |n| >= 4 && n[|n| - 3] == '.' && IsDigit(n[|n| - 2]) && IsDigit(n[|n| - 1]))
  {
    var gib := m as real / 1024.0;
    var q := QuantizeHalfUp(gib, 2);
    var r := MibToGibStr(Some(m));
    CentsNear(gib);
    if q % 100 == 0 {
      var t := IntToString(q / 100);
      assert r[..|r| - 2] == t;
      IntToStringReading(q / 100);
      UnitsCents(q);
    } else {
      var t := FixedToString(gib, 2);
      assert r[..|r| - 2] == t;
      FixedToStringReading(gib, 2);
      CentsShape(gib);
    }
  }

  /** A whole number of GiB shows as that number followed by "Gi". */
  lemma {:induction false} WholeGib(n: nat)
    ensures MibToGibStr(Some(1024 * n)) == NatToString(n) + "Gi"
  {
    var gib := (1024 * n) as real / 1024.0;
    assert gib == n as real;
    UnitsCents(100 * n);
    assert Units(100 * n, 2) == gib;
    QuantizeHalfUpExact(100 * n, 2);
    var q := QuantizeHalfUp(gib, 2);
    assert q == 100 * n;
    assert q % 100 == 0 && q / 100 == n;
    assert MibToGibStr(Some(1024 * n)) == IntToString(n) + "Gi";
  }

  /** to_title_label: for exactly two dot-separated parts, the first upper-cased and the second capitalised; otherwise unchanged. */
  function ToTitleLabel(instanceType: string): string {
    var parts := Split(instanceType, '.');
    if |parts| == 2 then Upper(parts[0]) + " " + Capitalize(parts[1]) else instanceType
  }

  /** A string without the separator is a single piece. */
  lemma {:induction false} SplitWhole(s: string, sep: char)
    requires sep !in s
    ensures Split(s, sep) == [s]
  {
  }

  /** The partner of ToTitleLabel on a `family.size` name: "m7i.large" becomes "M7I Large". */
  lemma {:induction false} TitleLabelOfPair(family: string, size: string)
    requires '.' !in family && '.' !in size
    ensures ToTitleLabel(family + "." + size) == Upper(family) + " " + Capitalize(size)
  {
    SplitConcat(family, size, '.');
    SplitWhole(family, '.');
    SplitWhole(size, '.');
    assert family + "." + size == family + ['.'] + size;
  }

  /** A name without a dot is left as it is. */
  lemma {:induction false} TitleLabelNoDot(instanceType: string)
    requires '.' !in instanceType
    ensures ToTitleLabel(instanceType) == instanceType
  {
    SplitWhole(instanceType, '.');
  }

  /** A name with two or more dots is left as it is. */
  lemma {:induction false} TitleLabelManyDots(a: string, b: string, c: string)
    ensures ToTitleLabel(a + "." + b + "." + c) == a + "." + b + "." + c
  {
    var s := a + "." + b + "." + c;
    assert s == a + ['.'] + (b + ['.'] + c);
    SplitThree(a, b, c);
    assert |Split(s, '.')| != 2;
  }

  lemma {:induction false} SplitThree(a: string, b: string, c: string)
    ensures |Split(a + ['.'] + (b + ['.'] + c), '.')| >= 3
  {
    SplitConcat(b, c, '.');
    SplitConcat(a, b + ['.'] + c, '.');
  }

  // --------------------------------------------------------- family filter

  /** `any(t.lower().startswith(pref.lower()) for pref in family_prefix)`. */
  predicate MatchesFamily(t: string, families: seq<string>) {
    exists i :: 0 <= i < |families| && StartsWith(Lower(t), Lower(families[i]))
  }

  /** filter_by_family: the input itself for no family list or an empty one, else the names matching some prefix. */
  function FilterByFamily(types: set<string>, families: Option<seq<string>>): (r: set<string>)
    ensures r <= types
  {
    if families.None? || families.value == [] then types
    else set t | t in types && MatchesFamily(t, families.value)
  }

  /** The partner of FilterByFamily: a name stays exactly when it is offered and, given prefixes, its lower-case form starts with one's lower-case form. */
  lemma {:induction false} FilterByFamilyIff(types: set<string>, families: seq<string>, t: string)
    requires families != []
    ensures t in FilterByFamily(types, Some(families)) <==>
      t in types && exists i :: 0 <= i < |families| && Lower(families[i]) <= Lower(t)
  {
  }

  /** An empty prefix (a FAMILY with a stray comma, "m7i,") keeps every offered name. */
  lemma {:induction false} EmptyPrefixKeepsAll(types: set<string>, families: seq<string>)
    requires "" in families
    ensures FilterByFamily(types, Some(families)) == types
  {
    var i :| 0 <= i < |families| && families[i] == "";
    assert forall t :: t in types ==> StartsWith(Lower(t), Lower(families[i]));
  }

  /** The filter is insensitive to the case of the prefixes. */
  lemma {:induction false} FilterCaseInsensitive(types: set<string>, families: seq<string>)
    ensures FilterByFamily(types, Some(families)) == FilterByFamily(types, Some(MapSeq(families, Lower)))
  {
    var lowered := MapSeq(families, Lower);
    MapSeqAt(families, Lower);
    forall i | 0 <= i < |families|
      ensures Lower(lowered[i]) == Lower(families[i])
    {
      LowerIdempotent(families[i]);
    }
    forall t | t in types
      ensures MatchesFamily(t, families) <==> MatchesFamily(t, lowered)
    {
      if MatchesFamily(t, families) {
        var i :| 0 <= i < |families| && StartsWith(Lower(t), Lower(families[i]));
        assert StartsWith(Lower(t), Lower(lowered[i]));
      }
      if MatchesFamily(t, lowered) {
        var i :| 0 <= i < |lowered| && StartsWith(Lower(t), Lower(lowered[i]));
        assert StartsWith(Lower(t), Lower(families[i]));
      }
    }
  }

  /** main splits a non-empty FAMILY on commas, so the filter always applies the prefixes. */
  lemma {:induction false} MainFamilyFilter(types: set<string>, family: string)
    requires family != ""
    ensures FilterByFamily(types, Some(Split(family, ','))) == set t | t in types && MatchesFamily(t, Split(family, ','))
  {
  }

  // ------------------------------------------------------------ GPU summary

  /** An entry of GpuInfo.Gpus: Count, Name, Manufacturer and MemoryInfo.SizeInMiB, each possibly absent. */
  datatype Gpu = Gpu(count: Option<int>, name: Option<string>, manufacturer: Option<string>, memMib: Option<int>)

  /** GpuInfo: the Gpus list (empty when absent) and TotalGpuCount. */
  datatype GpuInfo = GpuInfo(gpus: seq<Gpu>, totalGpuCount: Option<int>)

  /** An InstanceTypes entry of describe_instance_types; a missing or empty GpuInfo is None. */
  datatype InstanceDesc = InstanceDesc(instanceType: string, defaultVcpus: Option<int>, memMib: Option<int>, gpuInfo: Option<GpuInfo>)

  datatype GpuSummary = GpuSummary(enabled: bool, manufacturer: string, count: int, model: string, memory: string)

  /** `x.get("Count", 0)`. */
  function CountOf(g: Gpu): int {
    if g.count.Some? then g.count.value else 0
  }

  /** The sum of the counts, added up from the front. */
  function SumCounts(gpus: seq<Gpu>): int
    decreases |gpus|
  {
    if gpus == [] then 0 else SumCounts(gpus[..|gpus| - 1]) + CountOf(gpus[|gpus| - 1])
  }

  /** The partner of SumCounts: the total of two lists is the sum of their totals. */
  lemma {:induction false} SumCountsConcat(a: seq<Gpu>, b: seq<Gpu>)
    ensures SumCounts(a + b) == SumCounts(a) + SumCounts(b)
    decreases |b|
  {
    if b != [] {
      assert (a + b)[..|a + b| - 1] == a + b[..|b| - 1];
      SumCountsConcat(a, b[..|b| - 1]);
    } else {
      assert a + b == a;
    }
  }

  /** Counts that are never negative add up to a total that is not negative. */
  lemma {:induction false} SumCountsNonNegative(gpus: seq<Gpu>)
    requires forall i :: 0 <= i < |gpus| ==> CountOf(gpus[i]) >= 0
    ensures SumCounts(gpus) >= 0
    decreases |gpus|
  {
    if gpus != [] {
      SumCountsNonNegative(gpus[..|gpus| - 1]);
    }
  }

  /** `x or ""` on an optional string. */
  function OrEmpty(s: Option<string>): string {
    if s.Some? then s.value else ""
  }

  /** extract_gpu_info. */
  function ExtractGpuInfo(d: InstanceDesc): GpuSummary {
    match d.gpuInfo
    case None => GpuSummary(false, "", 0, "", "")
    case Some(g) =>
      var total := if g.gpus != [] then SumCounts(g.gpus)
                   else if g.totalGpuCount.Some? then g.totalGpuCount.value else 0;
      if g.gpus == [] then GpuSummary(true, "", total, "", "")
      else
        var first := g.gpus[0];
        var memory := if first.memMib.Some? && first.memMib.value != 0 then MibToGibStr(first.memMib) else "";
        GpuSummary(true, OrEmpty(first.manufacturer), total, OrEmpty(first.name), memory)
  }

  /** Without GpuInfo the summary is disabled, with count 0 and empty strings; with it, enabled. */
  lemma {:induction false} GpuEnabledIff(d: InstanceDesc)
    ensures ExtractGpuInfo(d).enabled <==> d.gpuInfo.Some?
    ensures d.gpuInfo.None? ==> ExtractGpuInfo(d) == GpuSummary(false, "", 0, "", "")
  {
  }

  /** The count is the sum of the Gpus counts, else TotalGpuCount, else 0. */
  lemma {:induction false} GpuCount(d: InstanceDesc)
    requires d.gpuInfo.Some?
    ensures var g := d.gpuInfo.value;
      ExtractGpuInfo(d).count ==
        if g.gpus != [] then SumCounts(g.gpus) else if g.totalGpuCount.Some? then g.totalGpuCount.value else 0
  {
  }

  /**
   * Model, manufacturer and memory come from the first GPU; the memory is
   * shown exactly when the first GPU reports a non-zero size.
   */
  lemma {:induction false} GpuFirstDetails(d: InstanceDesc)
    requires d.gpuInfo.Some? && d.gpuInfo.value.gpus != []
    ensures var first := d.gpuInfo.value.gpus[0]; var s := ExtractGpuInfo(d);
      s.model == OrEmpty(first.name) && s.manufacturer == OrEmpty(first.manufacturer) &&
      (s.memory != "" <==> first.memMib.Some? && first.memMib.value != 0) &&
      (s.memory != "" ==> s.memory == MibToGibStr(first.memMib))
  {
    var first := d.gpuInfo.value.gpus[0];
    if first.memMib.Some? {
      MibToGibStrSpec(first.memMib.value);
    }
  }

  // ------------------------------------------------------------ spot price

  /** A SpotPriceHistory entry: its Timestamp (as an ordered count) and its SpotPrice as a decimal. */
  datatype SpotEntry = SpotEntry(timestamp: int, spotPrice: real)

  predicate NewerFirst(a: SpotEntry, b: SpotEntry) { a.timestamp >= b.timestamp }

  lemma {:induction false} NewerFirstPreorder()
    ensures TotalPreorder(NewerFirst)
  {
  }

  /** `max(hist, key=Timestamp)`: the first entry with the greatest Timestamp. */
  function LatestSpot(hist: seq<SpotEntry>): (i: nat)
    requires hist != []
    ensures i < |hist|
    ensures forall j :: 0 <= j < |hist| ==> hist[j].timestamp <= hist[i].timestamp
    ensures forall j :: 0 <= j < i ==> hist[j].timestamp < hist[i].timestamp
  {
    NewerFirstPreorder();
    FirstLeastSpec(hist, NewerFirst);
    FirstLeast(hist, NewerFirst)
  }

  /**
   * recent_spot_price_usd_per_hour on the history returned, None standing
   * for BotoCoreError: nothing for an error or an empty history, else the
   * price of the latest entry.
   */
  function SpotPrice(history: Option<seq<SpotEntry>>): Option<real> {
    match history
    case None => None
    case Some(hist) => if hist == [] then None else Some(hist[LatestSpot(hist)].spotPrice)
  }

  /** The partner of SpotPrice: a price comes exactly from a non-empty history, and it is that of an entry no other entry is newer than, with every earlier entry strictly older. */
  lemma {:induction false} SpotPriceSpec(history: Option<seq<SpotEntry>>)
    ensures SpotPrice(history).None? <==> history.None? || history.value == []
    ensures SpotPrice(history).Some? ==> var hist := history.value;
      exists i :: 0 <= i < |hist| && SpotPrice(history).value == hist[i].spotPrice &&
        (forall j :: 0 <= j < |hist| ==> hist[j].timestamp <= hist[i].timestamp) &&
        (forall j :: 0 <= j < i ==> hist[j].timestamp < hist[i].timestamp)
  {
    if SpotPrice(history).Some? {
      var i := LatestSpot(history.value);
      assert SpotPrice(history).value == history.value[i].spotPrice;
    }
  }

  // ---------------------------------------------------------- describe_types

  const ChunkSize: nat := 100

  /** The chunks `types[i:i+100]` for i = 0, 100, 200, ...: all full but the last, none empty. */
  function Chunks(types: seq<string>): (cs: seq<seq<string>>)
    ensures forall i :: 0 <= i < |cs| ==> 0 < |cs[i]| <= ChunkSize
    ensures forall i :: 0 <= i < |cs| - 1 ==> |cs[i]| == ChunkSize
    ensures |cs| == (|types| + ChunkSize - 1) / ChunkSize
    decreases |types|
  {
    if types == [] then []
    else
      var n := if |types| < ChunkSize then |types| else ChunkSize;
      [types[..n]] + Chunks(types[n..])
  }

  /** The partner of Chunks: the chunks laid end to end are the types, so each is requested once and in order. */
  lemma {:induction false} ChunksCover(types: seq<string>)
    ensures Flatten(Chunks(types)) == types
    decreases |types|
  {
    if types != [] {
      var n := if |types| < ChunkSize then |types| else ChunkSize;
      var cs := Chunks(types);
      assert cs[0] == types[..n] && cs[1..] == Chunks(types[n..]);
      ChunksCover(types[n..]);
      assert types == types[..n] + types[n..];
    }
  }

  /** The chunk taken at i is the first chunk of what remains. */
  lemma {:induction false} ChunksStep(types: seq<string>, i: nat, end: nat)
    requires i < |types| && end == (if i + ChunkSize <= |types| then i + ChunkSize else |types|)
    ensures Chunks(types[i..]) == [types[i..end]] + Chunks(types[end..])
  {
    var rest := types[i..];
    assert rest[..end - i] == types[i..end];
    assert rest[end - i..] == types[end..];
  }

  /** The descriptions returned for the chunks, one response after another. */
  function Responses(cs: seq<seq<string>>, describe: seq<string> -> seq<InstanceDesc>): seq<InstanceDesc>
    decreases |cs|
  {
    if cs == [] then [] else Responses(cs[..|cs| - 1], describe) + describe(cs[|cs| - 1])
  }

  /** `out[it["InstanceType"]] = it` for each description in turn. */
  function Recorded(ds: seq<InstanceDesc>): map<string, InstanceDesc>
    decreases |ds|
  {
    if ds == [] then map[] else Recorded(ds[..|ds| - 1])[ds[|ds| - 1].instanceType := ds[|ds| - 1]]
  }

  /** The partner of Recorded: a name is a key exactly when some description has it, and it maps to the last such description. */
  lemma {:induction false} RecordedSpec(ds: seq<InstanceDesc>, k: string)
    ensures k in Recorded(ds) <==> exists i :: 0 <= i < |ds| && ds[i].instanceType == k
    ensures k in Recorded(ds) ==> exists i :: (0 <= i < |ds| && Recorded(ds)[k] == ds[i] && ds[i].instanceType == k &&
      forall j :: i < j < |ds| ==> ds[j].instanceType != k)
    decreases |ds|
  {
    if ds != [] {
      var init, last := ds[..|ds| - 1], ds[|ds| - 1];
      RecordedSpec(init, k);
      assert forall i :: 0 <= i < |init| ==> init[i] == ds[i];
      if last.instanceType != k && k in Recorded(init) {
        var i :| 0 <= i < |init| && Recorded(init)[k] == init[i] && init[i].instanceType == k &&
          forall j :: i < j < |init| ==> init[j].instanceType != k;
        assert forall j :: i < j < |ds| ==> ds[j].instanceType != k;
      }
      if last.instanceType != k && (exists i :: 0 <= i < |ds| && ds[i].instanceType == k) {
        var i :| 0 <= i < |ds| && ds[i].instanceType == k;
        assert i < |init| && init[i].instanceType == k;
      }
    }
  }

  /** Recording one more description of a response. */
  lemma {:induction false} RecordedSnoc(before: seq<InstanceDesc>, resp: seq<InstanceDesc>, j: nat)
    requires j < |resp|
    ensures Recorded(before + resp[..j + 1]) == Recorded(before + resp[..j])[resp[j].instanceType := resp[j]]
  {
    assert (before + resp[..j + 1])[..|before| + j] == before + resp[..j];
  }

  /** Requesting the chunk at i moves it from the chunks to come to the chunks done. */
  lemma {:induction false} DescribeStep(types: seq<string>, done: seq<seq<string>>, i: nat, end: nat,
                                        describe: seq<string> -> seq<InstanceDesc>)
    requires i < |types| && end == (if i + ChunkSize <= |types| then i + ChunkSize else |types|)
    requires done + Chunks(types[i..]) == Chunks(types)
    ensures (done + [types[i..end]]) + Chunks(types[end..]) == Chunks(types)
    ensures Responses(done + [types[i..end]], describe) == Responses(done, describe) + describe(types[i..end])
  {
    var chunk := types[i..end];
    ChunksStep(types, i, end);
    assert (done + [chunk])[..|done|] == done;
    assert done + [chunk] + Chunks(types[end..]) == done + ([chunk] + Chunks(types[end..]));
  }

  /**
   * describe_types: describe_instance_types on each chunk of at most 100
   * types in turn, each returned description recorded under its name.
   */
  method DescribeTypes(types: seq<string>, describe: seq<string> -> seq<InstanceDesc>) returns (out: map<string, InstanceDesc>)
    ensures out == Recorded(Responses(Chunks(types), describe))
  {
    out := map[];
    ghost var done: seq<seq<string>> := [];
    var i := 0;
    while i < |types|
      invariant 0 <= i <= |types|
      invariant done + Chunks(types[i..]) == Chunks(types)
      invariant out == Recorded(Responses(done, describe))
      decreases |types| - i
    {
      var end := if i + ChunkSize <= |types| then i + ChunkSize else |types|;
      var chunk := types[i..end];
      var resp := describe(chunk);
      DescribeStep(types, done, i, end, describe);
      ghost var before := Responses(done, describe);
      var j := 0;
      assert before + resp[..0] == before;
      while j < |resp|
        invariant 0 <= j <= |resp|
        invariant out == Recorded(before + resp[..j])
      {
        RecordedSnoc(before, resp, j);
        out := out[resp[j].instanceType := resp[j]];
        j := j + 1;
      }
      assert resp[..|resp|] == resp;
      done := done + [chunk];
      i := end;
    }
    assert Chunks(types[i..]) == [];
    assert done == Chunks(types);
  }

  // ------------------------------------------------------- on-demand price

  /** A price dimension: its unit and its pricePerUnit.USD string, each possibly absent. */
  datatype Dim = Dim(unit: Option<string>, usd: Option<string>)

  /** An OnDemand term: its priceDimensions in order. */
  datatype Term = Term(dims: seq<Dim>)

  /** A decoded PriceList entry: its OnDemand terms in order. */
  datatype Product = Product(terms: seq<Term>)

  /** A TERM_MATCH filter of get_products. */
  datatype Filter = TermMatch(field: string, value: string)

  /** What one get_products pagination yields: the products read, and whether it then raised BotoCoreError. */
  datatype Pages = Pages(products: seq<Product>, failed: bool)

  /** The full filter: instance type, Linux, shared tenancy, no pre-installed software, used capacity, then the region. */
  function PriceFilters(region: string, instanceType: string): seq<Filter> {
    [TermMatch("instanceType", instanceType), TermMatch("operatingSystem", "Linux"), TermMatch("tenancy", "Shared"),
     TermMatch("preInstalledSw", "NA"), TermMatch("capacitystatus", "Used"), TermMatch("regionCode", region)]
  }

  /** The fallback filter `flt[:-1]` is the full one without its regionCode term, which is the last. */
  lemma {:induction false} FallbackDropsRegion(region: string, instanceType: string)
    ensures var full := PriceFilters(region, instanceType);
      full == full[..5] + [TermMatch("regionCode", region)] &&
      forall i :: 0 <= i < |full[..5]| ==> full[..5][i].field != "regionCode"
  {
  }

  /** Decimal(s): the plain decimal notation, surrounding white space allowed. */
  function ParseDecimal(s: string): Option<real> {
    DecimalReading(Trim(s))
  }

  /** The price a dimension offers: an hourly unit and a USD string that parses. */
  function DimPrice(d: Dim): Option<real> {
    if d.unit == Some("Hrs") && d.usd.Some? then ParseDecimal(d.usd.value) else None
  }

  /** The first dimension that offers a price. */
  function FirstPrice(dims: seq<Dim>): Option<real>
    decreases |dims|
  {
    if dims == [] then None
    else if DimPrice(dims[0]).Some? then DimPrice(dims[0])
    else FirstPrice(dims[1..])
  }

  /** The dimensions of the terms, term after term. */
  function TermDims(terms: seq<Term>): seq<Dim>
    decreases |terms|
  {
    if terms == [] then [] else terms[0].dims + TermDims(terms[1..])
  }

  /** The dimensions of the products, product after product. */
  function ProductDims(ps: seq<Product>): seq<Dim>
    decreases |ps|
  {
    if ps == [] then [] else TermDims(ps[0].terms) + ProductDims(ps[1..])
  }

  /** Some dimension offers a price. */
  predicate Offers(dims: seq<Dim>) {
    exists k :: 0 <= k < |dims| && DimPrice(dims[k]).Some?
  }

  /** The partner of FirstPrice: a price is found exactly when some dimension offers one. */
  lemma {:induction false} FirstPriceSome(dims: seq<Dim>)
    ensures FirstPrice(dims).Some? <==> Offers(dims)
    decreases |dims|
  {
    if dims != [] {
      FirstPriceSome(dims[1..]);
      if Offers(dims) && DimPrice(dims[0]).None? {
        var k :| 0 <= k < |dims| && DimPrice(dims[k]).Some?;
        assert dims[1..][k - 1] == dims[k];
      }
      if Offers(dims[1..]) {
        var k :| 0 <= k < |dims[1..]| && DimPrice(dims[1..][k]).Some?;
        assert dims[k + 1] == dims[1..][k];
      }
    }
  }

  /** The price found is the one the first offering dimension offers, and that dimension is hourly. */
  lemma {:induction false} FirstPriceFirst(dims: seq<Dim>) returns (k: nat)
    requires FirstPrice(dims).Some?
    ensures k < |dims| && FirstPrice(dims) == DimPrice(dims[k]) && dims[k].unit == Some("Hrs")
    ensures forall j :: 0 <= j < k ==> DimPrice(dims[j]).None?
    decreases |dims|
  {
    if DimPrice(dims[0]).Some? {
      k := 0;
    } else {
      var k' := FirstPriceFirst(dims[1..]);
      k := k' + 1;
      assert dims[k] == dims[1..][k'];
      forall j | 0 < j < k
        ensures DimPrice(dims[j]).None?
      {
        assert dims[j] == dims[1..][j - 1];
      }
    }
  }

  /** One dimension of the scan: it offers the price, or the scan moves on. */
  lemma {:induction false} SkipDim(dims: seq<Dim>, k: nat)
    requires k < |dims|
    ensures FirstPrice(dims[k..]) == if DimPrice(dims[k]).Some? then DimPrice(dims[k]) else FirstPrice(dims[k + 1..])
  {
    assert dims[k..][1..] == dims[k + 1..];
  }

  /** The scan of two runs of dimensions finds the first run's price, else the second's. */
  lemma {:induction false} FirstPriceConcat(a: seq<Dim>, b: seq<Dim>)
    ensures FirstPrice(a + b) == if FirstPrice(a).Some? then FirstPrice(a) else FirstPrice(b)
    decreases |a|
  {
    if a == [] {
      assert a + b == b;
    } else {
      assert (a + b)[0] == a[0];
      assert (a + b)[1..] == a[1..] + b;
      FirstPriceConcat(a[1..], b);
    }
  }

  lemma {:induction false} TermDimsStep(terms: seq<Term>, j: nat)
    requires j < |terms|
    ensures TermDims(terms[j..]) == terms[j].dims + TermDims(terms[j + 1..])
  {
    assert terms[j..][1..] == terms[j + 1..];
  }

  lemma {:induction false} ProductDimsStep(ps: seq<Product>, i: nat)
    requires i < |ps|
    ensures ProductDims(ps[i..]) == TermDims(ps[i].terms) + ProductDims(ps[i + 1..])
  {
    assert ps[i..][1..] == ps[i + 1..];
  }

  /** The loop over a term's price dimensions, returning at the first price. */
  method ScanDims(dims: seq<Dim>) returns (price: Option<real>)
    ensures price == FirstPrice(dims)
  {
    var k := 0;
    assert dims[0..] == dims;
    while k < |dims|
      invariant 0 <= k <= |dims|
      invariant FirstPrice(dims) == FirstPrice(dims[k..])
    {
      SkipDim(dims, k);
      var d := dims[k];
      if d.unit == Some("Hrs") && d.usd.Some? {
        var parsed := ParseDecimal(d.usd.value);
        if parsed.Some? {
          return parsed;
        }
      }
      k := k + 1;
    }
    return None;
  }

  /** The loop over a product's OnDemand terms. */
  method ScanTerms(terms: seq<Term>) returns (price: Option<real>)
    ensures price == FirstPrice(TermDims(terms))
  {
    var j := 0;
    assert terms[0..] == terms;
    while j < |terms|
      invariant 0 <= j <= |terms|
      invariant FirstPrice(TermDims(terms)) == FirstPrice(TermDims(terms[j..]))
    {
      TermDimsStep(terms, j);
      FirstPriceConcat(terms[j].dims, TermDims(terms[j + 1..]));
      price := ScanDims(terms[j].dims);
      if price.Some? {
        return price;
      }
      j := j + 1;
    }
    return None;
  }

  /** The loop over the products of one attempt's pages. */
  method ScanProducts(ps: seq<Product>) returns (price: Option<real>)
    ensures price == FirstPrice(ProductDims(ps))
  {
    var i := 0;
    assert ps[0..] == ps;
    while i < |ps|
      invariant 0 <= i <= |ps|
      invariant FirstPrice(ProductDims(ps)) == FirstPrice(ProductDims(ps[i..]))
    {
      ProductDimsStep(ps, i);
      FirstPriceConcat(TermDims(ps[i].terms), ProductDims(ps[i + 1..]));
      price := ScanTerms(ps[i].terms);
      if price.Some? {
        return price;
      }
      i := i + 1;
    }
    return None;
  }

  /**
   * on_demand_price_usd_per_hour on the get_products results for a filter:
   * the first price of the full filter's products; failing that, unless the
   * pagination raised, the first price of the fallback filter's products.
   */
  function OnDemandPrice(region: string, instanceType: string, query: seq<Filter> -> Pages): Option<real> {
    var full := PriceFilters(region, instanceType);
    var first := query(full);
    var found := FirstPrice(ProductDims(first.products));
    if found.Some? || first.failed then found
    else FirstPrice(ProductDims(query(full[..5]).products))
  }

  /**
   * The partner of OnDemandPrice: a price is returned exactly when the full
   * filter's products offer one, or, when they offer none and the pagination
   * did not raise, the fallback filter's products do.
   */
  lemma {:induction false} OnDemandPriceSpec(region: string, instanceType: string, query: seq<Filter> -> Pages)
    ensures var full := PriceFilters(region, instanceType);
      OnDemandPrice(region, instanceType, query).Some? <==>
        Offers(ProductDims(query(full).products)) ||
        (!query(full).failed && Offers(ProductDims(query(full[..5]).products)))
    ensures var full := PriceFilters(region, instanceType);
      FirstPrice(ProductDims(query(full).products)).Some? ==>
        OnDemandPrice(region, instanceType, query) == FirstPrice(ProductDims(query(full).products))
  {
    var full := PriceFilters(region, instanceType);
    FirstPriceSome(ProductDims(query(full).products));
    FirstPriceSome(ProductDims(query(full[..5]).products));
  }

  /** The two attempts in turn, returning at the first price found or at a pagination error. */
  method OnDemandPriceUsdPerHour(region: string, instanceType: string, query: seq<Filter> -> Pages) returns (price: Option<real>)
    ensures price == OnDemandPrice(region, instanceType, query)
  {
    var full := PriceFilters(region, instanceType);
    var attempts := [full, full[..5]];
    var a := 0;
    while a < |attempts|
      invariant 0 <= a <= |attempts|
      invariant attempts[0] == full && attempts[1] == full[..5]
      invariant a > 0 ==> FirstPrice(ProductDims(query(full).products)).None? && !query(full).failed
      invariant a > 1 ==> FirstPrice(ProductDims(query(full[..5]).products)).None?
    {
      var pages := query(attempts[a]);
      price := ScanProducts(pages.products);
      if price.Some? {
        return price;
      }
      if pages.failed {
        return None;
      }
      a := a + 1;
    }
    return None;
  }
}
