// instance-finder/az.py, main: the VM SKUs of the region are narrowed to
// the requested families, taken in name order, and each size that
// advertises zones in the region becomes one entry under every requested
// zone it supports. The SKU listing and the Retail Prices pages are inputs.
module InstanceFinderAzMain {
  import opened Wrappers
  import opened Strings
  import opened Numbers
  import opened FixedPoint
  import opened Ordering
  import opened InstanceFinderAz

  /** A Resource SKU of the region's listing. */
  datatype Sku = Sku(name: Option<string>, resourceType: Option<string>, capabilities: seq<Capability>,
                     locations: seq<LocationInfo>)

  /** What retail_price_for_size read for one size and price kind: the items of its pages, or a request that raised. */
  datatype Fetch = Fetched(items: seq<RetailItem>) | FetchFailed

  datatype SpotInfo = SpotInfo(price: Option<string>, enabled: bool)

  /** One zone offering as written to the output. */
  datatype Entry = Entry(name: string, nameLabel: string, vcpus: int, ram: string, price: Option<string>,
                         generation: Option<string>, gpu: AzGpu, spot: SpotInfo)

  /** A size that is offered: its entry and the zones it supports. */
  datatype Offer = Offer(entry: Entry, supported: seq<string>)

  /** The run stops when a size's memory capability is not a number (float() raises). */
  datatype Fatal = BadMemory(size: string, value: string)

  /** zone_flavors: the zones in the order they were first added, and the entries of each. */
  datatype Flavors = Flavors(order: seq<string>, byZone: map<string, seq<Entry>>)

  // ------------------------------------------------------------ capabilities

  /** Python's float() on a string, for the plain decimal forms; surrounding whitespace is ignored. */
  function PyFloat(s: string): Option<real> {
    DecimalReading(Trim(s))
  }

  /** An f-string of an optional string: None shows as "None". */
  function Shown(s: Option<string>): string {
    if s.Some? then s.value else "None"
  }

  /** `int(float(vcpus_str)) if vcpus_str else 0`, any failure giving 0. */
  function VcpuCount(caps: seq<Capability>): int {
    var s := OrElse(GetCapability(caps, "vCPUs"), GetCapability(caps, "vCPUS"));
    if s.None? || s.value == "" then 0
    else match PyFloat(s.value)
      case None => 0
      case Some(v) => Truncate(v)
  }

  /** The partner of VcpuCount: a number is truncated toward zero; a missing, empty or unreadable value is 0. */
  lemma {:induction false} VcpuCountSpec(caps: seq<Capability>)
    ensures var s := OrElse(GetCapability(caps, "vCPUs"), GetCapability(caps, "vCPUS"));
      (s.None? || s.value == "" || PyFloat(s.value).None?) ==> VcpuCount(caps) == 0
    ensures var s := OrElse(GetCapability(caps, "vCPUs"), GetCapability(caps, "vCPUS"));
      var n := VcpuCount(caps);
      s.Some? && s.value != "" && PyFloat(s.value).Some? ==>
        var v := PyFloat(s.value).value;
        (v >= 0.0 ==> 0 <= n && n as real <= v < n as real + 1.0) &&
        (v < 0.0 ==> n <= 0 && n as real - 1.0 < v <= n as real)
  {
  }

  /** The capability lookup ignores case, so the second spelling main tries finds what the first found. */
  lemma {:induction false} SpellingsAgree(caps: seq<Capability>)
    ensures GetCapability(caps, "vCPUS") == GetCapability(caps, "vCPUs")
    ensures GetCapability(caps, "MemoryGb") == GetCapability(caps, "MemoryGB")
  {
    SameKey(caps, "vCPUS", "vCPUs");
    SameKey(caps, "MemoryGb", "MemoryGB");
  }

  lemma {:induction false} SameKey(caps: seq<Capability>, a: string, b: string)
    requires Lower(a) == Lower(b)
    ensures GetCapability(caps, a) == GetCapability(caps, b)
  {
    assert forall c :: NameIs(c, a) <==> NameIs(c, b);
    GetCapabilitySpec(caps, a);
    GetCapabilitySpec(caps, b);
    var i := CapabilityIndex(caps, a);
    var j := CapabilityIndex(caps, b);
    if i >= 0 && j >= 0 {
      assert !(i < j) && !(j < i);
    }
  }

  /**
   * `f"{int(round(float(mem_gb)))}GB" if mem_gb is not None else None`:
   * the value rounded half to even, an unreadable value being fatal.
   */
  function MemoryText(caps: seq<Capability>): Result<Option<string>, string> {
    var m := OrElse(GetCapability(caps, "MemoryGB"), GetCapability(caps, "MemoryGb"));
    if m.None? then Ok(None)
    else match PyFloat(m.value)
      case None => Err(m.value)
      case Some(v) => Ok(Some(IntToString(QuantizeHalfEven(v, 0)) + "GB"))
  }

  /**
   * The partner of MemoryText: no memory capability gives no text; an
   * unreadable one is an error carrying the value; otherwise the text is a
   * whole number followed by "GB" whose value is the nearest integer to the
   * capability, a tie going to the even one.
   */
  lemma {:induction false} MemoryTextSpec(caps: seq<Capability>)
    ensures var m := OrElse(GetCapability(caps, "MemoryGB"), GetCapability(caps, "MemoryGb"));
      (MemoryText(caps) == Ok(None) <==> m.None?) &&
      (MemoryText(caps).Err? <==> m.Some? && PyFloat(m.value).None?) &&
      (MemoryText(caps).Err? ==> MemoryText(caps).error == m.value)
    ensures var m := OrElse(GetCapability(caps, "MemoryGB"), GetCapability(caps, "MemoryGb"));
      var r := MemoryText(caps);
      r.Ok? && r.value.Some? ==>
        var t := r.value.value;
        var v := PyFloat(m.value).value;
        |t| >= 2 && t[|t| - 2..] == "GB" && '.' !in t[..|t| - 2] &&
        DecimalReading(t[..|t| - 2]).Some? &&
        var n := DecimalReading(t[..|t| - 2]).value;
        n - 0.5 <= v <= n + 0.5 && n.Floor as real == n &&
        ((v == n - 0.5 || v == n + 0.5) ==> n.Floor % 2 == 0)
  {
    var m := OrElse(GetCapability(caps, "MemoryGB"), GetCapability(caps, "MemoryGb"));
    if m.Some? && PyFloat(m.value).Some? {
      var v := PyFloat(m.value).value;
      var q := QuantizeHalfEven(v, 0);
      var t := IntToString(q) + "GB";
      assert t[..|t| - 2] == IntToString(q);
      IntToStringReading(q);
      assert Scaled(v, 0) == v;
      assert (q as real).Floor == q;
    }
  }

  // ------------------------------------------------------------ one size

  /** The price of a lookup: None when a request raised, else the least accepted price of the items. */
  function Price(f: Fetch, region: string, size: string, spot: bool): Option<real> {
    match f
    case FetchFailed => None
    case Fetched(items) => MinPrice(items, region, ShortSizeName(size), spot)
  }

  /**
   * The body of main's loop for one SKU: nothing for a size without a
   * supported zone, the fatal error of an unreadable memory value, else the
   * entry and the supported zones. retail(size, spot) is what the price
   * lookup for that size and kind reads.
   */
  function SizeOffer(sku: Sku, region: string, retail: (string, bool) -> Fetch): Result<Option<Offer>, Fatal> {
    var size := OrEmpty(sku.name);
    var supported := SortedSet(CollectedZones(sku.locations, region));
    if supported == [] then Ok(None)
    else match MemoryText(sku.capabilities)
      case Err(v) => Err(BadMemory(size, v))
      case Ok(mem) =>
        var vcpus := VcpuCount(sku.capabilities);
        var ond := Price(retail(size, false), region, size, false);
        var spot := Price(retail(size, true), region, size, true);
        var entry := Entry(size, IntToString(vcpus) + "vCPU-" + Shown(mem), vcpus, Shown(mem), DecToStrMoney(ond),
                           GetCapability(sku.capabilities, "HyperVGenerations"), ParseGpuInfo(sku.capabilities),
                           SpotInfo(DecToStrMoney(spot), spot.Some?));
        Ok(Some(Offer(entry, supported)))
  }

  /**
   * The partner of SizeOffer: a size without supported zones is skipped and
   * never fatal; an offered size carries its sorted supported zones, its
   * name, a label of its vCPU count and memory text, a price shown exactly
   * when an accepted on-demand item was read, and a spot price shown
   * exactly when spot is marked enabled.
   */
  lemma {:induction false} SizeOfferSpec(sku: Sku, region: string, retail: (string, bool) -> Fetch)
    ensures SortedSet(CollectedZones(sku.locations, region)) == [] ==> SizeOffer(sku, region, retail) == Ok(None)
    ensures SizeOffer(sku, region, retail) == Ok(None) ==> SortedSet(CollectedZones(sku.locations, region)) == []
    ensures SizeOffer(sku, region, retail).Err? <==>
      SortedSet(CollectedZones(sku.locations, region)) != [] && MemoryText(sku.capabilities).Err?
    ensures var r := SizeOffer(sku, region, retail);
      r.Ok? && r.value.Some? ==>
        var e := r.value.value.entry;
        var size := OrEmpty(sku.name);
        r.value.value.supported == SortedSet(CollectedZones(sku.locations, region)) &&
        StrictlySorted(r.value.value.supported) &&
        e.name == size && e.nameLabel == IntToString(e.vcpus) + "vCPU-" + e.ram &&
        e.vcpus == VcpuCount(sku.capabilities) &&
        (MemoryText(sku.capabilities) == Ok(None) ==> e.ram == "None") &&
        (MemoryText(sku.capabilities).Ok? && MemoryText(sku.capabilities).value.Some? ==> e.ram == MemoryText(sku.capabilities).value.value) &&
        (e.spot.enabled <==> e.spot.price.Some?) &&
        (e.price.Some? <==>
          (retail(size, false).Fetched? &&
           exists i :: 0 <= i < |retail(size, false).items| &&
             Accepted(retail(size, false).items[i], region, ShortSizeName(size), false))) &&
        (e.spot.enabled <==>
          (retail(size, true).Fetched? &&
           exists i :: 0 <= i < |retail(size, true).items| &&
             Accepted(retail(size, true).items[i], region, ShortSizeName(size), true)))
  {
    var size := OrEmpty(sku.name);
    SortedSetSpec(CollectedZones(sku.locations, region));
    var r := SizeOffer(sku, region, retail);
    if r.Ok? && r.value.Some? {
      if retail(size, false).Fetched? {
        MinPriceNone(retail(size, false).items, region, ShortSizeName(size), false);
      }
      if retail(size, true).Fetched? {
        MinPriceNone(retail(size, true).items, region, ShortSizeName(size), true);
      }
    }
  }

  // ------------------------------------------------------------ zone_flavors

  /** One turn of the zone loop: the zone gets a list if it has none, and the entry if the size supports it. */
  function Touch(f: Flavors, z: string, o: Offer): Flavors {
    var g := if z in f.byZone then f else Flavors(f.order + [z], f.byZone[z := []]);
    if z in o.supported then Flavors(g.order, g.byZone[z := g.byZone[z] + [o.entry]]) else g
  }

  /** The zone loop over the requested zones, in order. */
  function AddOffer(f: Flavors, zones: seq<string>, o: Offer): Flavors
    decreases |zones|
  {
    if zones == [] then f else Touch(AddOffer(f, zones[..|zones| - 1], o), zones[|zones| - 1], o)
  }

  /** What main's loop body makes of one SKU. */
  type Outcome = Result<Option<Offer>, Fatal>

  /** The outcome of each SKU, in turn. */
  function Outcomes(skus: seq<Sku>, region: string, retail: (string, bool) -> Fetch): (r: seq<Outcome>)
    ensures |r| == |skus|
    ensures forall i :: 0 <= i < |skus| ==> r[i] == SizeOffer(skus[i], region, retail)
    decreases |skus|
  {
    if skus == [] then []
    else
      var init := skus[..|skus| - 1];
      assert forall i :: 0 <= i < |init| ==> init[i] == skus[i];
      Outcomes(init, region, retail) + [SizeOffer(skus[|skus| - 1], region, retail)]
  }

  /** The SKU loop over the outcomes: skipped sizes add nothing, the first fatal size stops the run. */
  function Assemble(outs: seq<Outcome>, zones: seq<string>): Result<Flavors, Fatal>
    decreases |outs|
  {
    if outs == [] then Ok(Flavors([], map[]))
    else
      var r := Assemble(outs[..|outs| - 1], zones);
      if r.Err? then r
      else match outs[|outs| - 1]
        case Err(e) => Err(e)
        case Ok(None) => r
        case Ok(Some(o)) => Ok(AddOffer(r.value, zones, o))
  }

  /** The SKUs main keeps: virtual machines whose name matches a requested family. */
  predicate IsCandidate(s: Sku, families: seq<string>) {
    Lower(OrEmpty(s.resourceType)) == "virtualmachines" && SizeMatchesFamily(OrEmpty(s.name), families)
  }

  function Candidates(skus: seq<Sku>, families: seq<string>): (r: seq<Sku>)
    ensures forall s :: s in r <==> s in skus && IsCandidate(s, families)
    decreases |skus|
  {
    if skus == [] then []
    else
      var init := Candidates(skus[..|skus| - 1], families);
      var last := skus[|skus| - 1];
      assert forall s :: s in skus <==> s in skus[..|skus| - 1] || s == last;
      if IsCandidate(last, families) then init + [last] else init
  }

  /** `sorted(skus, key=lambda s: s.name or "")`. */
  function NameLe(a: Sku, b: Sku): bool {
    StrLe(OrEmpty(a.name), OrEmpty(b.name))
  }

  function InNameOrder(skus: seq<Sku>): seq<Sku> {
    SortBy(skus, NameLe)
  }

  /** zone_flavors as main builds it from the region's listing, the families and the requested zones. */
  function ZoneFlavors(skus: seq<Sku>, families: seq<string>, zones: seq<string>, region: string,
                       retail: (string, bool) -> Fetch): Result<Flavors, Fatal>
  {
    Assemble(Outcomes(InNameOrder(Candidates(skus, families)), region, retail), zones)
  }

  /** The SKU loop of main with its inner zone loop, updating zone_flavors in place. */
  method BuildZoneFlavors(skus: seq<Sku>, families: seq<string>, zones: seq<string>, region: string,
                          retail: (string, bool) -> Fetch) returns (r: Result<Flavors, Fatal>)
    ensures r == ZoneFlavors(skus, families, zones, region, retail)
  {
    var sorted := InNameOrder(Candidates(skus, families));
    ghost var outs := Outcomes(sorted, region, retail);
    var order: seq<string> := [];
    var byZone: map<string, seq<Entry>> := map[];
    for i := 0 to |sorted|
      invariant Assemble(outs[..i], zones) == Ok(Flavors(order, byZone))
    {
      var sku := sorted[i];
      AssembleStep(outs, i, zones);
      var out := SkuOutcome(sku, region, retail);
      if out.Err? {
        AssembleErrorStays(outs, i + 1, zones);
        return Err(out.error);
      }
      if out.value.None? {
        continue;
      }
      order, byZone := AddToZones(order, byZone, zones, out.value.value);
    }
    assert outs[..|outs|] == outs;
    r := Ok(Flavors(order, byZone));
  }

  /** The zone loop of main for one offered size: every zone gets its list, and the zones that offer the size get its entry. */
  method AddToZones(order: seq<string>, byZone: map<string, seq<Entry>>, zones: seq<string>, o: Offer)
    returns (order': seq<string>, byZone': map<string, seq<Entry>>)
    ensures Flavors(order', byZone') == AddOffer(Flavors(order, byZone), zones, o)
  {
    order', byZone' := order, byZone;
    for k := 0 to |zones|
      invariant Flavors(order', byZone') == AddOffer(Flavors(order, byZone), zones[..k], o)
    {
      assert zones[..k + 1][..k] == zones[..k];
      var z := zones[k];
      if z !in byZone' {
        byZone' := byZone'[z := []];
        order' := order' + [z];
      }
      if z !in o.supported {
        continue;
      }
      byZone' := byZone'[z := byZone'[z] + [o.entry]];
    }
    assert zones[..|zones|] == zones;
  }

  /** The body of main's loop for one SKU, up to the zone loop. */
  method SkuOutcome(sku: Sku, region: string, retail: (string, bool) -> Fetch) returns (out: Outcome)
    ensures out == SizeOffer(sku, region, retail)
  {
    var size := OrEmpty(sku.name);
    var supported := SkuSupportedZones(sku.locations, region);
    if supported == [] {
      return Ok(None);
    }
    var mem := MemoryText(sku.capabilities);
    if mem.Err? {
      return Err(BadMemory(size, mem.error));
    }
    var vcpus := VcpuCount(sku.capabilities);
    var ond := Price(retail(size, false), region, size, false);
    var spot := Price(retail(size, true), region, size, true);
    var entry := Entry(size, IntToString(vcpus) + "vCPU-" + Shown(mem.value), vcpus, Shown(mem.value), DecToStrMoney(ond),
                       GetCapability(sku.capabilities, "HyperVGenerations"), ParseGpuInfo(sku.capabilities),
                       SpotInfo(DecToStrMoney(spot), spot.Some?));
    out := Ok(Some(Offer(entry, supported)));
  }

  /** One SKU of the loop, unfolded. */
  lemma {:induction false} AssembleStep(outs: seq<Outcome>, i: nat, zones: seq<string>)
    requires i < |outs|
    ensures var r := Assemble(outs[..i], zones);
      Assemble(outs[..i + 1], zones) ==
        if r.Err? then r
        else match outs[i]
          case Err(e) => Err(e)
          case Ok(None) => r
          case Ok(Some(o)) => Ok(AddOffer(r.value, zones, o))
  {
    assert outs[..i + 1][..i] == outs[..i];
  }

  /** Once the loop has stopped on a fatal size, the rest of the SKUs change nothing. */
  lemma {:induction false} AssembleErrorStays(outs: seq<Outcome>, n: nat, zones: seq<string>)
    requires n <= |outs| && Assemble(outs[..n], zones).Err?
    ensures Assemble(outs, zones) == Assemble(outs[..n], zones)
    decreases |outs|
  {
    if n < |outs| {
      var init := outs[..|outs| - 1];
      assert init[..n] == outs[..n];
      AssembleErrorStays(init, n, zones);
    } else {
      assert outs[..n] == outs;
    }
  }

  // ------------------------------------------------------------ properties

  /** The zone keys are listed once each, in the order kept beside the map. */
  ghost predicate WellFormed(f: Flavors) {
    (forall i, j :: 0 <= i < j < |f.order| ==> f.order[i] != f.order[j]) &&
    (forall z :: z in f.order <==> z in f.byZone)
  }

  lemma {:induction false} TouchSpec(f: Flavors, z: string, o: Offer, y: string, x: Entry)
    requires WellFormed(f)
    ensures WellFormed(Touch(f, z, o))
    ensures y in Touch(f, z, o).byZone <==> y in f.byZone || y == z
    ensures y in Touch(f, z, o).byZone ==>
      (x in Touch(f, z, o).byZone[y] <==> (y in f.byZone && x in f.byZone[y]) || (y == z && x == o.entry && z in o.supported))
    ensures y in f.byZone ==> f.byZone[y] <= Touch(f, z, o).byZone[y]
    ensures f.order <= Touch(f, z, o).order
  {
    var g := if z in f.byZone then f else Flavors(f.order + [z], f.byZone[z := []]);
    assert WellFormed(g);
  }

  /**
   * The zone loop for one size: every requested zone gets a list, and the
   * entry lands in exactly the requested zones the size supports; what was
   * there before stays in front, and the keys stay listed once each.
   */
  lemma {:induction false} AddOfferSpec(f: Flavors, zones: seq<string>, o: Offer, y: string, x: Entry)
    requires WellFormed(f)
    ensures WellFormed(AddOffer(f, zones, o))
    ensures y in AddOffer(f, zones, o).byZone <==> y in f.byZone || y in zones
    ensures y in AddOffer(f, zones, o).byZone ==>
      (x in AddOffer(f, zones, o).byZone[y] <==>
        (y in f.byZone && x in f.byZone[y]) || (y in zones && x == o.entry && y in o.supported))
    ensures y in f.byZone ==> f.byZone[y] <= AddOffer(f, zones, o).byZone[y]
    ensures f.order <= AddOffer(f, zones, o).order
    decreases |zones|
  {
    if zones != [] {
      var init := zones[..|zones| - 1];
      var z := zones[|zones| - 1];
      var g := AddOffer(f, init, o);
      AddOfferSpec(f, init, o, y, x);
      TouchSpec(g, z, o, y, x);
      assert y in zones <==> y in init || y == z;
      if y in f.byZone {
        assert f.byZone[y] <= g.byZone[y];
      }
    }
  }

  /** SKU i is offered and supports zone z with entry x. */
  predicate OffersIn(outs: seq<Outcome>, i: int, z: string, x: Entry) {
    0 <= i < |outs| && outs[i].Ok? && outs[i].value.Some? && outs[i].value.value.entry == x &&
    z in outs[i].value.value.supported
  }

  /** SKU i is offered at all. */
  predicate OfferedAt(outs: seq<Outcome>, i: int) {
    0 <= i < |outs| && outs[i].Ok? && outs[i].value.Some?
  }

  /**
   * What the SKU loop builds, when no size is fatal: the keys are the
   * requested zones if any size is offered and none otherwise, each listed
   * once; an entry is under a zone exactly when some offered size supports
   * that requested zone and has that entry.
   */
  lemma {:induction false} AssembleSpec(outs: seq<Outcome>, zones: seq<string>, y: string, x: Entry)
    requires Assemble(outs, zones).Ok?
    ensures WellFormed(Assemble(outs, zones).value)
    ensures y in Assemble(outs, zones).value.byZone <==> y in zones && exists i :: OfferedAt(outs, i)
    ensures y in Assemble(outs, zones).value.byZone ==>
      (x in Assemble(outs, zones).value.byZone[y] <==> y in zones && exists i :: OffersIn(outs, i, y, x))
    decreases |outs|
  {
    if outs != [] {
      var init := outs[..|outs| - 1];
      var n := |outs| - 1;
      var r := Assemble(init, zones);
      AssembleSpec(init, zones, y, x);
      forall i
        ensures OfferedAt(outs, i) <==> OfferedAt(init, i) || (i == n && OfferedAt(outs, n))
        ensures OffersIn(outs, i, y, x) <==> OffersIn(init, i, y, x) || (i == n && OffersIn(outs, n, y, x))
      {
        if 0 <= i < n {
          assert init[i] == outs[i];
        }
      }
      match outs[n]
      case Err(_) =>
      case Ok(None) =>
      case Ok(Some(o)) =>
        AddOfferSpec(r.value, zones, o, y, x);
        assert OfferedAt(outs, n);
    }
  }

  /** The run is fatal exactly when some SKU is, and then with the first such SKU's error. */
  lemma {:induction false} AssembleErrorIff(outs: seq<Outcome>, zones: seq<string>)
    ensures Assemble(outs, zones).Err? <==> exists i :: 0 <= i < |outs| && outs[i].Err?
    ensures forall i :: (0 <= i < |outs| && outs[i].Err? && (forall j :: 0 <= j < i ==> outs[j].Ok?)) ==>
      Assemble(outs, zones) == Err(outs[i].error)
    decreases |outs|
  {
    if outs != [] {
      var init := outs[..|outs| - 1];
      var n := |outs| - 1;
      AssembleErrorIff(init, zones);
      assert forall i :: 0 <= i < n ==> init[i] == outs[i];
    }
  }

  /** The name order main uses is a total preorder, so the candidates are visited sorted by name. */
  lemma {:induction false} NameLePreorder()
    ensures TotalPreorder(NameLe)
  {
    forall a: Sku, b: Sku
      ensures NameLe(a, b) || NameLe(b, a)
    {
      StrLeTotal(OrEmpty(a.name), OrEmpty(b.name));
    }
    forall a: Sku, b: Sku, c: Sku | NameLe(a, b) && NameLe(b, c)
      ensures NameLe(a, c)
    {
      StrLeTransitive(OrEmpty(a.name), OrEmpty(b.name), OrEmpty(c.name));
    }
  }

  /** main visits exactly the matching virtual-machine SKUs, each as often as listed, sorted by name. */
  lemma {:induction false} VisitedSkus(skus: seq<Sku>, families: seq<string>)
    ensures SortedBy(InNameOrder(Candidates(skus, families)), NameLe)
    ensures multiset(InNameOrder(Candidates(skus, families))) == multiset(Candidates(skus, families))
    ensures forall s :: s in InNameOrder(Candidates(skus, families)) <==> s in skus && IsCandidate(s, families)
  {
    NameLePreorder();
    SortBySorted(Candidates(skus, families), NameLe);
    SortByPermutes(Candidates(skus, families), NameLe);
    var c := Candidates(skus, families);
    forall s
      ensures s in InNameOrder(c) <==> s in c
    {
      assert s in InNameOrder(c) <==> s in multiset(InNameOrder(c));
      assert s in c <==> s in multiset(c);
    }
  }

  /**
   * The property main promises: with no fatal size, an entry is listed under
   * a zone only when that zone was requested and a matching virtual machine
   * size whose locations in the region name the zone has that entry.
   */
  lemma {:induction false} EntryOnlyInSupportedZones(skus: seq<Sku>, families: seq<string>, zones: seq<string>, region: string,
                                                     retail: (string, bool) -> Fetch, y: string, x: Entry)
    requires ZoneFlavors(skus, families, zones, region, retail).Ok?
    requires y in ZoneFlavors(skus, families, zones, region, retail).value.byZone
    requires x in ZoneFlavors(skus, families, zones, region, retail).value.byZone[y]
    ensures y in zones
    ensures exists s :: (s in skus && IsCandidate(s, families) && SizeOffer(s, region, retail).Ok? &&
                         SizeOffer(s, region, retail).value.Some? && SizeOffer(s, region, retail).value.value.entry == x &&
                         exists k :: 0 <= k < |s.locations| && InRegion(s.locations[k], region) && y in s.locations[k].zones)
  {
    var sorted := InNameOrder(Candidates(skus, families));
    var outs := Outcomes(sorted, region, retail);
    AssembleSpec(outs, zones, y, x);
    var i :| OffersIn(outs, i, y, x);
    var s := sorted[i];
    VisitedSkus(skus, families);
    assert s in sorted;
    SupportedZonesOfOffer(s, region, retail, y);
  }

  /** The zones an offered size lists are the ones its locations in the region name. */
  lemma {:induction false} SupportedZonesOfOffer(s: Sku, region: string, retail: (string, bool) -> Fetch, y: string)
    requires SizeOffer(s, region, retail).Ok? && SizeOffer(s, region, retail).value.Some?
    ensures y in SizeOffer(s, region, retail).value.value.supported <==>
      exists k :: 0 <= k < |s.locations| && InRegion(s.locations[k], region) && y in s.locations[k].zones
  {
    SupportedZonesSpec(s.locations, region, y);
  }

  /**
   * Conversely, with no fatal size, every offered matching size has its
   * entry under every requested zone it supports; with none offered the
   * map is empty.
   */
  lemma {:induction false} SupportedZoneGetsEntry(skus: seq<Sku>, families: seq<string>, zones: seq<string>, region: string,
                                                  retail: (string, bool) -> Fetch, s: Sku, y: string)
    requires ZoneFlavors(skus, families, zones, region, retail).Ok?
    requires s in skus && IsCandidate(s, families)
    requires SizeOffer(s, region, retail).Ok? && SizeOffer(s, region, retail).value.Some?
    requires y in zones && y in SizeOffer(s, region, retail).value.value.supported
    ensures y in ZoneFlavors(skus, families, zones, region, retail).value.byZone
    ensures SizeOffer(s, region, retail).value.value.entry in ZoneFlavors(skus, families, zones, region, retail).value.byZone[y]
  {
    var sorted := InNameOrder(Candidates(skus, families));
    var outs := Outcomes(sorted, region, retail);
    VisitedSkus(skus, families);
    var i :| 0 <= i < |sorted| && sorted[i] == s;
    OfferedEntryListed(outs, zones, i, y);
  }

  /** An offered size's entry is under each requested zone it supports. */
  lemma {:induction false} OfferedEntryListed(outs: seq<Outcome>, zones: seq<string>, i: int, y: string)
    requires Assemble(outs, zones).Ok? && OfferedAt(outs, i) && y in zones && y in outs[i].value.value.supported
    ensures y in Assemble(outs, zones).value.byZone && outs[i].value.value.entry in Assemble(outs, zones).value.byZone[y]
  {
    var x := outs[i].value.value.entry;
    assert OffersIn(outs, i, y, x);
    AssembleSpec(outs, zones, y, x);
  }

  /** main stops exactly when some matching size with zones in the region has an unreadable memory value. */
  lemma {:induction false} ZoneFlavorsErrorIff(skus: seq<Sku>, families: seq<string>, zones: seq<string>, region: string,
                                               retail: (string, bool) -> Fetch)
    ensures ZoneFlavors(skus, families, zones, region, retail).Err? <==>
      exists s :: s in skus && IsCandidate(s, families) && SortedSet(CollectedZones(s.locations, region)) != [] &&
        MemoryText(s.capabilities).Err?
  {
    var sorted := InNameOrder(Candidates(skus, families));
    var outs := Outcomes(sorted, region, retail);
    AssembleErrorIff(outs, zones);
    VisitedSkus(skus, families);
    forall s | s in sorted
      ensures SizeOffer(s, region, retail).Err? <==> SortedSet(CollectedZones(s.locations, region)) != [] && MemoryText(s.capabilities).Err?
    {
      SizeOfferSpec(s, region, retail);
    }
    if ZoneFlavors(skus, families, zones, region, retail).Err? {
      var i :| 0 <= i < |outs| && outs[i].Err?;
      assert sorted[i] in sorted;
    } else {
      forall s | s in skus && IsCandidate(s, families)
        ensures !(SortedSet(CollectedZones(s.locations, region)) != [] && MemoryText(s.capabilities).Err?)
      {
        var i :| 0 <= i < |sorted| && sorted[i] == s;
        assert !outs[i].Err?;
      }
    }
  }
}
