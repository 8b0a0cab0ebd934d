// image-finder/az.py: for each requested zone, the newest Canonical Ubuntu
// image in an Azure region whose name matches the zone's mapped label.
// The Azure SDK's listing is an input (a tree of offers, SKUs and
// versions), and the case-insensitive regular-expression search of
// re.search is an abstract predicate `search(pattern, text)`.
module ImageFinderAz {
  import opened Wrappers
  import opened Strings
  import opened Numbers
  import opened Ordering
  import LabelMapper

  // ------------------------------------------------------------ versions

  /** One dot-separated piece of a version: an int when int() accepts it, the text otherwise. */
  datatype Part = Num(n: int) | Text(t: string)

  function PartOf(p: string): Part {
    match PyInt(p)
    case Some(n) => Num(n)
    case None => Text(p)
  }

  /** The pieces converted one by one. */
  function PartsOf(pieces: seq<string>): (r: seq<Part>)
    ensures |r| == |pieces|
    decreases |pieces|
  {
    if pieces == [] then [] else PartsOf(pieces[..|pieces| - 1]) + [PartOf(pieces[|pieces| - 1])]
  }

  lemma {:induction false} PartsOfAt(pieces: seq<string>)
    ensures forall i :: 0 <= i < |pieces| ==> PartsOf(pieces)[i] == PartOf(pieces[i])
    decreases |pieces|
  {
    if pieces != [] {
      var init := pieces[..|pieces| - 1];
      PartsOfAt(init);
      assert forall i :: 0 <= i < |init| ==> init[i] == pieces[i];
    }
  }

  /** parse_int_parts as a value. */
  function IntParts(version: string): seq<Part> {
    PartsOf(Split(version, '.'))
  }

  /** parse_int_parts: the loop that appends each piece, as an int where int() accepts it. */
  method ParseIntParts(version: string) returns (parts: seq<Part>)
    ensures parts == IntParts(version)
  {
    var pieces := Split(version, '.');
    parts := [];
    for i := 0 to |pieces|
      invariant parts == PartsOf(pieces[..i])
    {
      var p := pieces[i];
      assert pieces[..i + 1][..i] == pieces[..i];
      var n := PyInt(p);
      if n.Some? {
        parts := parts + [Num(n.value)];
      } else {
        parts := parts + [Text(p)];
      }
    }
    assert pieces[..|pieces|] == pieces;
  }

  /** A version written as dotted decimal numbers reads back as exactly those numbers. */
  lemma {:induction false} IntPartsOfNumbers(ns: seq<nat>)
    requires |ns| >= 1
    ensures var parts := IntParts(Join(seq(|ns|, i requires 0 <= i < |ns| => NatToString(ns[i])), "."));
      |parts| == |ns| && forall i :: 0 <= i < |ns| ==> parts[i] == Num(ns[i])
  {
    var texts := seq(|ns|, i requires 0 <= i < |ns| => NatToString(ns[i]));
    forall i | 0 <= i < |ns|
      ensures '.' !in texts[i] && PartOf(texts[i]) == Num(ns[i])
    {
      PyIntOfIntToString(ns[i]);
      assert IsDigit(texts[i][0]);
    }
    SplitJoin(texts, '.');
    PartsOfAt(texts);
  }

  /**
   * Python's order on the pieces: ints by value, strings by code points.
   * An int and a string are incomparable in Python (a TypeError); here
   * every int comes before every string.
   */
  predicate PartLe(a: Part, b: Part) {
    match (a, b)
    case (Num(x), Num(y)) => x <= y
    case (Text(x), Text(y)) => StrLe(x, y)
    case (Num(_), Text(_)) => true
    case (Text(_), Num(_)) => false
  }

  /** Python's list order: at the first differing piece, the smaller one; otherwise the shorter list first. */
  predicate PartsLe(a: seq<Part>, b: seq<Part>)
    decreases |a|
  {
    if a == [] then true
    else if b == [] then false
    else if a[0] != b[0] then PartLe(a[0], b[0])
    else PartsLe(a[1..], b[1..])
  }

  lemma {:induction false} PartLeTotal(a: Part, b: Part)
    ensures PartLe(a, b) || PartLe(b, a)
  {
    if a.Text? && b.Text? {
      StrLeTotal(a.t, b.t);
    }
  }

  lemma {:induction false} PartLeTransitive(a: Part, b: Part, c: Part)
    requires PartLe(a, b) && PartLe(b, c)
    ensures PartLe(a, c)
  {
    if a.Text? && b.Text? && c.Text? {
      StrLeTransitive(a.t, b.t, c.t);
    }
  }

  lemma {:induction false} PartLeAntisymmetric(a: Part, b: Part)
    requires PartLe(a, b) && PartLe(b, a)
    ensures a == b
  {
    if a.Text? && b.Text? {
      StrLeAntisymmetric(a.t, b.t);
    }
  }

  lemma {:induction false} PartsLeTotal(a: seq<Part>, b: seq<Part>)
    ensures PartsLe(a, b) || PartsLe(b, a)
    decreases |a|
  {
    if a != [] && b != [] {
      if a[0] != b[0] {
        PartLeTotal(a[0], b[0]);
      } else {
        PartsLeTotal(a[1..], b[1..]);
      }
    }
  }

  lemma {:induction false} PartsLeTransitive(a: seq<Part>, b: seq<Part>, c: seq<Part>)
    requires PartsLe(a, b) && PartsLe(b, c)
    ensures PartsLe(a, c)
    decreases |a|
  {
    if a != [] && b != [] && c != [] {
      if a[0] == b[0] && b[0] == c[0] {
        PartsLeTransitive(a[1..], b[1..], c[1..]);
      } else if a[0] != b[0] && b[0] != c[0] {
        PartLeTransitive(a[0], b[0], c[0]);
        if a[0] == c[0] {
          PartLeAntisymmetric(a[0], b[0]);
        }
      }
    }
  }

  // -------------------------------------------------------------- images

  /** One entry of the flat image list. */
  datatype Image = Image(publisher: string, offer: string, sku: string, version: string, urn: string)

  function Parts(img: Image): seq<Part> { IntParts(img.version) }

  /** The sort key with reverse=True: x goes before y when y's version is not above x's. */
  predicate NewerFirst(x: Image, y: Image) { PartsLe(Parts(y), Parts(x)) }

  lemma {:induction false} NewerFirstPreorder()
    ensures TotalPreorder(NewerFirst)
  {
    forall a: Image, b: Image
      ensures NewerFirst(a, b) || NewerFirst(b, a)
    {
      PartsLeTotal(Parts(a), Parts(b));
    }
    forall a: Image, b: Image, c: Image | NewerFirst(a, b) && NewerFirst(b, c)
      ensures NewerFirst(a, c)
    {
      PartsLeTransitive(Parts(c), Parts(b), Parts(a));
    }
  }

  /** The text the pattern is searched in: urn, offer and sku separated by spaces. */
  function Hay(img: Image): string { img.urn + " " + img.offer + " " + img.sku }

  /** The lowercased urn:offer:sku that arch_ok inspects. */
  function ArchText(img: Image): string { Lower(img.urn + ":" + img.offer + ":" + img.sku) }

  predicate MentionsArm(img: Image) {
    Contains(ArchText(img), "arm") || Contains(ArchText(img), "aarch64")
  }

  /** arch_ok for an already lowercased architecture hint. */
  predicate ArchOk(arch: string, img: Image) {
    if arch in {"", "any", "auto"} then true
    else if arch == "arm64" then MentionsArm(img)
    else if arch in {"x64", "amd64", "x86", "x86_64"} then !MentionsArm(img)
    else true
  }

  /**
   * The architecture filter splits the images: every image passes exactly
   * one of arm64 and x86 (and its aliases), and every other hint lets all
   * images through.
   */
  lemma {:induction false} ArchOkSplits(arch: string, img: Image)
    ensures ArchOk("arm64", img) <==> !ArchOk("x86", img)
    ensures arch in {"x64", "amd64", "x86", "x86_64"} ==> (ArchOk(arch, img) <==> ArchOk("x86", img))
    ensures arch != "arm64" && arch !in {"x64", "amd64", "x86", "x86_64"} ==> ArchOk(arch, img)
  {
  }

  predicate Matches(img: Image, pattern: string, search: (string, string) -> bool, arch: string) {
    search(pattern, Hay(img)) && ArchOk(arch, img)
  }

  /** The candidates, in input order. */
  function Candidates(images: seq<Image>, pattern: string, search: (string, string) -> bool, arch: string): (c: seq<Image>)
    ensures forall x :: x in c ==> x in images && Matches(x, pattern, search, arch)
    decreases |images|
  {
    if images == [] then []
    else
      var init := Candidates(images[..|images| - 1], pattern, search, arch);
      var img := images[|images| - 1];
      if Matches(img, pattern, search, arch) then init + [img] else init
  }

  /** There is a candidate exactly when some image matches both the pattern and the architecture. */
  lemma {:induction false} CandidatesEmpty(images: seq<Image>, pattern: string, search: (string, string) -> bool, arch: string)
    ensures Candidates(images, pattern, search, arch) == [] <==>
      forall i :: 0 <= i < |images| ==> !Matches(images[i], pattern, search, arch)
    decreases |images|
  {
    if images != [] {
      var init := images[..|images| - 1];
      CandidatesEmpty(init, pattern, search, arch);
      assert forall i :: 0 <= i < |init| ==> init[i] == images[i];
    }
  }

  /** The position of the chosen candidate: the first of those with the highest version. */
  function BestIndex(c: seq<Image>): (i: nat)
    requires c != []
    ensures i < |c|
    ensures forall j :: 0 <= j < |c| ==> PartsLe(Parts(c[j]), Parts(c[i]))
    ensures forall j :: 0 <= j < i ==> !PartsLe(Parts(c[i]), Parts(c[j]))
  {
    NewerFirstPreorder();
    FirstLeastSpec(c, NewerFirst);
    FirstLeast(c, NewerFirst)
  }

  /** What choose_best_image returns: the first candidate of highest version, if there is a candidate. */
  function Best(images: seq<Image>, pattern: string, search: (string, string) -> bool, arch: string): Option<Image> {
    var c := Candidates(images, pattern, search, arch);
    if c == [] then None else Some(c[BestIndex(c)])
  }

  /**
   * choose_best_image returns nothing exactly when no image matches;
   * otherwise a matching image whose version is at least every other
   * candidate's, and strictly above those of the candidates before it.
   */
  lemma {:induction false} BestSpec(images: seq<Image>, pattern: string, search: (string, string) -> bool, arch: string)
    ensures var r := Best(images, pattern, search, arch);
      r.None? <==> forall i :: 0 <= i < |images| ==> !Matches(images[i], pattern, search, arch)
    ensures var r := Best(images, pattern, search, arch);
      var c := Candidates(images, pattern, search, arch);
      r.Some? ==>
        r.value in images && Matches(r.value, pattern, search, arch) &&
        (forall j :: 0 <= j < |c| ==> PartsLe(Parts(c[j]), Parts(r.value))) &&
        exists i :: 0 <= i < |c| && c[i] == r.value && forall j :: 0 <= j < i ==> !PartsLe(Parts(c[i]), Parts(c[j]))
  {
    CandidatesEmpty(images, pattern, search, arch);
    var c := Candidates(images, pattern, search, arch);
    if c != [] {
      var i := BestIndex(c);
      assert c[i] in c;
    }
  }

  /** choose_best_image: collect the candidates, sort them newest first (a stable sort) and take the head. */
  method ChooseBestImage(images: seq<Image>, pattern: string, search: (string, string) -> bool, archHint: string)
    returns (best: Option<Image>)
    ensures best == Best(images, pattern, search, Lower(archHint))
  {
    var arch := Lower(archHint);
    var candidates := [];
    for i := 0 to |images|
      invariant candidates == Candidates(images[..i], pattern, search, arch)
    {
      var img := images[i];
      assert images[..i + 1][..i] == images[..i];
      if search(pattern, Hay(img)) && ArchOk(arch, img) {
        candidates := candidates + [img];
      }
    }
    assert images[..|images|] == images;
    if candidates == [] {
      return None;
    }
    NewerFirstPreorder();
    var sorted := SortBy(candidates, NewerFirst);
    SortByHead(candidates, NewerFirst);
    best := Some(sorted[0]);
  }

  // ------------------------------------------------------------- listing

  /** is_ubuntu_offer. */
  predicate IsUbuntuOffer(name: Option<string>) {
    if name.None? || name.value == "" then false
    else
      var n := Lower(name.value);
      if Contains(n, "pro") then false
      else if Contains(n, "ubuntu") then true
      else n in {"ubuntu", "ubuntuserver"}
  }

  /** An offer is kept exactly when its name is non-empty and, lowercased, mentions "ubuntu" but not "pro". */
  lemma {:induction false} IsUbuntuOfferIff(name: Option<string>)
    ensures IsUbuntuOffer(name) <==>
      name.Some? && name.value != "" && Contains(Lower(name.value), "ubuntu") && !Contains(Lower(name.value), "pro")
  {
    assert Contains("ubuntu", "ubuntu") && Contains("ubuntuserver", "ubuntu");
  }

  function Urn(publisher: string, offer: string, sku: string, version: string): string {
    publisher + ":" + offer + ":" + sku + ":" + version
  }

  const Publisher := "Canonical"

  /** What the SDK returns: a SKU's name and its version names, an offer's name and its SKUs. */
  datatype SkuListing = SkuListing(name: Option<string>, versions: seq<Option<string>>)
  datatype OfferListing = OfferListing(name: Option<string>, skus: seq<SkuListing>)

  function VersionImages(offer: string, sku: string, versions: seq<Option<string>>): seq<Image>
    decreases |versions|
  {
    if versions == [] then []
    else
      var v := versions[0];
      (if v.Some? && v.value != "" then [Image(Publisher, offer, sku, v.value, Urn(Publisher, offer, sku, v.value))] else []) +
      VersionImages(offer, sku, versions[1..])
  }

  function SkuImages(offer: string, skus: seq<SkuListing>): seq<Image>
    decreases |skus|
  {
    if skus == [] then []
    else
      var s := skus[0];
      (if s.name.Some? && s.name.value != "" then VersionImages(offer, s.name.value, s.versions) else []) +
      SkuImages(offer, skus[1..])
  }

  /** list_images_via_sdk: the flat list, Ubuntu offers only, skipping unnamed SKUs and versions. */
  function ListImages(offers: seq<OfferListing>): seq<Image>
    decreases |offers|
  {
    if offers == [] then []
    else
      var o := offers[0];
      (if IsUbuntuOffer(o.name) then SkuImages(o.name.value, o.skus) else []) + ListImages(offers[1..])
  }

  /** A listed image: Canonical's, from an Ubuntu offer, with a named SKU and version, and the URN built from the four. */
  predicate Listed(img: Image) {
    img.publisher == Publisher && IsUbuntuOffer(Some(img.offer)) && img.sku != "" && img.version != "" &&
    img.urn == Urn(img.publisher, img.offer, img.sku, img.version)
  }

  lemma {:induction false} VersionImagesListed(offer: string, sku: string, versions: seq<Option<string>>)
    requires IsUbuntuOffer(Some(offer)) && sku != ""
    ensures forall x :: x in VersionImages(offer, sku, versions) ==> Listed(x)
    decreases |versions|
  {
    if versions != [] {
      VersionImagesListed(offer, sku, versions[1..]);
    }
  }

  lemma {:induction false} SkuImagesListed(offer: string, skus: seq<SkuListing>)
    requires IsUbuntuOffer(Some(offer))
    ensures forall x :: x in SkuImages(offer, skus) ==> Listed(x)
    decreases |skus|
  {
    if skus != [] {
      if skus[0].name.Some? && skus[0].name.value != "" {
        VersionImagesListed(offer, skus[0].name.value, skus[0].versions);
      }
      SkuImagesListed(offer, skus[1..]);
    }
  }

  /** Every image of the listing is well formed, its URN being publisher:offer:sku:version. */
  lemma {:induction false} ListImagesListed(offers: seq<OfferListing>)
    ensures forall x :: x in ListImages(offers) ==> Listed(x)
    decreases |offers|
  {
    if offers != [] {
      if IsUbuntuOffer(offers[0].name) {
        SkuImagesListed(offers[0].name.value, offers[0].skus);
      }
      ListImagesListed(offers[1..]);
    }
  }

  // --------------------------------------------------------------- zones

  /** "V2" when the lowercased SKU mentions gen2, "V1" otherwise. */
  function Generation(sku: string): string {
    if Contains(Lower(sku), "gen2") then "V2" else "V1"
  }

  /** A requested zone: its nameLabel and zone, each absent or null as None. */
  datatype ZoneIn = ZoneIn(nameLabel: Option<string>, zone: Option<string>)

  /** An output entry; name and generation are None for a zone without an image. */
  datatype ZoneOut = ZoneOut(nameLabel: string, zone: string, name: Option<string>, generation: Option<string>)

  function OrEmpty(s: Option<string>): string { if s.Some? then s.value else "" }

  /** The architecture hint main passes. */
  const X86 := "x86"

  lemma {:induction false} LowerX86()
    ensures Lower(X86) == X86
  {
    var l := Lower(X86);
    assert l[0] == 'x' && l[1] == '8' && l[2] == '6';
  }

  /** The entry for a zone whose label mapped to `mapped` (or the mapping's error). */
  function ZoneOutFor(nameLabel: string, zone: string, mapped: Result<map<string, string>, LabelMapper.MapError>,
                      images: seq<Image>, search: (string, string) -> bool): Result<ZoneOut, LabelMapper.MapError>
    requires mapped.Ok? ==> "azure" in mapped.value
  {
    match mapped
    case Err(e) => Err(e)
    case Ok(m) =>
      match Best(images, m["azure"], search, Lower(X86))
      case None => Ok(ZoneOut(nameLabel, zone, None, None))
      case Some(img) =>
        Ok(ZoneOut(nameLabel, zone, if img.urn != "" then Some(img.urn) else None, Some(Generation(img.sku))))
  }

  /** One iteration of main's zone loop: its entry, or the ValueError of map_label. */
  function ZoneResult(z: ZoneIn, images: seq<Image>, search: (string, string) -> bool): Result<ZoneOut, LabelMapper.MapError> {
    var nameLabel := Trim(OrEmpty(z.nameLabel));
    ZoneOutFor(nameLabel, Trim(OrEmpty(z.zone)), LabelMapper.MapLabel(LabelMapper.GpuSuffix, nameLabel), images, search)
  }

  /**
   * A zone's entry carries its stripped nameLabel and zone; it has a
   * generation exactly when some x86 image matches the zone's Azure name,
   * and the generation is V2 exactly when the chosen SKU mentions gen2.
   */
  lemma {:induction false} ZoneEntry(nameLabel: string, zone: string, m: map<string, string>, images: seq<Image>, search: (string, string) -> bool)
    requires "azure" in m
    ensures var o := ZoneOutFor(nameLabel, zone, Ok(m), images, search);
      var best := Best(images, m["azure"], search, X86);
      o.Ok? && o.value.nameLabel == nameLabel && o.value.zone == zone &&
      (o.value.generation.None? <==> forall i :: 0 <= i < |images| ==> !Matches(images[i], m["azure"], search, X86)) &&
      (o.value.generation.None? ==> o.value.name.None?) &&
      (best.Some? ==>
        (o.value.generation == Some("V2") <==> Contains(Lower(best.value.sku), "gen2")) &&
        (best.value.urn != "" ==> o.value.name == Some(best.value.urn)))
  {
    LowerX86();
    BestSpec(images, m["azure"], search, X86);
  }

  /** Every zone's result, in order. */
  function ZoneResults(zones: seq<ZoneIn>, images: seq<Image>, search: (string, string) -> bool): (r: seq<Result<ZoneOut, LabelMapper.MapError>>)
    ensures |r| == |zones|
  {
    MapSeq(zones, z => ZoneResult(z, images, search))
  }

  /** One more zone adds its result at the end, and results of a prefix are a prefix of the results. */
  lemma {:induction false} ZoneResultsStep(zones: seq<ZoneIn>, k: nat, images: seq<Image>, search: (string, string) -> bool)
    requires k < |zones|
    ensures ZoneResults(zones[..k + 1], images, search) == ZoneResults(zones[..k], images, search) + [ZoneResult(zones[k], images, search)]
    ensures ZoneResults(zones[..k + 1], images, search) == ZoneResults(zones, images, search)[..k + 1]
  {
    assert zones[..k + 1][..k] == zones[..k];
    MapSeqPrefix(zones, k + 1, z => ZoneResult(z, images, search));
  }

  /** Whether some zone found an image: the loop's any_match. */
  predicate AnyMatch(outs: seq<ZoneOut>)
    decreases |outs|
  {
    outs != [] && (AnyMatch(outs[..|outs| - 1]) || outs[|outs| - 1].generation.Some?)
  }

  lemma {:induction false} AnyMatchSnoc(outs: seq<ZoneOut>, e: ZoneOut)
    ensures AnyMatch(outs + [e]) <==> AnyMatch(outs) || e.generation.Some?
  {
    assert (outs + [e])[..|outs|] == outs;
  }

  lemma {:induction false} AnyMatchIff(outs: seq<ZoneOut>)
    ensures AnyMatch(outs) <==> exists i :: 0 <= i < |outs| && outs[i].generation.Some?
    decreases |outs|
  {
    if outs != [] {
      var init := outs[..|outs| - 1];
      AnyMatchIff(init);
      assert forall i :: 0 <= i < |init| ==> init[i] == outs[i];
    }
  }

  /** The decoded INPUT_JSON: its region and its zones (None when zones is not a list). */
  datatype Payload = Payload(region: Option<string>, zones: Option<seq<ZoneIn>>)

  /** The decoded AZ_CONFIG_JSON. */
  datatype AzConfig = AzConfig(clientId: Option<string>, tenantId: Option<string>, clientSecret: Option<string>, subscriptionId: Option<string>)

  datatype Output = Output(region: string, zones: seq<ZoneOut>)

  /** The exit code, and the document written when the script gets that far. */
  datatype Exit = Exit(code: int, output: Option<Output>)

  /** The end of main: the first ValueError (uncaught, code 1), or the output and code 4 or 0. */
  function Finish(region: string, rs: seq<Result<ZoneOut, LabelMapper.MapError>>): Exit {
    match AllOk(rs)
    case Err(_) => Exit(1, None)
    case Ok(outs) => Exit(if AnyMatch(outs) then 0 else 4, Some(Output(region, outs)))
  }

  /**
   * main: the exit code and the output. payload and config are None when
   * the variable is missing or not JSON (a missing AZ_CONFIG_JSON reads as
   * an empty object); listing is None when the SDK fails.
   */
  function Run(payload: Option<Payload>, config: Option<AzConfig>, listing: Option<seq<OfferListing>>,
               search: (string, string) -> bool): Exit {
    if payload.None? then Exit(2, None)
    else
      var p := payload.value;
      if p.region.None? || p.region.value == "" || p.zones.None? then Exit(2, None)
      else if config.None? then Exit(2, None)
      else
        var c := config.value;
        if Trim(OrEmpty(c.clientId)) == "" || Trim(OrEmpty(c.tenantId)) == "" || Trim(OrEmpty(c.clientSecret)) == "" then
          Exit(5, None)
        else if Trim(OrEmpty(c.subscriptionId)) == "" then Exit(8, None)
        else if listing.None? then Exit(6, None)
        else Finish(p.region.value, ZoneResults(p.zones.value, ListImages(listing.value), search))
  }

  /**
   * Once the zone loop is reached, the script writes one entry per
   * requested zone, in order, and exits 4 exactly when no zone found an
   * image, 0 otherwise; it writes nothing and ends with code 1 exactly when
   * some zone's label does not map.
   */
  lemma {:induction false} FinishOutput(region: string, rs: seq<Result<ZoneOut, LabelMapper.MapError>>)
    ensures var e := Finish(region, rs);
      (e.code == 1 <==> exists i :: 0 <= i < |rs| && rs[i].Err?) &&
      (e.code == 1 <==> e.output.None?) &&
      (e.output.Some? ==>
        var outs := e.output.value.zones;
        e.output.value.region == region && |outs| == |rs| &&
        (forall i :: 0 <= i < |rs| ==> rs[i] == Ok(outs[i])) &&
        (e.code == 4 <==> forall i :: 0 <= i < |outs| ==> outs[i].generation.None?) &&
        (e.code == 0 || e.code == 4))
  {
    AllOkValues(rs);
    if AllOk(rs).Ok? {
      AnyMatchIff(AllOk(rs).value);
    }
  }

  /** The checks before the zone loop, in order: usage (2), then credentials (5), then the subscription (8), then the SDK (6). */
  lemma {:induction false} RunChecks(payload: Option<Payload>, config: Option<AzConfig>, listing: Option<seq<OfferListing>>,
                  search: (string, string) -> bool)
    ensures var e := Run(payload, config, listing, search);
      (payload.None? || payload.value.region.None? || payload.value.region == Some("") || payload.value.zones.None? ==>
        e == Exit(2, None)) &&
      (e.code !in {2, 5, 6, 8} ==>
        payload.Some? && payload.value.zones.Some? && config.Some? && listing.Some? &&
        Trim(OrEmpty(config.value.subscriptionId)) != "" &&
        e == Finish(payload.value.region.value, ZoneResults(payload.value.zones.value, ListImages(listing.value), search)))
  {
    var e := Run(payload, config, listing, search);
    if e.code !in {2, 5, 6, 8} {
      assert payload.Some?;
    }
  }

  /** One iteration of the zone loop. */
  method FindZone(z: ZoneIn, images: seq<Image>, search: (string, string) -> bool)
    returns (r: Result<ZoneOut, LabelMapper.MapError>)
    ensures r == ZoneResult(z, images, search)
  {
    var nameLabel := Trim(OrEmpty(z.nameLabel));
    var zone := Trim(OrEmpty(z.zone));
    var mapped := LabelMapper.MapLabel(LabelMapper.GpuSuffix, nameLabel);
    if mapped.Err? {
      return Err(mapped.error);
    }
    var pattern := mapped.value["azure"];
    var best := ChooseBestImage(images, pattern, search, X86);
    if best.None? {
      return Ok(ZoneOut(nameLabel, zone, None, None));
    }
    var urn := best.value.urn;
    var generation := if Contains(Lower(best.value.sku), "gen2") then "V2" else "V1";
    r := Ok(ZoneOut(nameLabel, zone, if urn != "" then Some(urn) else None, Some(generation)));
  }

  /** main, with its zone loop appending to out_zones. */
  method FindImages(payload: Option<Payload>, config: Option<AzConfig>, listing: Option<seq<OfferListing>>,
                    search: (string, string) -> bool) returns (e: Exit)
    ensures e == Run(payload, config, listing, search)
  {
    if payload.None? {
      return Exit(2, None);
    }
    var location := payload.value.region;
    var zones := payload.value.zones;
    if location.None? || location.value == "" || zones.None? {
      return Exit(2, None);
    }
    if config.None? {
      return Exit(2, None);
    }
    var c := config.value;
    if Trim(OrEmpty(c.clientId)) == "" || Trim(OrEmpty(c.tenantId)) == "" || Trim(OrEmpty(c.clientSecret)) == "" {
      return Exit(5, None);
    }
    if Trim(OrEmpty(c.subscriptionId)) == "" {
      return Exit(8, None);
    }
    if listing.None? {
      return Exit(6, None);
    }
    e := ZoneLoop(location.value, zones.value, ListImages(listing.value), search);
  }

  /** The zone loop of main and its exit. */
  method ZoneLoop(location: string, zs: seq<ZoneIn>, images: seq<Image>, search: (string, string) -> bool) returns (e: Exit)
    ensures e == Finish(location, ZoneResults(zs, images, search))
  {
    var anyMatch := false;
    var outZones: seq<ZoneOut> := [];
    for i := 0 to |zs|
      invariant AllOk(ZoneResults(zs[..i], images, search)) == Ok(outZones)
      invariant anyMatch == AnyMatch(outZones)
    {
      ghost var before := ZoneResults(zs[..i], images, search);
      ZoneResultsStep(zs, i, images, search);
      var r := FindZone(zs[i], images, search);
      assert (before + [r])[..i] == before;
      if r.Err? {
        AllOkPrefixErr(ZoneResults(zs, images, search), i + 1);
        return Exit(1, None);
      }
      var entry := r.value;
      if entry.generation.Some? {
        anyMatch := true;
      }
      AnyMatchSnoc(outZones, entry);
      outZones := outZones + [entry];
    }
    assert zs[..|zs|] == zs;
    e := Exit(if anyMatch then 0 else 4, Some(Output(location, outZones)));
  }
}
