// optimizer-helper/vservices/vservices.go: the virtual services a
// cluster offers, collected from provider-profile ConfigMaps: compute
// profiles from flavors.yaml, managed Kubernetes from managed-k8s.yaml and
// bare-metal devices from worker. The Kubernetes listing and the YAML
// decoding are inputs (already decoded records); prices are read exactly
// as rationals.
module VServices {
  import opened Wrappers
  import opened Strings
  import opened Numbers

  // ---------------------------------------------------------- parseAmount

  datatype AmountError = NoNumericContent | NotANumber(text: string)

  predicate Parenthesised(s: string) {
    |s| >= 2 && s[0] == '(' && s[|s| - 1] == ')'
  }

  /** Every `$` and `,` deleted, then white space trimmed. */
  function StripCurrency(s: string): string {
    TrimSpace(ReplaceAll(ReplaceAll(s, "$", ""), ",", ""))
  }

  /** strconv.ParseFloat on what is left, read as an exact rational (plain decimal notation). */
  function ReadAmount(t: string): Result<real, AmountError> {
    if t == "" then Err(NoNumericContent)
    else
      match DecimalReading(t)
      case None => Err(NotANumber(t))
      case Some(v) => Ok(v)
  }

  /** parseAmount: parentheses around the trimmed text negate the amount; `$` and `,` are ignored. */
  function ParseAmount(s: string): Result<real, AmountError> {
    var t := TrimSpace(s);
    if Parenthesised(t) then
      match ReadAmount(StripCurrency(t[1..|t| - 1]))
      case Err(e) => Err(e)
      case Ok(v) => Ok(-v)
    else ReadAmount(StripCurrency(t))
  }

  /**
   * An amount in parentheses is the negated amount, for any text that is
   * trimmed and not itself in parentheses; the error, if any, is the same.
   */
  lemma {:induction false} ParseAmountParens(t: string)
    requires TrimSpace(t) == t && !Parenthesised(t)
    ensures var r := ParseAmount("(" + t + ")");
      (r.Ok? <==> ParseAmount(t).Ok?) &&
      (r.Ok? ==> r.value == -ParseAmount(t).value) &&
      (r.Err? ==> r.error == ParseAmount(t).error)
  {
    var s := "(" + t + ")";
    assert s[0] == '(' && s[|s| - 1] == ')';
    TrimSpaceNoSpace(s);
    assert s[1..|s| - 1] == t;
  }

  /** No `$` or `,` survives the clean-up. */
  lemma {:induction false} StripCurrencyClean(s: string)
    ensures '$' !in StripCurrency(s) && ',' !in StripCurrency(s)
  {
    var a := ReplaceAll(s, "$", "");
    var b := ReplaceAll(a, ",", "");
    RemoveCharGone(s, '$');
    RemoveCharGone(a, ',');
    assert '$' !in b by {
      RemoveKeepsAbsent(a, ',', '$');
    }
    TrimChars(b);
  }

  /** Deleting one character never brings in another. */
  lemma {:induction false} RemoveKeepsAbsent(s: string, c: char, d: char)
    requires d !in s
    ensures d !in ReplaceAll(s, [c], "")
    decreases |s|
  {
    if |s| > 0 {
      assert [c] <= s <==> s[0] == c;
      RemoveKeepsAbsent(s[1..], c, d);
    }
  }

  /** Trimming keeps only characters of the original. */
  lemma {:induction false} TrimChars(s: string)
    ensures forall c :: c in TrimSpace(s) ==> c in s
  {
    var i := SkipGoSpaces(s, 0);
    var j := BackGoSpaces(s, i, |s|);
    assert TrimSpace(s) == s[i..j];
    assert forall c :: c in s[i..j] ==> c in s;
  }

  /** The error "no numeric content" is given exactly when nothing is left after the clean-up. */
  lemma {:induction false} NoNumericContentIff(s: string)
    ensures var t := TrimSpace(s);
      ParseAmount(s) == Err(NoNumericContent) <==>
        (if Parenthesised(t) then StripCurrency(t[1..|t| - 1]) else StripCurrency(t)) == ""
  {
  }

  lemma {:induction false} StripCurrencyOfDigits(d: string)
    requires '$' !in d && ',' !in d && TrimSpace(d) == d
    ensures StripCurrency(d) == d && StripCurrency("$" + d) == d
  {
    RemoveCharAbsent(d, '$');
    RemoveCharAbsent(d, ',');
    DropDollar(d);
  }

  lemma {:induction false} DropDollar(d: string)
    requires '$' !in d
    ensures ReplaceAll("$" + d, "$", "") == d
  {
    RemoveCharConcat("$", d, '$');
    assert ReplaceAll("$", "$", "") == "";
    RemoveCharAbsent(d, '$');
    assert "" + d == d;
  }

  /** A text that starts and ends with a digit is trimmed and not in parentheses, so only the clean-up applies. */
  lemma {:induction false} PlainAmount(s: string)
    requires s != [] && IsDigit(s[0]) && IsDigit(s[|s| - 1])
    ensures ParseAmount(s) == ReadAmount(StripCurrency(s))
  {
    TrimSpaceNoSpace(s);
  }

  /** A leading dollar sign changes nothing: "$1,234.50" and "1,234.50" are the same amount. */
  lemma {:induction false} DollarIgnored(d: string)
    requires d != [] && IsDigit(d[0]) && IsDigit(d[|d| - 1]) && '$' !in d
    ensures ParseAmount("$" + d) == ParseAmount(d)
  {
    var s := "$" + d;
    assert s[0] == '$' && s[|s| - 1] == d[|d| - 1];
    TrimSpaceNoSpace(s);
    assert !Parenthesised(s);
    DropDollar(d);
    RemoveCharAbsent(d, '$');
    PlainAmount(d);
  }

  /** A comma between two parts of a numeral is dropped: "1,234.50" is the amount of "1234.50". */
  lemma {:induction false} CommaIgnored(a: string, b: string)
    requires a != [] && b != [] && IsDigit(a[0]) && IsDigit(b[|b| - 1])
    requires '$' !in a && ',' !in a && '$' !in b && ',' !in b
    ensures ParseAmount(a + "," + b) == ParseAmount(a + b)
  {
    var s, t := a + "," + b, a + b;
    assert s[0] == a[0] && s[|s| - 1] == b[|b| - 1];
    assert t[0] == a[0] && t[|t| - 1] == b[|b| - 1];
    PlainAmount(s);
    PlainAmount(t);
    StripComma(a, b);
  }

  lemma {:induction false} StripComma(a: string, b: string)
    requires '$' !in a && ',' !in a && '$' !in b && ',' !in b
    ensures StripCurrency(a + "," + b) == StripCurrency(a + b)
  {
    NoDollar(a, b);
    RemoveCharAbsent(a + "," + b, '$');
    RemoveCharAbsent(a + b, '$');
    DropComma(a, b);
  }

  lemma {:induction false} NoDollar(a: string, b: string)
    requires '$' !in a && '$' !in b
    ensures '$' !in a + "," + b && '$' !in a + b
  {
    assert forall i :: 0 <= i < |a + "," + b| ==> (a + "," + b)[i] in a || (a + "," + b)[i] == ',' || (a + "," + b)[i] in b;
    assert forall i :: 0 <= i < |a + b| ==> (a + b)[i] in a || (a + b)[i] in b;
  }

  lemma {:induction false} DropComma(a: string, b: string)
    requires ',' !in a && ',' !in b
    ensures ReplaceAll(a + "," + b, ",", "") == a + b && ReplaceAll(a + b, ",", "") == a + b
  {
    RemoveCharConcat(a + ",", b, ',');
    RemoveCharConcat(a, ",", ',');
    RemoveCharConcat(a, b, ',');
    RemoveCharAbsent(a, ',');
    RemoveCharAbsent(b, ',');
    assert ReplaceAll(",", ",", "") == "";
    assert a + "" == a;
  }

  /** A whole number of dollars reads as that number: "$250" is 250. */
  lemma {:induction false} DollarWhole(n: nat)
    ensures ParseAmount("$" + NatToString(n)) == Ok(n as real)
  {
    var d := NatToString(n);
    assert IsDigit(d[0]) && IsDigit(d[|d| - 1]);
    NumeralClean(d);
    DollarIgnored(d);
    WholeAmount(n);
  }

  lemma {:induction false} NumeralClean(d: string)
    requires AllDigits(d)
    ensures '$' !in d && ',' !in d
  {
    assert forall i :: 0 <= i < |d| ==> IsDigit(d[i]);
  }

  lemma {:induction false} WholeAmount(n: nat)
    ensures ParseAmount(NatToString(n)) == Ok(n as real)
  {
    var d := NatToString(n);
    assert IsDigit(d[0]) && IsDigit(d[|d| - 1]);
    NumeralClean(d);
    PlainAmount(d);
    TrimSpaceNoSpace(d);
    StripCurrencyOfDigits(d);
    DecimalReadingOfNat(n);
  }

  /** The parenthesis test runs before `$` is deleted, so "$(5)" is not -5 but an error. */
  lemma {:induction false} DollarParenIsError()
    ensures ParseAmount("$(5)") == Err(NotANumber("(5)"))
  {
    var s := "$(5)";
    assert TrimSpace(s) == s by {
      TrimSpaceNoSpace(s);
    }
    assert !Parenthesised(s);
    StripParen();
    NotANumberParen();
  }

  lemma {:induction false} StripParen()
    ensures StripCurrency("$(5)") == "(5)"
  {
    TrimSpaceNoSpace("(5)");
    assert "$(5)" == "$" + "(5)";
    StripCurrencyOfDigits("(5)");
  }

  lemma {:induction false} NotANumberParen()
    ensures ReadAmount("(5)") == Err(NotANumber("(5)"))
  {
    assert SignAndBody("(5)") == (false, "(5)");
    assert IndexOf("(5)", '.') == -1;
    assert !IsDigit("(5)"[0]);
  }

  // -------------------------------------------------------- NormalizeToTOPS

  /** The unit as the switch sees it: trimmed and upper-cased. */
  function UnitKey(unit: string): string { Upper(TrimSpace(unit)) }

  /** NormalizeToTOPS: GFLOPS count 0.002 TOPS each, TFLOPS 2, TOPS and unknown units 1. */
  function NormalizeToTops(value: real, unit: string): real {
    var u := UnitKey(unit);
    if u == "GFLOPS" then value * 0.002
    else if u == "TFLOPS" then value * 2.0
    else value
  }

  /** The unit is read without regard to case or surrounding white space. */
  lemma {:induction false} UnitKeyIdempotent(unit: string)
    ensures UnitKey(UnitKey(unit)) == UnitKey(unit)
    ensures forall v: real :: NormalizeToTops(v, UnitKey(unit)) == NormalizeToTops(v, unit)
  {
    var t := TrimSpace(unit);
    var u := Upper(t);
    assert u == [] || (!IsGoSpace(u[0]) && !IsGoSpace(u[|u| - 1])) by {
      if u != [] {
        assert u[0] == UpperChar(t[0]) && u[|u| - 1] == UpperChar(t[|t| - 1]);
      }
    }
    TrimSpaceNoSpace(u);
    assert Upper(u) == u;
  }

  /** The factors: each unit scales the value linearly, and only GFLOPS and TFLOPS change it. */
  lemma {:induction false} TopsFactors(value: real, unit: string)
    ensures UnitKey(unit) == "GFLOPS" ==> NormalizeToTops(value, unit) == value / 500.0
    ensures UnitKey(unit) == "TFLOPS" ==> NormalizeToTops(value, unit) == 2.0 * value
    ensures UnitKey(unit) !in {"GFLOPS", "TFLOPS"} ==> NormalizeToTops(value, unit) == value
    ensures NormalizeToTops(2.0 * value, unit) == 2.0 * NormalizeToTops(value, unit)
  {
  }

  // ----------------------------------------------------------- records

  /** One virtual service, as written to the output list. */
  datatype VService = VService(name: string, kind: string, providerName: string, providerPlatform: string,
                               providerRegion: string, providerZone: string, deployCost: real, availability: int)

  /** One offering of flavors.yaml, or the Configs of a worker device (the fields that are read). */
  datatype Offering = Offering(nameLabel: string, vcpus: int, ram: string, price: string, gpuCount: int, gpuUnit: string)

  datatype ZoneOfferings = ZoneOfferings(zone: string, offerings: seq<Offering>)

  datatype ManagedK8s = ManagedK8s(name: string, nameLabel: string, price: string, overheadCost: string)

  /** A worker device: its name, zone and optional Configs. */
  datatype Device = Device(name: string, zone: string, configs: Option<Offering>)

  /** The provider labels of a ConfigMap ("" where a label is missing). */
  datatype Provider = Provider(name: string, platform: string, region: string)

  function Label(labels: map<string, string>, key: string): string {
    if key in labels then labels[key] else ""
  }

  function ProviderOf(labels: map<string, string>): Provider {
    Provider(Label(labels, "skycluster.io/provider-profile"), Label(labels, "skycluster.io/provider-platform"),
             Label(labels, "skycluster.io/provider-region"))
  }

  /** A data key of a ConfigMap: absent, present but not decodable, or decoded. */
  datatype Doc<T> = Absent | Undecodable | Decoded(value: T)

  datatype ConfigMap = ConfigMap(labels: map<string, string>, flavors: Doc<seq<ZoneOfferings>>,
                                 managedK8s: Doc<seq<ManagedK8s>>, worker: Doc<seq<Device>>)

  // ------------------------------------------------------------- flavors

  /** The service of one offering, None when its price does not parse (the offering is skipped). */
  function OfferingService(p: Provider, zone: string, of: Offering): Option<VService> {
    match ParseAmount(of.price)
    case Err(_) => None
    case Ok(cost) => Some(VService(of.nameLabel, "ComputeProfile", p.name, p.platform, p.region, zone, cost, 10000))
  }

  function ZoneServices(p: Provider, zo: ZoneOfferings): seq<VService> {
    FilterMap(zo.offerings, of => OfferingService(p, zo.zone, of))
  }

  /** The services of flavors.yaml: zone after zone, offering after offering. */
  function FlavorServices(p: Provider, zos: seq<ZoneOfferings>): seq<VService>
    decreases |zos|
  {
    if zos == [] then [] else FlavorServices(p, zos[..|zos| - 1]) + ZoneServices(p, zos[|zos| - 1])
  }

  /**
   * A zone contributes a ComputeProfile of availability 10000 in that zone
   * for exactly the offerings whose price parses, priced at that amount,
   * and skips the others.
   */
  lemma {:induction false} ZoneServicesSpec(p: Provider, zo: ZoneOfferings, s: VService)
    ensures s in ZoneServices(p, zo) <==>
      exists i :: 0 <= i < |zo.offerings| && ParseAmount(zo.offerings[i].price).Ok? &&
        s == VService(zo.offerings[i].nameLabel, "ComputeProfile", p.name, p.platform, p.region, zo.zone,
                      ParseAmount(zo.offerings[i].price).value, 10000)
    ensures (forall i :: 0 <= i < |zo.offerings| ==> ParseAmount(zo.offerings[i].price).Ok?) ==>
      |ZoneServices(p, zo)| == |zo.offerings|
  {
    FilterMapMember(zo.offerings, of => OfferingService(p, zo.zone, of), s);
    if forall i :: 0 <= i < |zo.offerings| ==> ParseAmount(zo.offerings[i].price).Ok? {
      AllPricedCount(p, zo.zone, zo.offerings);
    }
  }

  lemma {:induction false} AllPricedCount(p: Provider, zone: string, offs: seq<Offering>)
    requires forall i :: 0 <= i < |offs| ==> ParseAmount(offs[i].price).Ok?
    ensures |FilterMap(offs, of => OfferingService(p, zone, of))| == |offs|
    decreases |offs|
  {
    if offs != [] {
      var init := offs[..|offs| - 1];
      assert forall i :: 0 <= i < |init| ==> init[i] == offs[i];
      AllPricedCount(p, zone, init);
    }
  }

  // ---------------------------------------------------------- managed k8s

  datatype Fatal = NoCluster | ListFailed | BadManagedK8sYaml | BadManagedK8sPrice(name: string) | BadWorkerYaml | WriteFailed

  /** One managed-Kubernetes entry: price plus overhead, or the fatal parse error. */
  function K8sService(p: Provider, mk: ManagedK8s): Result<VService, Fatal> {
    var price, overhead := ParseAmount(mk.price), ParseAmount(mk.overheadCost);
    if price.Err? || overhead.Err? then Err(BadManagedK8sPrice(mk.name))
    else Ok(VService(mk.nameLabel, "ManagedKubernetes", p.name, p.platform, p.region, "", price.value + overhead.value, 100000))
  }

  function K8sServices(p: Provider, mks: seq<ManagedK8s>): Result<seq<VService>, Fatal> {
    AllOk(MapSeq(mks, mk => K8sService(p, mk)))
  }

  /**
   * managed-k8s.yaml either fails at the first entry whose price or
   * overhead does not parse, or gives one ManagedKubernetes service per
   * entry, in order, costing price plus overhead, with no zone.
   */
  lemma {:induction false} K8sServicesSpec(p: Provider, mks: seq<ManagedK8s>)
    ensures K8sServices(p, mks).Ok? <==>
      forall i :: 0 <= i < |mks| ==> ParseAmount(mks[i].price).Ok? && ParseAmount(mks[i].overheadCost).Ok?
    ensures K8sServices(p, mks).Ok? ==>
      var s := K8sServices(p, mks).value;
      |s| == |mks| &&
      forall i :: 0 <= i < |mks| ==>
        s[i].name == mks[i].nameLabel && s[i].kind == "ManagedKubernetes" && s[i].providerZone == "" &&
        s[i].deployCost == ParseAmount(mks[i].price).value + ParseAmount(mks[i].overheadCost).value &&
        s[i].availability == 100000
  {
    var rs := K8sResults(p, mks);
    MapSeqAt(mks, mk => K8sService(p, mk));
    AllOkValues(rs);
    forall i | 0 <= i < |mks|
      ensures rs[i].Ok? <==> ParseAmount(mks[i].price).Ok? && ParseAmount(mks[i].overheadCost).Ok?
      ensures rs[i].Ok? ==>
                rs[i].value.name == mks[i].nameLabel && rs[i].value.kind == "ManagedKubernetes" &&
                rs[i].value.providerZone == "" && rs[i].value.availability == 100000 &&
                rs[i].value.deployCost == ParseAmount(mks[i].price).value + ParseAmount(mks[i].overheadCost).value
    {
      K8sServiceErr(p, mks[i]);
      if rs[i].Ok? {
        K8sServiceOk(p, mks[i]);
      }
    }
  }

  // -------------------------------------------------------------- workers

  /** The device name label: `<vcpus>vCPU-<ram>-<trunc(TOPS)>xTOPS`. */
  function DeviceLabel(of: Offering): string {
    IntToString(of.vcpus) + "vCPU-" + of.ram + "-" + IntToString(Truncate(NormalizeToTops(of.gpuCount as real, of.gpuUnit))) + "xTOPS"
  }

  /** The service of one device, None when it has no Configs or its price does not parse. */
  function DeviceService(p: Provider, d: Device): Option<VService> {
    if d.configs.None? then None
    else
      match ParseAmount(d.configs.value.price)
      case Err(_) => None
      case Ok(cost) => Some(VService(DeviceLabel(d.configs.value), "ComputeProfile", p.name, p.platform, p.region, d.zone, cost, 1))
  }

  function WorkerServices(p: Provider, devices: seq<Device>): seq<VService> {
    FilterMap(devices, d => DeviceService(p, d))
  }

  /**
   * A device becomes a ComputeProfile of availability 1 in its zone exactly
   * when it has Configs with a parseable price; its name is built from the
   * vCPUs, RAM and whole TOPS.
   */
  lemma {:induction false} WorkerServicesSpec(p: Provider, devices: seq<Device>, s: VService)
    ensures s in WorkerServices(p, devices) <==>
      exists i :: 0 <= i < |devices| && devices[i].configs.Some? && ParseAmount(devices[i].configs.value.price).Ok? &&
        s == VService(DeviceLabel(devices[i].configs.value), "ComputeProfile", p.name, p.platform, p.region,
                      devices[i].zone, ParseAmount(devices[i].configs.value.price).value, 1)
  {
    FilterMapMember(devices, d => DeviceService(p, d), s);
  }

  // ----------------------------------------------------------------- main

  /** The services of one ConfigMap: flavors, then managed Kubernetes, then workers. */
  function ConfigMapServices(cm: ConfigMap): Result<seq<VService>, Fatal> {
    var p := ProviderOf(cm.labels);
    var flavors := if cm.flavors.Decoded? then FlavorServices(p, cm.flavors.value) else [];
    var k8s := match cm.managedK8s
      case Absent => Ok([])
      case Undecodable => Err(BadManagedK8sYaml)
      case Decoded(mks) => K8sServices(p, mks);
    if k8s.Err? then Err(k8s.error)
    else
      match cm.worker
      case Absent => Ok(flavors + k8s.value)
      case Undecodable => Err(BadWorkerYaml)
      case Decoded(devices) => Ok(flavors + k8s.value + WorkerServices(p, devices))
  }

  /** All ConfigMaps in listing order, stopping at the first fatal error. */
  function AllServices(cms: seq<ConfigMap>): Result<seq<VService>, Fatal>
    decreases |cms|
  {
    if cms == [] then Ok([])
    else
      match AllServices(cms[..|cms| - 1])
      case Err(e) => Err(e)
      case Ok(init) =>
        match ConfigMapServices(cms[|cms| - 1])
        case Err(e) => Err(e)
        case Ok(more) => Ok(init + more)
  }

  /** The listed ConfigMaps (None when the client or the listing fails) and whether the output file is written. */
  function Run(clusterOk: bool, listing: Option<seq<ConfigMap>>, writeOk: bool): Result<seq<VService>, Fatal> {
    if !clusterOk then Err(NoCluster)
    else if listing.None? then Err(ListFailed)
    else
      match AllServices(listing.value)
      case Err(e) => Err(e)
      case Ok(list) => if writeOk then Ok(list) else Err(WriteFailed)
  }

  /**
   * A ConfigMap whose flavors.yaml does not decode, or that has no
   * flavors.yaml, contributes no compute profiles but is not an error;
   * undecodable managed-k8s.yaml or worker data is fatal.
   */
  lemma {:induction false} ConfigMapServicesSpec(cm: ConfigMap)
    ensures cm.managedK8s.Undecodable? ==> ConfigMapServices(cm) == Err(BadManagedK8sYaml)
    ensures (!cm.managedK8s.Undecodable? && (cm.managedK8s.Decoded? ==> K8sServices(ProviderOf(cm.labels), cm.managedK8s.value).Ok?) &&
             cm.worker.Undecodable?) ==> ConfigMapServices(cm) == Err(BadWorkerYaml)
    ensures !cm.flavors.Decoded? && cm.managedK8s.Absent? && cm.worker.Absent? ==> ConfigMapServices(cm) == Ok([])
    ensures cm.flavors.Decoded? && cm.managedK8s.Absent? && cm.worker.Absent? ==>
      ConfigMapServices(cm) == Ok(FlavorServices(ProviderOf(cm.labels), cm.flavors.value))
  {
    if cm.managedK8s.Absent? && cm.worker.Absent? {
      var f: seq<VService> := if cm.flavors.Decoded? then FlavorServices(ProviderOf(cm.labels), cm.flavors.value) else [];
      assert f + [] == f;
    }
  }

  /** The list of all ConfigMaps is the lists of each, concatenated in listing order. */
  lemma {:induction false} AllServicesConcat(cms: seq<ConfigMap>, cm: ConfigMap)
    ensures AllServices(cms + [cm]).Ok? <==> AllServices(cms).Ok? && ConfigMapServices(cm).Ok?
    ensures AllServices(cms + [cm]).Ok? ==> AllServices(cms + [cm]).value == AllServices(cms).value + ConfigMapServices(cm).value
    ensures AllServices(cms).Err? ==> AllServices(cms + [cm]) == AllServices(cms)
  {
    assert (cms + [cm])[..|cms|] == cms;
  }

  // -------------------------------------------------------------- methods

  /** The service list grows by at most the one service of the next offering. */
  lemma {:induction false} ZoneServicesStep(p: Provider, zo: ZoneOfferings, k: nat)
    requires k < |zo.offerings|
    ensures var f := of => OfferingService(p, zo.zone, of);
      var here := OfferingService(p, zo.zone, zo.offerings[k]);
      FilterMap(zo.offerings[..k + 1], f) == FilterMap(zo.offerings[..k], f) + (if here.Some? then [here.value] else [])
  {
    assert zo.offerings[..k + 1] == zo.offerings[..k] + [zo.offerings[k]];
    FilterMapSnoc(zo.offerings[..k], zo.offerings[k], of => OfferingService(p, zo.zone, of));
  }

  /** The loop over the offerings of one zone. */
  method AppendZone(p: Provider, zo: ZoneOfferings, list: seq<VService>) returns (out: seq<VService>)
    ensures out == list + ZoneServices(p, zo)
  {
    out := list;
    var offs := zo.offerings;
    for j := 0 to |offs|
      invariant out == list + FilterMap(offs[..j], of => OfferingService(p, zo.zone, of))
    {
      ZoneServicesStep(p, zo, j);
      var of := offs[j];
      var price := ParseAmount(of.price);
      if price.Err? {
        continue;
      }
      out := out + [VService(of.nameLabel, "ComputeProfile", p.name, p.platform, p.region, zo.zone, price.value, 10000)];
    }
    assert offs[..|offs|] == offs;
  }

  lemma {:induction false} FlavorServicesStep(p: Provider, zos: seq<ZoneOfferings>, k: nat)
    requires k < |zos|
    ensures FlavorServices(p, zos[..k + 1]) == FlavorServices(p, zos[..k]) + ZoneServices(p, zos[k])
  {
    assert zos[..k + 1][..k] == zos[..k];
  }

  lemma ConcatAssoc<T>(a: seq<T>, b: seq<T>, c: seq<T>)
    ensures a + b + c == a + (b + c)
  {
  }

  /** The loop over the zones of flavors.yaml. */
  method AppendFlavors(p: Provider, zos: seq<ZoneOfferings>, list: seq<VService>) returns (out: seq<VService>)
    ensures out == list + FlavorServices(p, zos)
  {
    out := list;
    for i := 0 to |zos|
      invariant out == list + FlavorServices(p, zos[..i])
    {
      FlavorServicesStep(p, zos, i);
      ghost var before := out;
      out := AppendZone(p, zos[i], out);
      assert out == list + FlavorServices(p, zos[..i + 1]) by {
        ConcatAssoc(list, FlavorServices(p, zos[..i]), ZoneServices(p, zos[i]));
      }
    }
    assert zos[..|zos|] == zos;
  }

  function K8sResults(p: Provider, mks: seq<ManagedK8s>): (r: seq<Result<VService, Fatal>>)
    ensures |r| == |mks|
  {
    MapSeq(mks, mk => K8sService(p, mk))
  }

  lemma {:induction false} K8sResultsStep(p: Provider, mks: seq<ManagedK8s>, k: nat)
    requires k < |mks|
    ensures K8sResults(p, mks[..k + 1]) == K8sResults(p, mks[..k]) + [K8sService(p, mks[k])]
    ensures K8sResults(p, mks[..k + 1]) == K8sResults(p, mks)[..k + 1]
  {
    assert mks[..k + 1][..k] == mks[..k];
    MapSeqPrefix(mks, k + 1, mk => K8sService(p, mk));
  }

  lemma {:induction false} K8sServiceErr(p: Provider, mk: ManagedK8s)
    ensures K8sService(p, mk).Err? <==> ParseAmount(mk.price).Err? || ParseAmount(mk.overheadCost).Err?
  {
  }

  lemma {:induction false} K8sServiceOk(p: Provider, mk: ManagedK8s)
    requires ParseAmount(mk.price).Ok? && ParseAmount(mk.overheadCost).Ok?
    ensures var r := K8sService(p, mk);
      r.Ok? && r.value.name == mk.nameLabel && r.value.kind == "ManagedKubernetes" && r.value.providerZone == "" &&
      r.value.availability == 100000 && r.value.deployCost == ParseAmount(mk.price).value + ParseAmount(mk.overheadCost).value
  {
  }

  lemma {:induction false} K8sStepOk(p: Provider, mks: seq<ManagedK8s>, i: nat, acc: seq<VService>, v: VService)
    requires i < |mks| && AllOk(K8sResults(p, mks[..i])) == Ok(acc)
    requires K8sService(p, mks[i]) == Ok(v)
    ensures AllOk(K8sResults(p, mks[..i + 1])) == Ok(acc + [v])
  {
    var before := K8sResults(p, mks[..i]);
    K8sResultsStep(p, mks, i);
    AllOkSnoc(before, acc, v);
  }

  lemma {:induction false} K8sStepErr(p: Provider, mks: seq<ManagedK8s>, i: nat, acc: seq<VService>)
    requires i < |mks| && AllOk(K8sResults(p, mks[..i])) == Ok(acc)
    requires K8sService(p, mks[i]).Err?
    ensures K8sServices(p, mks) == Err(K8sService(p, mks[i]).error)
  {
    K8sResultsStep(p, mks, i);
    var before := K8sResults(p, mks[..i]);
    assert (before + [K8sService(p, mks[i])])[..i] == before;
    AllOkPrefixErr(K8sResults(p, mks), i + 1);
  }

  /** The loop over managed-k8s.yaml, exiting on the first price that does not parse. */
  method AppendK8s(p: Provider, mks: seq<ManagedK8s>, list: seq<VService>) returns (out: Result<seq<VService>, Fatal>)
    ensures out.Ok? <==> K8sServices(p, mks).Ok?
    ensures out.Err? ==> out.error == K8sServices(p, mks).error
    ensures out.Ok? ==> out.value == list + K8sServices(p, mks).value
  {
    var acc: seq<VService> := [];
    for i := 0 to |mks|
      invariant AllOk(K8sResults(p, mks[..i])) == Ok(acc)
    {
      var r := K8sService(p, mks[i]);
      if r.Err? {
        K8sStepErr(p, mks, i, acc);
        return Err(r.error);
      }
      K8sStepOk(p, mks, i, acc, r.value);
      acc := acc + [r.value];
    }
    assert mks[..|mks|] == mks;
    out := Ok(list + acc);
  }

  lemma {:induction false} WorkerServicesStep(p: Provider, devices: seq<Device>, k: nat)
    requires k < |devices|
    ensures var here := DeviceService(p, devices[k]);
      WorkerServices(p, devices[..k + 1]) == WorkerServices(p, devices[..k]) + (if here.Some? then [here.value] else [])
  {
    assert devices[..k + 1] == devices[..k] + [devices[k]];
    FilterMapSnoc(devices[..k], devices[k], d => DeviceService(p, d));
  }

  /** The loop over the worker devices, in the given iteration order. */
  method AppendWorkers(p: Provider, devices: seq<Device>, list: seq<VService>) returns (out: seq<VService>)
    ensures out == list + WorkerServices(p, devices)
  {
    out := list;
    for i := 0 to |devices|
      invariant out == list + WorkerServices(p, devices[..i])
    {
      WorkerServicesStep(p, devices, i);
      var d := devices[i];
      if d.configs.None? {
        continue;
      }
      var price := ParseAmount(d.configs.value.price);
      if price.Err? {
        continue;
      }
      var tops := NormalizeToTops(d.configs.value.gpuCount as real, d.configs.value.gpuUnit);
      var devLabel := IntToString(d.configs.value.vcpus) + "vCPU-" + d.configs.value.ram + "-" + IntToString(Truncate(tops)) + "xTOPS";
      out := out + [VService(devLabel, "ComputeProfile", p.name, p.platform, p.region, d.zone, price.value, 1)];
    }
    assert devices[..|devices|] == devices;
  }

  /** One ConfigMap of main's loop. */
  method AppendConfigMap(cm: ConfigMap, list: seq<VService>) returns (out: Result<seq<VService>, Fatal>)
    ensures out.Ok? <==> ConfigMapServices(cm).Ok?
    ensures out.Err? ==> out.error == ConfigMapServices(cm).error
    ensures out.Ok? ==> out.value == list + ConfigMapServices(cm).value
  {
    var p := ProviderOf(cm.labels);
    var flavors: seq<VService> := [];
    if cm.flavors.Decoded? {
      flavors := AppendFlavors(p, cm.flavors.value, []);
      assert [] + FlavorServices(p, cm.flavors.value) == FlavorServices(p, cm.flavors.value);
    }
    if cm.managedK8s.Undecodable? {
      return Err(BadManagedK8sYaml);
    }
    var k8s: seq<VService> := [];
    if cm.managedK8s.Decoded? {
      var r := AppendK8s(p, cm.managedK8s.value, []);
      if r.Err? {
        return Err(r.error);
      }
      k8s := r.value;
      assert K8sServices(p, cm.managedK8s.value).Ok?;
      assert [] + K8sServices(p, cm.managedK8s.value).value == K8sServices(p, cm.managedK8s.value).value;
    }
    if cm.worker.Undecodable? {
      return Err(BadWorkerYaml);
    }
    var workers: seq<VService> := [];
    if cm.worker.Decoded? {
      workers := AppendWorkers(p, cm.worker.value, []);
      assert [] + WorkerServices(p, cm.worker.value) == WorkerServices(p, cm.worker.value);
    }
    assert flavors == if cm.flavors.Decoded? then FlavorServices(ProviderOf(cm.labels), cm.flavors.value) else [];
    assert cm.managedK8s.Decoded? ==> K8sServices(ProviderOf(cm.labels), cm.managedK8s.value) == Ok(k8s);
    assert cm.managedK8s.Absent? ==> k8s == [];
    assert workers == if cm.worker.Decoded? then WorkerServices(ProviderOf(cm.labels), cm.worker.value) else [];
    ConfigMapServicesParts(cm, flavors, k8s, workers);
    out := Ok(list + (flavors + k8s + workers));
  }

  /** The three parts of a ConfigMap's services, as the method collects them. */
  lemma {:induction false} ConfigMapServicesParts(cm: ConfigMap, flavors: seq<VService>, k8s: seq<VService>, workers: seq<VService>)
    requires flavors == if cm.flavors.Decoded? then FlavorServices(ProviderOf(cm.labels), cm.flavors.value) else []
    requires !cm.managedK8s.Undecodable? && !cm.worker.Undecodable?
    requires cm.managedK8s.Decoded? ==> K8sServices(ProviderOf(cm.labels), cm.managedK8s.value) == Ok(k8s)
    requires cm.managedK8s.Absent? ==> k8s == []
    requires workers == if cm.worker.Decoded? then WorkerServices(ProviderOf(cm.labels), cm.worker.value) else []
    ensures ConfigMapServices(cm) == Ok(flavors + k8s + workers)
  {
    var k: Result<seq<VService>, Fatal> := match cm.managedK8s
      case Absent => Ok([])
      case Undecodable => Err(BadManagedK8sYaml)
      case Decoded(mks) => K8sServices(ProviderOf(cm.labels), mks);
    assert k == Ok(k8s);
    if cm.worker.Absent? {
      assert flavors + k8s + workers == flavors + k8s;
    }
  }

  /** main: list the ConfigMaps, collect their services, write the file. */
  method CollectVServices(clusterOk: bool, listing: Option<seq<ConfigMap>>, writeOk: bool) returns (out: Result<seq<VService>, Fatal>)
    ensures out == Run(clusterOk, listing, writeOk)
  {
    if !clusterOk {
      return Err(NoCluster);
    }
    if listing.None? {
      return Err(ListFailed);
    }
    var cms := listing.value;
    var list: seq<VService> := [];
    for i := 0 to |cms|
      invariant AllServices(cms[..i]) == Ok(list)
    {
      assert cms[..i + 1] == cms[..i] + [cms[i]];
      AllServicesConcat(cms[..i], cms[i]);
      var r := AppendConfigMap(cms[i], list);
      if r.Err? {
        AllServicesPrefixErr(cms, i + 1);
        return Err(r.error);
      }
      list := r.value;
    }
    assert cms[..|cms|] == cms;
    if !writeOk {
      return Err(WriteFailed);
    }
    out := Ok(list);
  }

  /** A fatal error in some ConfigMap ends the whole run with it. */
  lemma {:induction false} AllServicesPrefixErr(cms: seq<ConfigMap>, k: nat)
    requires k <= |cms| && AllServices(cms[..k]).Err?
    ensures AllServices(cms) == AllServices(cms[..k])
    decreases |cms|
  {
    if k < |cms| {
      var init := cms[..|cms| - 1];
      assert init[..k] == cms[..k];
      AllServicesPrefixErr(init, k);
    } else {
      assert cms[..k] == cms;
    }
  }
}
