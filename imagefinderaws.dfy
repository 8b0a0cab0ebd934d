// image-finder/aws.py: for each requested zone, the newest Amazon-owned
// x86_64 AMI in the top-level region whose name matches the zone's mapped
// label. EC2's describe_images is an input: given the region and the name
// filter value it returns the images, or None when the call raises.
module ImageFinderAws {
  import opened Wrappers
  import opened Strings
  import opened Ordering
  import LabelMapper

  // --------------------------------------------------------- name filter

  /** The value of the "name" filter: the pattern between wildcards, or a lone wildcard. */
  function NameValue(pattern: string): (v: string)
    ensures |v| >= 1 && v[0] == '*' && v[|v| - 1] == '*'
  {
    if pattern != "" then "*" + pattern + "*" else "*"
  }

  /** The filter matches names containing the pattern: the wildcards enclose exactly the pattern, and an empty pattern matches everything. */
  lemma {:induction false} NameValueShape(pattern: string)
    ensures pattern == "" <==> NameValue(pattern) == "*"
    ensures pattern != "" ==> |NameValue(pattern)| == |pattern| + 2 && NameValue(pattern)[1..|pattern| + 1] == pattern
  {
    if pattern != "" {
      var v := NameValue(pattern);
      assert v == "*" + pattern + "*";
      assert v[1..|pattern| + 1] == pattern;
    }
  }

  // ------------------------------------------------------------- images

  /** An image as described by EC2: its ImageId and CreationDate, each possibly absent. */
  datatype Ami = Ami(imageId: Option<string>, creationDate: Option<string>)

  /** The sort key: CreationDate, "" when absent. */
  function Date(im: Ami): string {
    if im.creationDate.Some? then im.creationDate.value else ""
  }

  /** Ascending by sort key. */
  predicate OlderFirst(a: Ami, b: Ami) { StrLe(Date(a), Date(b)) }

  lemma {:induction false} OlderFirstPreorder()
    ensures TotalPreorder(OlderFirst)
  {
    forall a: Ami, b: Ami
      ensures OlderFirst(a, b) || OlderFirst(b, a)
    {
      StrLeTotal(Date(a), Date(b));
    }
    forall a: Ami, b: Ami, c: Ami | OlderFirst(a, b) && OlderFirst(b, c)
      ensures OlderFirst(a, c)
    {
      StrLeTransitive(Date(a), Date(b), Date(c));
    }
  }

  /** The position of the newest image: the last of those with the greatest CreationDate. */
  function LatestIndex(images: seq<Ami>): (i: nat)
    requires images != []
    ensures i < |images|
    ensures forall j :: 0 <= j < |images| ==> StrLe(Date(images[j]), Date(images[i]))
    ensures forall j :: i < j < |images| ==> !StrLe(Date(images[i]), Date(images[j]))
  {
    OlderFirstPreorder();
    LastGreatestSpec(images, OlderFirst);
    LastGreatest(images, OlderFirst)
  }

  /** What find_latest_ami returns for a listing: nothing for no images, else the newest image's ImageId. */
  function Latest(images: seq<Ami>): Option<string> {
    if images == [] then None else images[LatestIndex(images)].imageId
  }

  /**
   * find_latest_ami answers None for an empty listing; otherwise the
   * ImageId of an image whose CreationDate is the greatest, and of the
   * last such image in the listing: no later image has a date as great.
   */
  lemma {:induction false} LatestSpec(images: seq<Ami>)
    ensures images == [] ==> Latest(images).None?
    ensures images != [] ==>
      exists i :: 0 <= i < |images| && Latest(images) == images[i].imageId &&
        (forall j :: 0 <= j < |images| ==> StrLe(Date(images[j]), Date(images[i]))) &&
        (forall j :: i < j < |images| ==> Date(images[j]) != Date(images[i]))
  {
    if images != [] {
      var i := LatestIndex(images);
      assert Latest(images) == images[i].imageId;
      forall j | i < j < |images|
        ensures Date(images[j]) != Date(images[i])
      {
        if Date(images[j]) == Date(images[i]) {
          StrLeTotal(Date(images[i]), Date(images[j]));
        }
      }
    }
  }

  /** Why the script stops with code 1: map_label raised ValueError, or AttributeError on a null label, or describe_images failed. */
  datatype Failure = BadLabel(e: LabelMapper.MapError) | NullLabel | DescribeFailed

  /** find_latest_ami: describe, then sort by CreationDate ascending (a stable sort) and take the last. */
  method FindLatestAmi(region: string, pattern: string, describe: (string, string) -> Option<seq<Ami>>)
    returns (r: Result<Option<string>, Failure>)
    ensures describe(region, NameValue(pattern)).None? ==> r == Err(DescribeFailed)
    ensures describe(region, NameValue(pattern)).Some? ==> r == Ok(Latest(describe(region, NameValue(pattern)).value))
  {
    var nameValue := if pattern != "" then "*" + pattern + "*" else "*";
    var resp := describe(region, nameValue);
    if resp.None? {
      return Err(DescribeFailed);
    }
    var images := resp.value;
    if images == [] {
      return Ok(None);
    }
    OlderFirstPreorder();
    var sorted := SortBy(images, OlderFirst);
    SortByLast(images, OlderFirst);
    r := Ok(sorted[|sorted| - 1].imageId);
  }

  // ------------------------------------------------------ normalisation

  /** The AMI as written to the output: stripped, with "", "none" and "null" (any case) as null. */
  function NormalizeAmi(ami: Option<string>): Option<string> {
    var s := Trim(if ami.Some? then ami.value else "");
    if s == "" || Lower(s) == "none" || Lower(s) == "null" then None else Some(s)
  }

  /**
   * The output name is null exactly for a missing, blank or none/null AMI;
   * otherwise it is the stripped AMI, and normalising it again changes
   * nothing.
   */
  lemma {:induction false} NormalizeAmiSpec(ami: Option<string>)
    ensures var s := Trim(if ami.Some? then ami.value else "");
      NormalizeAmi(ami).None? <==> s == "" || Lower(s) in {"none", "null"}
    ensures NormalizeAmi(ami).Some? ==> ami.Some? && NormalizeAmi(ami).value == Trim(ami.value)
    ensures NormalizeAmi(NormalizeAmi(ami)) == NormalizeAmi(ami)
  {
    if ami.Some? {
      TrimIdempotent(ami.value);
    }
  }

  // --------------------------------------------------------------- main

  /** A requested zone: nameLabel and zone, each Some("") when the key is absent and None when it is null. */
  datatype ZoneIn = ZoneIn(nameLabel: Option<string>, zone: Option<string>)

  /** An output entry, with nameLabel and zone as given. */
  datatype ZoneOut = ZoneOut(nameLabel: string, zone: Option<string>, name: Option<string>)

  /** One iteration of the zone loop, every lookup in the top-level region. */
  function ZoneResult(region: string, z: ZoneIn, describe: (string, string) -> Option<seq<Ami>>): Result<ZoneOut, Failure> {
    if z.nameLabel.None? then Err(NullLabel)
    else
      match LabelMapper.MapLabel(LabelMapper.GpuSuffix, z.nameLabel.value)
      case Err(e) => Err(BadLabel(e))
      case Ok(m) =>
        match describe(region, NameValue(m["aws"]))
        case None => Err(DescribeFailed)
        case Some(images) => Ok(ZoneOut(z.nameLabel.value, z.zone, NormalizeAmi(Latest(images))))
  }

  /**
   * A zone whose label maps is looked up with the filter `*<aws name>*` in
   * the top-level region, and fails exactly when that lookup fails;
   * otherwise its entry repeats its nameLabel and zone, and names the
   * normalised newest AMI.
   */
  lemma {:induction false} ZoneEntry(region: string, z: ZoneIn, describe: (string, string) -> Option<seq<Ami>>)
    requires z.nameLabel.Some? && LabelMapper.MapLabel(LabelMapper.GpuSuffix, z.nameLabel.value).Ok?
    ensures var aws := LabelMapper.MapLabel(LabelMapper.GpuSuffix, z.nameLabel.value).value["aws"];
      var d := describe(region, "*" + aws + "*");
      var r := ZoneResult(region, z, describe);
      (r.Err? <==> d.None?) &&
      (d.Some? ==> r.Ok? && r.value.nameLabel == z.nameLabel.value && r.value.zone == z.zone && r.value.name == NormalizeAmi(Latest(d.value)))
  {
    var aws := LabelMapper.MapLabel(LabelMapper.GpuSuffix, z.nameLabel.value).value["aws"];
    assert aws != "" by {
      LabelMapper.MapLabelOutcome(LabelMapper.GpuSuffix, z.nameLabel.value);
    }
  }

  function ZoneResults(region: string, zones: seq<ZoneIn>, describe: (string, string) -> Option<seq<Ami>>): (r: seq<Result<ZoneOut, Failure>>)
    ensures |r| == |zones|
  {
    MapSeq(zones, z => ZoneResult(region, z, describe))
  }

  lemma {:induction false} ZoneResultsStep(region: string, zones: seq<ZoneIn>, k: nat, describe: (string, string) -> Option<seq<Ami>>)
    requires k < |zones|
    ensures ZoneResults(region, zones[..k + 1], describe) == ZoneResults(region, zones[..k], describe) + [ZoneResult(region, zones[k], describe)]
    ensures ZoneResults(region, zones[..k + 1], describe) == ZoneResults(region, zones, describe)[..k + 1]
  {
    assert zones[..k + 1][..k] == zones[..k];
    MapSeqPrefix(zones, k + 1, z => ZoneResult(region, z, describe));
  }

  /** The decoded INPUT_JSON: region, and zones (None when not a list, [] when absent). */
  datatype Payload = Payload(region: Option<string>, zones: Option<seq<ZoneIn>>)

  datatype Output = Output(region: string, zones: seq<ZoneOut>)

  /** The exit code, and the document written when the script gets that far. */
  datatype Exit = Exit(code: int, output: Option<Output>)

  /** require_env: present and non-empty. */
  predicate HasEnv(env: map<string, string>, name: string) {
    name in env && env[name] != ""
  }

  /** The end of main: the first failure (code 1), or the document with code 0. */
  function Finish(region: string, rs: seq<Result<ZoneOut, Failure>>): Exit {
    match AllOk(rs)
    case Err(_) => Exit(1, None)
    case Ok(outs) => Exit(0, Some(Output(region, outs)))
  }

  /** main: payload is None when INPUT_JSON is not JSON. */
  function Run(env: map<string, string>, payload: Option<Payload>, describe: (string, string) -> Option<seq<Ami>>): Exit {
    if !HasEnv(env, "INPUT_JSON") || !HasEnv(env, "AWS_ACCESS_KEY_ID") || !HasEnv(env, "AWS_SECRET_ACCESS_KEY") then Exit(2, None)
    else if payload.None? then Exit(2, None)
    else
      var p := payload.value;
      if p.region.None? || p.region.value == "" || p.zones.None? then Exit(2, None)
      else Finish(p.region.value, ZoneResults(p.region.value, p.zones.value, describe))
  }

  /**
   * Missing variables, bad JSON, a missing region or a zones that is not a
   * list end with code 2 and no output; past those checks the script either
   * stops with code 1 at a failing zone, or writes one entry per zone, in
   * order, under the top-level region and exits 0.
   */
  lemma {:induction false} RunOutcome(env: map<string, string>, payload: Option<Payload>, describe: (string, string) -> Option<seq<Ami>>)
    ensures var e := Run(env, payload, describe);
      (e.code == 2 <==>
        !HasEnv(env, "INPUT_JSON") || !HasEnv(env, "AWS_ACCESS_KEY_ID") || !HasEnv(env, "AWS_SECRET_ACCESS_KEY") ||
        payload.None? || payload.value.region.None? || payload.value.region == Some("") || payload.value.zones.None?) &&
      (e.code in {0, 1, 2}) && (e.output.Some? <==> e.code == 0)
    ensures var e := Run(env, payload, describe);
      e.code != 2 ==>
        var region := payload.value.region.value;
        var zones := payload.value.zones.value;
        var rs := ZoneResults(region, zones, describe);
        (e.code == 1 <==> exists i :: 0 <= i < |zones| && rs[i].Err?) &&
        (e.code == 0 ==>
          e.output.value.region == region && |e.output.value.zones| == |zones| &&
          forall i :: 0 <= i < |zones| ==> rs[i] == Ok(e.output.value.zones[i]))
  {
    var e := Run(env, payload, describe);
    if e.code != 2 {
      var region := payload.value.region.value;
      AllOkValues(ZoneResults(region, payload.value.zones.value, describe));
    }
  }

  /** One iteration of main's zone loop. */
  method FindZone(region: string, z: ZoneIn, describe: (string, string) -> Option<seq<Ami>>) returns (r: Result<ZoneOut, Failure>)
    ensures r == ZoneResult(region, z, describe)
  {
    if z.nameLabel.None? {
      return Err(NullLabel);
    }
    var nameLabel := z.nameLabel.value;
    var mapped := LabelMapper.MapLabel(LabelMapper.GpuSuffix, nameLabel);
    if mapped.Err? {
      return Err(BadLabel(mapped.error));
    }
    var ami := FindLatestAmi(region, mapped.value["aws"], describe);
    if ami.Err? {
      return Err(ami.error);
    }
    r := Ok(ZoneOut(nameLabel, z.zone, NormalizeAmi(ami.value)));
  }

  /** main, with its zone loop appending to out_zones. */
  method FindImages(env: map<string, string>, payload: Option<Payload>, describe: (string, string) -> Option<seq<Ami>>)
    returns (e: Exit)
    ensures e == Run(env, payload, describe)
  {
    if !HasEnv(env, "INPUT_JSON") || !HasEnv(env, "AWS_ACCESS_KEY_ID") || !HasEnv(env, "AWS_SECRET_ACCESS_KEY") {
      return Exit(2, None);
    }
    if payload.None? {
      return Exit(2, None);
    }
    var region := payload.value.region;
    var zones := payload.value.zones;
    if region.None? || region.value == "" || zones.None? {
      return Exit(2, None);
    }
    e := ZoneLoop(region.value, zones.value, describe);
  }

  /** The zone loop of main and its exit. */
  method ZoneLoop(region: string, zs: seq<ZoneIn>, describe: (string, string) -> Option<seq<Ami>>) returns (e: Exit)
    ensures e == Finish(region, ZoneResults(region, zs, describe))
  {
    var outZones: seq<ZoneOut> := [];
    for i := 0 to |zs|
      invariant AllOk(ZoneResults(region, zs[..i], describe)) == Ok(outZones)
    {
      ghost var before := ZoneResults(region, zs[..i], describe);
      ZoneResultsStep(region, zs, i, describe);
      var r := FindZone(region, zs[i], describe);
      assert (before + [r])[..i] == before;
      if r.Err? {
        AllOkPrefixErr(ZoneResults(region, zs, describe), i + 1);
        return Exit(1, None);
      }
      outZones := outZones + [r.value];
    }
    assert zs[..|zs|] == zs;
    e := Exit(0, Some(Output(region, outZones)));
  }
}
