// image-finder/label_mapper.py: generic Ubuntu labels such as
// "ubuntu-22.04" (optionally "ubuntu-22.04-gpu") mapped to the image names
// of each hyperscaler. The variant without the -gpu suffix is the module
// LabelMapperStrict; both share the grammar below, which takes the variant
// as a parameter.
module LabelMapper {
  import opened Wrappers
  import opened Strings
  import opened Numbers

  /** Which of the two scripts: the one accepting a "-gpu" suffix, or the strict one. */
  datatype Variant = GpuSuffix | Strict

  /** The version part of a label, `\d{2}\.\d{2}`. */
  predicate IsVersion(v: string) {
    |v| == 5 && IsDigit(v[0]) && IsDigit(v[1]) && v[2] == '.' && IsDigit(v[3]) && IsDigit(v[4])
  }

  const Codenames: map<string, string> := map[
    "24.10" := "oracular", "24.04" := "noble", "23.10" := "mantic", "23.04" := "lunar",
    "22.10" := "kinetic", "22.04" := "jammy", "21.10" := "impish", "21.04" := "hirsute",
    "20.10" := "groovy", "20.04" := "focal"]

  const Providers: set<string> := {"aws", "gcp", "azure"}

  /** ubuntu-<codename>-<YY.MM> */
  function FmtAws(version: string, codename: string): string {
    "ubuntu-" + codename + "-" + version
  }

  /** ubuntu-<YYMM> */
  function FmtGcp(version: string, codename: string): string {
    "ubuntu-" + ReplaceAll(version, ".", "")
  }

  /** <YY_MM> */
  function FmtAzure(version: string, codename: string): string {
    ReplaceAll(version, ".", "_")
  }

  /** The label after strip() and lower(). */
  function Normal(lbl: string): string { Lower(Trim(lbl)) }

  /** `^ubuntu-(\d{2}\.\d{2})(?:-gpu)?$` on the normalised label, or without the suffix group for the strict variant. */
  function ParseLabel(variant: Variant, lbl: string): Option<string> {
    var t := Normal(lbl);
    if |t| >= 12 && t[..7] == "ubuntu-" && IsVersion(t[7..12]) &&
       (|t| == 12 || (variant == GpuSuffix && t[12..] == "-gpu"))
    then Some(t[7..12])
    else None
  }

  /** The grammar exactly: a version is returned iff the normalised label is ubuntu-<version>, or ubuntu-<version>-gpu where the suffix is allowed. */
  lemma {:induction false} ParseLabelIff(variant: Variant, lbl: string, v: string)
    ensures ParseLabel(variant, lbl) == Some(v) <==>
      IsVersion(v) && (Normal(lbl) == "ubuntu-" + v || (variant == GpuSuffix && Normal(lbl) == "ubuntu-" + v + "-gpu"))
  {
    var t := Normal(lbl);
    if Normal(lbl) == "ubuntu-" + v && IsVersion(v) {
      assert t[..7] == "ubuntu-" && t[7..12] == v;
    }
    if variant == GpuSuffix && Normal(lbl) == "ubuntu-" + v + "-gpu" && IsVersion(v) {
      assert t[..7] == "ubuntu-" && t[7..12] == v && t[12..] == "-gpu";
    }
    if ParseLabel(variant, lbl) == Some(v) {
      if |t| == 12 {
        assert t == t[..7] + t[7..12];
      } else {
        assert t == t[..7] + t[7..12] + t[12..];
      }
    }
  }

  datatype MapError = InvalidFormat(lbl: string) | UnknownVersion(version: string) | UnknownProvider(provider: string)

  /** The ValueError message of each failure. */
  function Message(variant: Variant, e: MapError): string {
    match e
    case InvalidFormat(lbl) =>
      "Invalid label format: '" + lbl + "'. Expected " +
      (if variant == GpuSuffix then "'ubuntu-YY.MM' or 'ubuntu-YY.MM-gpu'." else "'ubuntu-YY.MM'.")
    case UnknownVersion(v) => "Unknown Ubuntu version '" + v + "'. Add it to UBUNTU_CODENAMES."
    case UnknownProvider(p) => "Unknown provider: " + p
  }

  function Mapping(version: string, codename: string): map<string, string> {
    map["aws" := FmtAws(version, codename), "gcp" := FmtGcp(version, codename), "azure" := FmtAzure(version, codename)]
  }

  /** map_label: the three provider names, or the ValueError it raises. */
  function MapLabel(variant: Variant, lbl: string): (r: Result<map<string, string>, MapError>)
    ensures r.Ok? ==> r.value.Keys == Providers
  {
    match ParseLabel(variant, lbl)
    case None => Err(InvalidFormat(lbl))
    case Some(v) =>
      if v !in Codenames then Err(UnknownVersion(v)) else Ok(Mapping(v, Codenames[v]))
  }

  /** map_label fails on a malformed label and on a version without a codename, and otherwise applies the three formatters. */
  lemma {:induction false} MapLabelOutcome(variant: Variant, lbl: string)
    ensures ParseLabel(variant, lbl).None? ==> MapLabel(variant, lbl) == Err(InvalidFormat(lbl))
    ensures ParseLabel(variant, lbl).Some? && ParseLabel(variant, lbl).value !in Codenames ==>
      MapLabel(variant, lbl) == Err(UnknownVersion(ParseLabel(variant, lbl).value))
    ensures MapLabel(variant, lbl).Ok? <==> ParseLabel(variant, lbl).Some? && ParseLabel(variant, lbl).value in Codenames
    ensures MapLabel(variant, lbl).Ok? ==>
      var v := ParseLabel(variant, lbl).value;
      var m := MapLabel(variant, lbl).value;
      m["aws"] == "ubuntu-" + Codenames[v] + "-" + v &&
      m["gcp"] == "ubuntu-" + v[..2] + v[3..] &&
      m["azure"] == v[..2] + "_" + v[3..]
  {
    if MapLabel(variant, lbl).Ok? {
      var v := ParseLabel(variant, lbl).value;
      ParseLabelIff(variant, lbl, v);
      GcpShape(v);
      AzureShape(v);
    }
  }

  /** The gcp name drops the dot: YY.MM becomes YYMM. */
  lemma {:induction false} GcpShape(v: string)
    requires IsVersion(v)
    ensures ReplaceAll(v, ".", "") == v[..2] + v[3..]
  {
    var a, b := v[..2], v[3..];
    assert v == a + ("." + b);
    assert '.' !in a && '.' !in b;
    RemoveDot(a, b);
  }

  /** Deleting the dots from a dot between two dot-free strings joins them. */
  lemma {:induction false} RemoveDot(a: string, b: string)
    requires '.' !in a && '.' !in b
    ensures ReplaceAll(a + ("." + b), ".", "") == a + b
  {
    RemoveCharConcat(a, "." + b, '.');
    RemoveCharAbsent(a, '.');
    RemoveLeadingDot(b);
    RemoveCharAbsent(b, '.');
  }

  lemma {:induction false} RemoveLeadingDot(b: string)
    ensures ReplaceAll("." + b, ".", "") == ReplaceAll(b, ".", "")
  {
    var s := "." + b;
    assert "." <= s && s[1..] == b;
  }

  /** The azure name replaces the dot by an underscore: YY.MM becomes YY_MM. */
  lemma {:induction false} AzureShape(v: string)
    requires IsVersion(v)
    ensures ReplaceAll(v, ".", "_") == v[..2] + "_" + v[3..]
  {
    ReplaceCharAt(v, '.', '_');
    var r := ReplaceAll(v, ".", "_");
    assert r == v[..2] + "_" + v[3..] by {
      assert |r| == 5;
      forall i | 0 <= i < 5
        ensures r[i] == (v[..2] + "_" + v[3..])[i]
      {
        assert IsDigit(v[i]) || i == 2;
      }
    }
  }

  /** Each provider name determines the version: two versions share a gcp or an azure name exactly when they are equal. */
  lemma {:induction false} FormatsInjective(v: string, w: string)
    requires IsVersion(v) && IsVersion(w)
    ensures FmtGcp(v, "") == FmtGcp(w, "") <==> v == w
    ensures FmtAzure(v, "") == FmtAzure(w, "") <==> v == w
  {
    GcpInjective(v, w);
    AzureInjective(v, w);
  }

  lemma {:induction false} GcpInjective(v: string, w: string)
    requires IsVersion(v) && IsVersion(w)
    ensures FmtGcp(v, "") == FmtGcp(w, "") ==> v == w
  {
    GcpShape(v);
    GcpShape(w);
    var gv, gw := FmtGcp(v, ""), FmtGcp(w, "");
    if gv == gw {
      forall i | 0 <= i < 5
        ensures v[i] == w[i]
      {
        if i < 2 {
          assert gv[7 + i] == v[i] && gw[7 + i] == w[i];
        } else if i > 2 {
          assert gv[6 + i] == v[i] && gw[6 + i] == w[i];
        }
      }
    }
  }

  lemma {:induction false} AzureInjective(v: string, w: string)
    requires IsVersion(v) && IsVersion(w)
    ensures FmtAzure(v, "") == FmtAzure(w, "") ==> v == w
  {
    AzureShape(v);
    AzureShape(w);
    var av, aw := FmtAzure(v, ""), FmtAzure(w, "");
    if av == aw {
      forall i | 0 <= i < 5
        ensures v[i] == w[i]
      {
        assert i == 2 || (av[i] == v[i] && aw[i] == w[i]);
      }
    }
  }

  /** A version without surrounding space or capitals is its own normal form. */
  lemma {:induction false} NormalOfPlain(s: string)
    requires |s| > 0 && !IsSpace(s[0]) && !IsSpace(s[|s| - 1])
    requires forall i :: 0 <= i < |s| ==> !IsUpperLetter(s[i])
    ensures Normal(s) == s
  {
    TrimNoSpace(s);
    LowerOfLower(s);
  }

  /** The two spellings of a version's label are already normal. */
  lemma {:induction false} PlainLabels(v: string)
    requires IsVersion(v)
    ensures Normal("ubuntu-" + v) == "ubuntu-" + v
    ensures Normal("ubuntu-" + v + "-gpu") == "ubuntu-" + v + "-gpu"
  {
    var a, b := "ubuntu-" + v, "ubuntu-" + v + "-gpu";
    forall i | 0 <= i < |a|
      ensures !IsUpperLetter(a[i])
    {
      if i >= 7 { assert a[i] == v[i - 7]; }
    }
    forall i | 0 <= i < |b|
      ensures !IsUpperLetter(b[i])
    {
      if 7 <= i < 12 { assert b[i] == v[i - 7]; }
    }
    NormalOfPlain(a);
    NormalOfPlain(b);
  }

  /** With the suffix allowed, ubuntu-X-gpu maps exactly as ubuntu-X. */
  lemma {:induction false} GpuSuffixSameMapping(v: string)
    requires IsVersion(v)
    ensures MapLabel(GpuSuffix, "ubuntu-" + v + "-gpu") == MapLabel(GpuSuffix, "ubuntu-" + v)
  {
    PlainLabels(v);
    ParseLabelIff(GpuSuffix, "ubuntu-" + v, v);
    ParseLabelIff(GpuSuffix, "ubuntu-" + v + "-gpu", v);
  }

  type Outcome = Result<map<string, string>, MapError>

  /** Filling the dict label by label from the given outcomes; the first failure propagates. */
  function Collect(labels: seq<string>, results: seq<Outcome>): Result<map<string, map<string, string>>, MapError>
    requires |results| == |labels|
    decreases |labels|
  {
    if labels == [] then Ok(map[])
    else
      match results[0]
      case Err(e) => Err(e)
      case Ok(m) =>
        match Collect(labels[1..], results[1..])
        case Err(e) => Err(e)
        case Ok(rest) => Ok(rest[labels[0] := m])
  }

  function Outcomes(variant: Variant, labels: seq<string>): (r: seq<Outcome>)
    ensures |r| == |labels| && forall i :: 0 <= i < |labels| ==> r[i] == MapLabel(variant, labels[i])
  {
    seq(|labels|, i requires 0 <= i < |labels| => MapLabel(variant, labels[i]))
  }

  /** map_labels: map_label of each label in turn. */
  function MapLabels(variant: Variant, labels: seq<string>): Result<map<string, map<string, string>>, MapError> {
    Collect(labels, Outcomes(variant, labels))
  }

  lemma {:induction false} CollectOkIff(labels: seq<string>, results: seq<Outcome>)
    requires |results| == |labels|
    ensures Collect(labels, results).Ok? <==> forall i :: 0 <= i < |results| ==> results[i].Ok?
    decreases |labels|
  {
    if labels != [] {
      CollectOkIff(labels[1..], results[1..]);
      assert forall i :: 0 < i < |results| ==> results[i] == results[1..][i - 1];
    }
  }

  lemma {:induction false} CollectEntries(labels: seq<string>, results: seq<Outcome>)
    requires |results| == |labels| && Collect(labels, results).Ok?
    requires forall i :: 0 <= i < |results| ==> results[i].Ok?
    requires forall i, j :: 0 <= i < |labels| && 0 <= j < |labels| && labels[i] == labels[j] ==> results[i] == results[j]
    ensures Collect(labels, results).value.Keys == set l | l in labels
    ensures forall i :: 0 <= i < |labels| ==> Collect(labels, results).value[labels[i]] == results[i].value
    decreases |labels|
  {
    if labels != [] {
      var tl, tr := labels[1..], results[1..];
      assert forall i :: 0 <= i < |tr| ==> tr[i] == results[i + 1];
      assert forall i, j :: 0 <= i < |tl| && 0 <= j < |tl| && tl[i] == tl[j] ==> tr[i] == tr[j] by {
        forall i, j | 0 <= i < |tl| && 0 <= j < |tl| && tl[i] == tl[j]
          ensures tr[i] == tr[j]
        {
          assert labels[i + 1] == labels[j + 1];
        }
      }
      CollectEntries(tl, tr);
      assert forall l :: l in labels <==> l == labels[0] || l in tl;
      var r := Collect(labels, results).value;
      forall i | 0 <= i < |labels|
        ensures r[labels[i]] == results[i].value
      {
        if labels[i] != labels[0] {
          assert labels[i] == tl[i - 1] && results[i] == tr[i - 1];
        }
      }
    }
  }

  lemma {:induction false} CollectFirstError(labels: seq<string>, results: seq<Outcome>) returns (i: nat)
    requires |results| == |labels| && Collect(labels, results).Err?
    ensures i < |results| && results[i] == Err(Collect(labels, results).error)
    ensures forall j :: 0 <= j < i ==> results[j].Ok?
    decreases |labels|
  {
    if results[0].Err? {
      i := 0;
    } else {
      var k := CollectFirstError(labels[1..], results[1..]);
      i := k + 1;
      assert results[i] == results[1..][k];
      forall j | 0 < j < i
        ensures results[j].Ok?
      {
        assert results[j] == results[1..][j - 1];
      }
    }
  }

  /**
   * map_labels succeeds iff every label maps; then it has one entry per
   * label, keyed by the label as given, holding that label's mapping.
   */
  lemma {:induction false} MapLabelsEntries(variant: Variant, labels: seq<string>)
    ensures MapLabels(variant, labels).Ok? <==> forall i :: 0 <= i < |labels| ==> MapLabel(variant, labels[i]).Ok?
    ensures MapLabels(variant, labels).Ok? ==> MapLabels(variant, labels).value.Keys == set l | l in labels
    ensures MapLabels(variant, labels).Ok? ==>
      forall i :: 0 <= i < |labels| ==> MapLabels(variant, labels).value[labels[i]] == MapLabel(variant, labels[i]).value
  {
    var rs := Outcomes(variant, labels);
    CollectOkIff(labels, rs);
    if MapLabels(variant, labels).Ok? {
      CollectOkIff(labels, rs);
      CollectEntries(labels, rs);
    }
  }

  /** A failed map_labels reports the error of the first label that does not map. */
  lemma {:induction false} MapLabelsFirstError(variant: Variant, labels: seq<string>) returns (i: nat)
    requires MapLabels(variant, labels).Err?
    ensures i < |labels| && MapLabel(variant, labels[i]) == Err(MapLabels(variant, labels).error)
    ensures forall j :: 0 <= j < i ==> MapLabel(variant, labels[j]).Ok?
  {
    i := CollectFirstError(labels, Outcomes(variant, labels));
  }

  /** to_image_path: base/provider/name, the provider lowercased and checked before the label is mapped. */
  function ToImagePath(variant: Variant, provider: string, lbl: string, base: string): (r: Result<string, MapError>)
    ensures Lower(provider) !in Providers ==> r == Err(UnknownProvider(Lower(provider)))
    ensures Lower(provider) in Providers && MapLabel(variant, lbl).Err? ==> r == Err(MapLabel(variant, lbl).error)
    ensures Lower(provider) in Providers && MapLabel(variant, lbl).Ok? ==>
      r == Ok(base + "/" + Lower(provider) + "/" + MapLabel(variant, lbl).value[Lower(provider)])
  {
    var p := Lower(provider);
    if p !in Providers then Err(UnknownProvider(p))
    else
      match MapLabel(variant, lbl)
      case Err(e) => Err(e)
      case Ok(m) => Ok(base + "/" + p + "/" + m[p])
  }
}

// image-finder/label-mapper.py: the same mapping, accepting only
// "ubuntu-YY.MM" with no suffix.
module LabelMapperStrict {
  import opened Wrappers
  import LabelMapper

  function ParseLabel(lbl: string): Option<string> { LabelMapper.ParseLabel(LabelMapper.Strict, lbl) }

  /** The strict grammar: exactly ubuntu-<version> after strip and lower; a -gpu suffix is rejected. */
  lemma {:induction false} ParseLabelExact(lbl: string, v: string)
    ensures ParseLabel(lbl) == Some(v) <==> LabelMapper.IsVersion(v) && LabelMapper.Normal(lbl) == "ubuntu-" + v
    ensures LabelMapper.IsVersion(v) ==> ParseLabel("ubuntu-" + v + "-gpu").None?
  {
    LabelMapper.ParseLabelIff(LabelMapper.Strict, lbl, v);
    if LabelMapper.IsVersion(v) {
      LabelMapper.PlainLabels(v);
    }
  }

  function MapLabel(lbl: string): Result<map<string, string>, LabelMapper.MapError> {
    LabelMapper.MapLabel(LabelMapper.Strict, lbl)
  }

  /** Whatever the strict mapper accepts, the suffix-tolerant one maps to the same names. */
  lemma {:induction false} StrictAgrees(lbl: string)
    ensures MapLabel(lbl).Ok? ==> LabelMapper.MapLabel(LabelMapper.GpuSuffix, lbl) == MapLabel(lbl)
    ensures MapLabel(lbl).Ok? ==> MapLabel(lbl).value.Keys == LabelMapper.Providers
  {
  }

  function MapLabels(labels: seq<string>): Result<map<string, map<string, string>>, LabelMapper.MapError> {
    LabelMapper.MapLabels(LabelMapper.Strict, labels)
  }

  /** Every label must map; then there is one entry per input label, keyed by the label as given. */
  lemma {:induction false} MapLabelsKeys(labels: seq<string>)
    ensures MapLabels(labels).Ok? <==> forall i :: 0 <= i < |labels| ==> MapLabel(labels[i]).Ok?
    ensures MapLabels(labels).Ok? ==> MapLabels(labels).value.Keys == set l | l in labels
    ensures MapLabels(labels).Ok? ==> forall i :: 0 <= i < |labels| ==> MapLabels(labels).value[labels[i]] == MapLabel(labels[i]).value
  {
    LabelMapper.MapLabelsEntries(LabelMapper.Strict, labels);
  }

  function ToImagePath(provider: string, lbl: string, base: string): Result<string, LabelMapper.MapError> {
    LabelMapper.ToImagePath(LabelMapper.Strict, provider, lbl, base)
  }
}
