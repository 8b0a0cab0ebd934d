// ca-signer/main.go: the subject alternative names of the certificate the
// signer issues. The dNSName and iPAddress names of section 4.2.1.6 of
// RFC 5280 come from the controller node's internal addresses and from the
// CERT_SANS variable ("DNS:host,IP:10.0.0.1"). The Kubernetes API, key
// generation, X.509 encoding and net.ParseIP are inputs.
module CaSigner {
  import opened Wrappers
  import opened Strings

  // ------------------------------------------------------------ splitSANs

  /** One parsed SAN: its upper-cased type and its value. */
  datatype SanEntry = SanEntry(typ: string, value: string)

  /** One comma-separated part of CERT_SANS, or None when splitSANs skips it. */
  function SanOf(part: string): Option<SanEntry> {
    var p := TrimSpace(part);
    var colon := IndexOf(p, ':');
    if p == "" || colon < 1 || colon == |p| - 1 then None
    else
      var typ := Upper(TrimSpace(p[..colon]));
      var value := TrimSpace(p[colon + 1..]);
      if typ == "" || value == "" then None else Some(SanEntry(typ, value))
  }

  /** splitSANs as a value: the entries of the parts that survive, in order. */
  function SplitSans(sans: string): seq<SanEntry> {
    FilterMap(Split(sans, ','), SanOf)
  }

  /** splitSANs: the loop over the comma-separated parts, appending each valid entry. */
  method SplitSANs(sans: string) returns (res: seq<SanEntry>)
    ensures res == SplitSans(sans)
  {
    var parts := Split(sans, ',');
    res := [];
    for i := 0 to |parts|
      invariant res == FilterMap(parts[..i], SanOf)
    {
      assert parts[..i + 1] == parts[..i] + [parts[i]];
      FilterMapSnoc(parts[..i], parts[i], SanOf);
      var part := TrimSpace(parts[i]);
      if part == "" {
        assert SanOf(parts[i]).None?;
        continue;
      }
      var colon := IndexOf(part, ':');
      if colon < 1 || colon == |part| - 1 {
        assert SanOf(parts[i]).None?;
        continue;
      }
      var typ := Upper(TrimSpace(part[..colon]));
      var value := TrimSpace(part[colon + 1..]);
      if typ == "" || value == "" {
        assert SanOf(parts[i]).None?;
        continue;
      }
      assert SanOf(parts[i]) == Some(SanEntry(typ, value));
      res := res + [SanEntry(typ, value)];
    }
    assert parts[..|parts|] == parts;
  }

  /**
   * Every entry splitSANs keeps has a non-empty type without a colon and
   * without lower-case letters, and a non-empty value; neither has white
   * space at its ends.
   */
  lemma {:induction false} SanOfShape(part: string)
    ensures SanOf(part).Some? ==>
      var e := SanOf(part).value;
      e.typ != "" && e.value != "" && ':' !in e.typ &&
      (forall i :: 0 <= i < |e.typ| ==> !IsLowerLetter(e.typ[i])) &&
      !IsGoSpace(e.typ[0]) && !IsGoSpace(e.typ[|e.typ| - 1]) && !IsGoSpace(e.value[0]) && !IsGoSpace(e.value[|e.value| - 1])
  {
    if SanOf(part).Some? {
      var p := TrimSpace(part);
      var colon := IndexOf(p, ':');
      var t := TrimSpace(p[..colon]);
      assert SanOf(part) == Some(SanEntry(Upper(t), TrimSpace(p[colon + 1..])));
      TrimInfix(p[..colon]);
      UpperKeeps(t);
    }
  }

  /** Upper-casing keeps white space, colons and commas where they are, and leaves no lower-case letter. */
  lemma {:induction false} UpperKeeps(t: string)
    ensures forall i :: 0 <= i < |t| ==>
      (IsGoSpace(Upper(t)[i]) <==> IsGoSpace(t[i])) && (Upper(t)[i] == ':' <==> t[i] == ':') &&
      (Upper(t)[i] == ',' <==> t[i] == ',') && !IsLowerLetter(Upper(t)[i])
  {
  }

  /** A SAN written as TYPE:value. */
  function Render(e: SanEntry): string { e.typ + ":" + e.value }

  /** An entry that splitSANs can carry unchanged in its value: no comma, no colon in the type, no white space at the ends. */
  predicate Writable(e: SanEntry) {
    e.typ != "" && e.value != "" && ':' !in e.typ && ',' !in e.typ && ',' !in e.value &&
    !IsGoSpace(e.typ[0]) && !IsGoSpace(e.typ[|e.typ| - 1]) && !IsGoSpace(e.value[0]) && !IsGoSpace(e.value[|e.value| - 1])
  }

  /**
   * Reading a written SAN gives back its value and its upper-cased type.
   * Only the first colon splits, so a value may itself hold colons, as
   * in IP:fe80::1.
   */
  lemma {:induction false} SanOfRender(e: SanEntry)
    requires Writable(e)
    ensures SanOf(Render(e)) == Some(SanEntry(Upper(e.typ), e.value))
  {
    var s := Render(e);
    var n := |e.typ|;
    assert s[0] == e.typ[0] && s[|s| - 1] == e.value[|e.value| - 1];
    TrimSpaceNoSpace(s);
    assert s[n] == ':' && s[..n] == e.typ;
    IndexOfAt(s, ':', n);
    assert s[n + 1..] == e.value;
    TrimSpaceNoSpace(e.typ);
    TrimSpaceNoSpace(e.value);
    assert s != "" && 1 <= n < |s| - 1;
    assert TrimSpace(s[..n]) == e.typ && TrimSpace(s[n + 1..]) == e.value;
  }

  /** The output of splitSANs is already in written form: reading its entries again keeps them. */
  lemma {:induction false} SanOfIdempotent(part: string)
    requires ',' !in part && SanOf(part).Some?
    ensures SanOf(Render(SanOf(part).value)) == SanOf(part)
  {
    var e := SanOf(part).value;
    SanOfShape(part);
    SanOfNoComma(part);
    SanOfRender(e);
    UpperIdempotent(e.typ);
  }

  /** A part without a comma gives an entry without one. */
  lemma {:induction false} SanOfNoComma(part: string)
    requires ',' !in part && SanOf(part).Some?
    ensures ',' !in SanOf(part).value.typ && ',' !in SanOf(part).value.value
  {
    var p := TrimSpace(part);
    var colon := IndexOf(p, ':');
    var t, v := TrimSpace(p[..colon]), TrimSpace(p[colon + 1..]);
    assert SanOf(part).value == SanEntry(Upper(t), v);
    assert ',' !in p by {
      AbsentAfterTrim(part, ',');
    }
    assert ',' !in t by {
      assert forall c :: c in p[..colon] ==> c in p;
      AbsentAfterTrim(p[..colon], ',');
    }
    assert ',' !in v by {
      assert forall c :: c in p[colon + 1..] ==> c in p;
      AbsentAfterTrim(p[colon + 1..], ',');
    }
    assert ',' !in Upper(t) by {
      UpperKeeps(t);
    }
  }

  /** A character missing from a string is missing from its trim. */
  lemma {:induction false} AbsentAfterTrim(s: string, c: char)
    requires c !in s
    ensures c !in TrimSpace(s)
  {
    TrimInfix(s);
  }

  /** Trimming keeps only characters of the original. */
  lemma {:induction false} TrimInfix(s: string)
    ensures forall i :: 0 <= i < |TrimSpace(s)| ==> TrimSpace(s)[i] in s
  {
    var i := SkipGoSpaces(s, 0);
    var j := BackGoSpaces(s, i, |s|);
    assert TrimSpace(s) == s[i..j];
    forall k | 0 <= k < j - i
      ensures s[i..j][k] in s
    {
      assert s[i..j][k] == s[i + k];
    }
  }

  /** Upper-casing a string without lower-case letters changes nothing. */
  lemma {:induction false} UpperIdempotent(s: string)
    requires forall i :: 0 <= i < |s| ==> !IsLowerLetter(s[i])
    ensures Upper(s) == s
  {
  }

  /** The written form of a list of SANs. */
  function RenderAll(es: seq<SanEntry>): (r: seq<string>)
    ensures |r| == |es|
  {
    MapSeq(es, Render)
  }

  function Canonical(e: SanEntry): SanEntry { SanEntry(Upper(e.typ), e.value) }

  /**
   * splitSANs reads back a comma-joined list of written SANs: the same
   * entries in the same order, types upper-cased.
   */
  lemma {:induction false} SplitSansJoin(es: seq<SanEntry>)
    requires es != []
    requires forall i :: 0 <= i < |es| ==> Writable(es[i])
    ensures SplitSans(Join(RenderAll(es), ",")) == MapSeq(es, Canonical)
  {
    var parts := RenderAll(es);
    MapSeqAt(es, Render);
    forall i | 0 <= i < |parts|
      ensures ',' !in parts[i]
    {
      assert parts[i] == es[i].typ + ":" + es[i].value;
    }
    SplitJoin(parts, ',');
    FilterMapAllSome(es);
  }

  lemma {:induction false} FilterMapAllSome(es: seq<SanEntry>)
    requires forall i :: 0 <= i < |es| ==> Writable(es[i])
    ensures FilterMap(RenderAll(es), SanOf) == MapSeq(es, Canonical)
    decreases |es|
  {
    if es != [] {
      var init, e := es[..|es| - 1], es[|es| - 1];
      FilterMapAllSome(init);
      assert RenderAll(es) == RenderAll(init) + [Render(e)];
      FilterMapSnoc(RenderAll(init), Render(e), SanOf);
      SanOfRender(e);
    }
  }

  /** Empty and white-space-only parts, and parts without TYPE:value, are dropped. */
  lemma {:induction false} SplitSansSkips(a: string, b: string, junk: string)
    requires ',' !in junk && SanOf(junk).None?
    ensures SplitSans(a + "," + junk + "," + b) == SplitSans(a + "," + b)
  {
    SplitAround(a, b, junk);
    SkipPart(Split(a, ','), Split(b, ','), junk);
  }

  lemma {:induction false} SplitAround(a: string, b: string, junk: string)
    requires ',' !in junk
    ensures Split(a + "," + junk + "," + b, ',') == Split(a, ',') + ([junk] + Split(b, ','))
    ensures Split(a + "," + b, ',') == Split(a, ',') + Split(b, ',')
  {
    var tail := junk + [','] + b;
    assert a + "," + junk + "," + b == a + [','] + tail;
    SplitConcat(a, tail, ',');
    SplitConcat(junk, b, ',');
    assert IndexOf(junk, ',') == -1;
    assert Split(junk, ',') == [junk];
    assert a + "," + b == a + [','] + b;
    SplitConcat(a, b, ',');
  }

  lemma {:induction false} SkipPart(pa: seq<string>, pb: seq<string>, junk: string)
    requires SanOf(junk).None?
    ensures FilterMap(pa + ([junk] + pb), SanOf) == FilterMap(pa + pb, SanOf)
  {
    assert FilterMap([junk], SanOf) == [] by {
      assert [junk][..0] == [];
    }
    FilterMapConcat(pa, [junk] + pb, SanOf);
    FilterMapConcat([junk], pb, SanOf);
    assert [] + FilterMap(pb, SanOf) == FilterMap(pb, SanOf);
    FilterMapConcat(pa, pb, SanOf);
  }

  // ----------------------------------------------------- SAN dispatch

  /** An address as net.ParseIP returns it; the empty slice stands for nil. */
  type Ip = seq<int>

  function DnsValue(e: SanEntry): Option<string> {
    if e.typ == "DNS" then Some(e.value) else None
  }

  function IpValue(parseIp: string -> Ip, e: SanEntry): Option<Ip> {
    if e.typ == "IP" && parseIp(e.value) != [] then Some(parseIp(e.value)) else None
  }

  /** The DNS names the entries contribute, in order. */
  function DnsOf(es: seq<SanEntry>): seq<string> {
    FilterMap(es, DnsValue)
  }

  /** The addresses the IP entries contribute, in order: only those that parse. */
  function IpsOf(es: seq<SanEntry>, parseIp: string -> Ip): seq<Ip> {
    FilterMap(es, e => IpValue(parseIp, e))
  }

  /**
   * The dispatch: a name is a DNS name of the certificate exactly when a
   * DNS entry carries it, an address is one of its SAN addresses exactly when
   * an IP entry parses to it, entries of other types contribute nothing, and
   * both lists keep the entries' order.
   */
  lemma {:induction false} DispatchSpec(es: seq<SanEntry>, more: seq<SanEntry>, parseIp: string -> Ip, name: string, ip: Ip)
    ensures name in DnsOf(es) <==> exists i :: 0 <= i < |es| && es[i].typ == "DNS" && es[i].value == name
    ensures ip in IpsOf(es, parseIp) <==>
      exists i :: 0 <= i < |es| && es[i].typ == "IP" && ip != [] && parseIp(es[i].value) == ip
    ensures DnsOf(es + more) == DnsOf(es) + DnsOf(more)
    ensures IpsOf(es + more, parseIp) == IpsOf(es, parseIp) + IpsOf(more, parseIp)
    ensures (forall i :: 0 <= i < |es| ==> es[i].typ !in {"DNS", "IP"}) ==> DnsOf(es) == [] && IpsOf(es, parseIp) == []
  {
    FilterMapMember(es, DnsValue, name);
    FilterMapMember(es, e => IpValue(parseIp, e), ip);
    FilterMapConcat(es, more, DnsValue);
    FilterMapConcat(es, more, e => IpValue(parseIp, e));
    if forall i :: 0 <= i < |es| ==> es[i].typ !in {"DNS", "IP"} {
      NothingDispatched(es, parseIp);
    }
  }

  lemma {:induction false} NothingDispatched(es: seq<SanEntry>, parseIp: string -> Ip)
    requires forall i :: 0 <= i < |es| ==> es[i].typ !in {"DNS", "IP"}
    ensures DnsOf(es) == [] && IpsOf(es, parseIp) == []
    decreases |es|
  {
    if es != [] {
      var init := es[..|es| - 1];
      assert forall i :: 0 <= i < |init| ==> init[i] == es[i];
      NothingDispatched(init, parseIp);
    }
  }

  // ------------------------------------------------ getControllerNodeIPs

  /** One entry of node.Status.Addresses. */
  datatype NodeAddress = NodeAddress(typ: string, address: string)

  datatype NodeError = NodeGetFailed(node: string) | NoInternalIp(node: string)

  /** os.Getenv: "" for an unset variable. */
  function GetEnv(env: map<string, string>, name: string): string {
    if name in env then env[name] else ""
  }

  const DefaultNode := "skycluster-control-plane"

  /** The node to look up: CONTROLLER_NODE_NAME, or the default when it is empty. */
  function NodeName(env: map<string, string>): (n: string)
    ensures n != ""
  {
    if GetEnv(env, "CONTROLLER_NODE_NAME") == "" then DefaultNode else GetEnv(env, "CONTROLLER_NODE_NAME")
  }

  function InternalValue(a: NodeAddress): Option<string> {
    if a.typ == "InternalIP" then Some(a.address) else None
  }

  function InternalIps(addrs: seq<NodeAddress>): seq<string> {
    FilterMap(addrs, InternalValue)
  }

  /** What getControllerNodeIPs returns for the node it fetched (None when the fetch fails). */
  function ControllerIps(nodeName: string, node: Option<seq<NodeAddress>>): Result<seq<string>, NodeError> {
    match node
    case None => Err(NodeGetFailed(nodeName))
    case Some(addrs) =>
      var ips := InternalIps(addrs);
      if ips == [] then Err(NoInternalIp(nodeName)) else Ok(ips)
  }

  /**
   * getControllerNodeIPs succeeds exactly when the node is fetched and has
   * an InternalIP address; it then returns the InternalIP addresses and
   * nothing else, in the node's order.
   */
  lemma {:induction false} ControllerIpsSpec(nodeName: string, node: Option<seq<NodeAddress>>, x: string)
    ensures node.None? ==> ControllerIps(nodeName, node) == Err(NodeGetFailed(nodeName))
    ensures node.Some? ==>
      (ControllerIps(nodeName, node).Ok? <==> exists i :: 0 <= i < |node.value| && node.value[i].typ == "InternalIP")
    ensures ControllerIps(nodeName, node).Ok? ==>
      (x in ControllerIps(nodeName, node).value <==>
        exists i :: 0 <= i < |node.value| && node.value[i] == NodeAddress("InternalIP", x))
    ensures node.Some? ==> forall more: seq<NodeAddress> {:trigger node.value + more} ::
      InternalIps(node.value + more) == InternalIps(node.value) + InternalIps(more)
  {
    if node.Some? {
      var addrs := node.value;
      FilterMapMember(addrs, InternalValue, x);
      if exists i :: 0 <= i < |addrs| && addrs[i].typ == "InternalIP" {
        var i :| 0 <= i < |addrs| && addrs[i].typ == "InternalIP";
        FilterMapMember(addrs, InternalValue, addrs[i].address);
      }
      var ips := InternalIps(addrs);
      if ips != [] {
        FilterMapMember(addrs, InternalValue, ips[0]);
      }
      forall more: seq<NodeAddress>
        ensures InternalIps(addrs + more) == InternalIps(addrs) + InternalIps(more)
      {
        FilterMapConcat(addrs, more, InternalValue);
      }
    }
  }

  /** getControllerNodeIPs: fetch the node and collect its InternalIP addresses. */
  method GetControllerNodeIPs(env: map<string, string>, getNode: string -> Option<seq<NodeAddress>>)
    returns (r: Result<seq<string>, NodeError>)
    ensures r == ControllerIps(NodeName(env), getNode(NodeName(env)))
  {
    var nodeName := GetEnv(env, "CONTROLLER_NODE_NAME");
    if nodeName == "" {
      nodeName := DefaultNode;
    }
    var node := getNode(nodeName);
    if node.None? {
      return Err(NodeGetFailed(nodeName));
    }
    var addrs := node.value;
    var controllerIp: seq<string> := [];
    for i := 0 to |addrs|
      invariant controllerIp == FilterMap(addrs[..i], InternalValue)
    {
      assert addrs[..i + 1] == addrs[..i] + [addrs[i]];
      FilterMapSnoc(addrs[..i], addrs[i], InternalValue);
      if addrs[i].typ == "InternalIP" {
        controllerIp := controllerIp + [addrs[i].address];
      }
    }
    assert addrs[..|addrs|] == addrs;
    if controllerIp == [] {
      return Err(NoInternalIp(nodeName));
    }
    r := Ok(controllerIp);
  }

  // ------------------------------------------------------------- main

  /** The certificate template's subject and SAN lists. */
  class Template {
    const commonName: string
    var dnsNames: seq<string>
    var ipAddresses: seq<Ip>

    constructor(commonName: string)
      ensures this.commonName == commonName && dnsNames == [] && ipAddresses == []
    {
      this.commonName := commonName;
      dnsNames := [];
      ipAddresses := [];
    }

    /** Appends net.ParseIP of every controller address, whether or not it parses. */
    method AddControllerIps(ips: seq<string>, parseIp: string -> Ip)
      modifies this
      ensures dnsNames == old(dnsNames)
      ensures ipAddresses == old(ipAddresses) + MapSeq(ips, parseIp)
    {
      ghost var before := ipAddresses;
      for i := 0 to |ips|
        invariant dnsNames == old(dnsNames)
        invariant ipAddresses == before + MapSeq(ips[..i], parseIp)
      {
        assert ips[..i + 1][..i] == ips[..i];
        ipAddresses := ipAddresses + [parseIp(ips[i])];
      }
      assert ips[..|ips|] == ips;
    }

    /** The switch over the SAN entries: DNS names appended, parsed IP addresses appended, other types ignored. */
    method AddSans(entries: seq<SanEntry>, parseIp: string -> Ip)
      modifies this
      ensures dnsNames == old(dnsNames) + DnsOf(entries)
      ensures ipAddresses == old(ipAddresses) + IpsOf(entries, parseIp)
    {
      ghost var dns0, ips0 := dnsNames, ipAddresses;
      for i := 0 to |entries|
        invariant dnsNames == dns0 + DnsOf(entries[..i])
        invariant ipAddresses == ips0 + IpsOf(entries[..i], parseIp)
      {
        var san := entries[i];
        assert entries[..i + 1] == entries[..i] + [san];
        FilterMapSnoc(entries[..i], san, DnsValue);
        FilterMapSnoc(entries[..i], san, e => IpValue(parseIp, e));
        if san.typ == "DNS" {
          dnsNames := dnsNames + [san.value];
        } else if san.typ == "IP" {
          var ip := parseIp(san.value);
          if ip != [] {
            ipAddresses := ipAddresses + [ip];
          }
        }
      }
      assert entries[..|entries|] == entries;
    }
  }

  /** Why the signer stops with log.Fatal before issuing the certificate. */
  datatype Fatal = MissingEnv | NoCluster | NodeLookup(e: NodeError) | BadCaSecret

  /** The four variables that must be non-empty. */
  predicate HasRequiredEnv(env: map<string, string>) {
    GetEnv(env, "CA_SECRET_NAME") != "" && GetEnv(env, "OUTPUT_SECRET_NAME") != "" &&
    GetEnv(env, "NAMESPACE") != "" && GetEnv(env, "CERT_COMMON_NAME") != ""
  }

  /** What the template holds when it is built: the common name, the DNS names and the addresses. */
  datatype Names = Names(commonName: string, dnsNames: seq<string>, ipAddresses: seq<Ip>)

  /**
   * main up to the certificate template: clusterOk says whether the
   * in-cluster configuration and client are obtained, caOk whether the CA
   * secret is fetched and its certificate and key decode.
   */
  function Sans(env: map<string, string>, clusterOk: bool, getNode: string -> Option<seq<NodeAddress>>,
                caOk: bool, parseIp: string -> Ip): Result<Names, Fatal> {
    if !HasRequiredEnv(env) then Err(MissingEnv)
    else if !clusterOk then Err(NoCluster)
    else
      match ControllerIps(NodeName(env), getNode(NodeName(env)))
      case Err(e) => Err(NodeLookup(e))
      case Ok(ips) =>
        if !caOk then Err(BadCaSecret)
        else
          var entries := SplitSans(GetEnv(env, "CERT_SANS"));
          Ok(Names(GetEnv(env, "CERT_COMMON_NAME"), DnsOf(entries), MapSeq(ips, parseIp) + IpsOf(entries, parseIp)))
  }

  /**
   * A missing required variable is fatal before anything else is consulted;
   * an issued template lists the controller's addresses first, then the IP
   * SANs, and its DNS names are exactly the DNS SANs.
   */
  lemma {:induction false} SansSpec(env: map<string, string>, clusterOk: bool, getNode: string -> Option<seq<NodeAddress>>,
                                    caOk: bool, parseIp: string -> Ip)
    ensures !HasRequiredEnv(env) ==> Sans(env, clusterOk, getNode, caOk, parseIp) == Err(MissingEnv)
    ensures var r := Sans(env, clusterOk, getNode, caOk, parseIp);
      r.Ok? ==>
        var node := getNode(NodeName(env));
        var ips := ControllerIps(NodeName(env), node);
        var entries := SplitSans(GetEnv(env, "CERT_SANS"));
        HasRequiredEnv(env) && clusterOk && caOk && ips.Ok? && ips.value != [] &&
        r.value.commonName == GetEnv(env, "CERT_COMMON_NAME") &&
        r.value.ipAddresses[..|ips.value|] == MapSeq(ips.value, parseIp) &&
        r.value.ipAddresses[|ips.value|..] == IpsOf(entries, parseIp) &&
        r.value.dnsNames == DnsOf(entries)
  {
    var r := Sans(env, clusterOk, getNode, caOk, parseIp);
    if r.Ok? {
      var ips := ControllerIps(NodeName(env), getNode(NodeName(env))).value;
      var entries := SplitSans(GetEnv(env, "CERT_SANS"));
      var a, b := MapSeq(ips, parseIp), IpsOf(entries, parseIp);
      assert (a + b)[..|a|] == a && (a + b)[|a|..] == b;
    }
  }

  /** An empty CERT_SANS has no entries, which is why main's `sans != ""` test changes nothing. */
  lemma {:induction false} SplitSansEmpty()
    ensures SplitSans("") == []
  {
    assert Split("", ',') == [""];
    FilterMapSnoc([], "", SanOf);
    assert [] + [""] == [""];
  }

  /** main, up to the certificate template. */
  method BuildTemplate(env: map<string, string>, clusterOk: bool, getNode: string -> Option<seq<NodeAddress>>,
                       caOk: bool, parseIp: string -> Ip) returns (r: Result<Template, Fatal>)
    ensures var spec := Sans(env, clusterOk, getNode, caOk, parseIp);
      (r.Err? <==> spec.Err?) && (r.Err? ==> r.error == spec.error) &&
      (r.Ok? ==> fresh(r.value) && spec.value == Names(r.value.commonName, r.value.dnsNames, r.value.ipAddresses))
  {
    if !HasRequiredEnv(env) {
      return Err(MissingEnv);
    }
    if !clusterOk {
      return Err(NoCluster);
    }
    var controllerNodeIps := GetControllerNodeIPs(env, getNode);
    if controllerNodeIps.Err? {
      return Err(NodeLookup(controllerNodeIps.error));
    }
    if !caOk {
      return Err(BadCaSecret);
    }
    var template := FillTemplate(GetEnv(env, "CERT_COMMON_NAME"), controllerNodeIps.value, GetEnv(env, "CERT_SANS"), parseIp);
    r := Ok(template);
  }

  /** The template and its SANs: controller addresses first, then the SANs of CERT_SANS. */
  method FillTemplate(commonName: string, controllerNodeIps: seq<string>, sans: string, parseIp: string -> Ip)
    returns (template: Template)
    ensures fresh(template) && template.commonName == commonName
    ensures template.dnsNames == DnsOf(SplitSans(sans))
    ensures template.ipAddresses == MapSeq(controllerNodeIps, parseIp) + IpsOf(SplitSans(sans), parseIp)
  {
    template := new Template(commonName);
    if |controllerNodeIps| > 0 {
      template.AddControllerIps(controllerNodeIps, parseIp);
    }
    assert template.ipAddresses == MapSeq(controllerNodeIps, parseIp);
    if sans != "" {
      var entries := SplitSANs(sans);
      template.AddSans(entries, parseIp);
    } else {
      SplitSansEmpty();
    }
  }
}
