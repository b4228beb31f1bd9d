// The Talos machineconfig injections: controllers/hetznerrobotmachine_inject.go from line 58 on,
// in the order stateApplyConfig runs them.
module Inject {
  import opened Common
  import opened Documents
  import opened Tree
  import Ipv6
  import ProviderIds

  datatype Vlan = Vlan(id: int, prefixLength: int)

  const DISK: Path := ["machine", "install", "disk"]
  const INTERFACES: Path := ["machine", "network", "interfaces"]
  const FORWARDING: Path := ["machine", "sysctls", "net.ipv6.conf.all.forwarding"]
  const NODE_IP: Path := ["machine", "kubelet", "extraArgs", "node-ip"]
  const PROVIDER_ID: Path := ["machine", "kubelet", "extraArgs", "provider-id"]
  const VLANS := "vlans"
  const SELECTOR := "deviceSelector"
  const MAC := "hardwareAddr"

  // ---- What each injection does to a decoded machineconfig ----

  function DiskOrDefault(disk: string): string { if disk == "" then "/dev/nvme0n1" else disk }

  function WithDisk(n: Node, disk: string): Node {
    if Lookup(n, DISK).Some? then n else Put(n, DISK, Str(disk))
  }

  function Interfaces(n: Node): seq<Node> {
    match Lookup(n, INTERFACES)
    case None => []
    case Some(v) => Items(v)
  }

  function WithoutVlans(iface: Node): Node {
    if iface.Map? then Map(iface.entries - {VLANS}) else iface
  }

  function Stripped(ifaces: seq<Node>): (r: seq<Node>)
    ensures |r| == |ifaces| && forall i | 0 <= i < |r| :: r[i] == WithoutVlans(ifaces[i])
  {
    seq(|ifaces|, i requires 0 <= i < |ifaces| => WithoutVlans(ifaces[i]))
  }

  function VlanEntry(vlan: Vlan, internalIP: string, mac: string): Node {
    var prefix := if vlan.prefixLength == 0 then 24 else vlan.prefixLength;
    Map(map[
      SELECTOR := Map(map["physical" := Bool(true), MAC := Str(mac)]),
      VLANS := List([Map(map[
        "vlanId" := Int(vlan.id),
        "addresses" := List([Str(internalIP + "/" + ProviderIds.FormatInt(prefix))])])])])
  }

  function Ipv6Entry(net: string, mac: string): Node {
    var selector: map<string, Node> := map["physical" := Bool(true)];
    Map(map[
      SELECTOR := Map(if mac == "" then selector else selector[MAC := Str(mac)]),
      "addresses" := List([Str(Ipv6.TalosInterfaceAddress(net))]),
      "routes" := List([Map(map["network" := Str("::/0"), "gateway" := Str("fe80::1")])])])
  }

  function WithVlan(n: Node, vlan: Vlan, internalIP: string, mac: string): Node {
    Put(n, INTERFACES, List(Stripped(Interfaces(n)) + [VlanEntry(vlan, internalIP, mac)]))
  }

  function WithIpv6(n: Node, net: string, mac: string): Node {
    Put(Put(n, INTERFACES, List(Interfaces(n) + [Ipv6Entry(net, mac)])), FORWARDING, Str("1"))
  }

  // The node-ip argument, or "" when kubelet is left to detect it.
  function NodeIP(internalIP: string, net: string): string {
    if net == "" then internalIP
    else if internalIP == "" then Ipv6.NodeAddress(net)
    else internalIP + "," + Ipv6.NodeAddress(net)
  }

  // ---- The closures the source runs on the decoded map ----

  lemma Put3(n: Node, a: string, b: string, c: string, v: Node)
    ensures Put(n, [a, b, c], v)
            == Map(Entries(n)[a := Map(Entries(Child(n, a))[b := Map(Entries(Child(Child(n, a), b))[c := v])])])
  {
    assert [a, b, c][1..] == [b, c] && [b, c][1..] == [c] && [c][1..] == [];
    var inner := Child(Child(n, a), b);
    assert Put(inner, [c], v) == Map(Entries(inner)[c := v]);
    assert Put(Child(n, a), [b, c], v) == Map(Entries(Child(n, a))[b := Put(inner, [c], v)]);
  }

  lemma Lookup3(n: Node, a: string, b: string, c: string)
    ensures Lookup(n, [a, b, c]) ==
            (var m := Entries(Child(Child(n, a), b)); if c in m then Some(m[c]) else None)
  {
    assert [a, b, c][1..] == [b, c] && [b, c][1..] == [c] && [c][1..] == [];
    if n.Map? && a in n.entries {
      var x := n.entries[a];
      if x.Map? && b in x.entries {
        var y := x.entries[b];
        assert Lookup(x, [b, c]) == Lookup(y, [c]);
        assert Lookup(y, [c]) == if c in Entries(y) then Some(Entries(y)[c]) else None;
      }
    }
  }

  lemma Put4(n: Node, a: string, b: string, c: string, d: string, v: Node)
    ensures Put(n, [a, b, c, d], v) == Map(Entries(n)[a := Put(Child(n, a), [b, c, d], v)])
  {
    assert [a, b, c, d][1..] == [b, c, d];
  }

  // One decoded machineconfig. Nested maps are values here, so each method writes them back.
  class Config {
    var root: map<string, Node>

    constructor (entries: map<string, Node>)
      ensures Root() == Map(entries)
    {
      root := entries;
    }

    function Root(): Node
      reads this
    {
      Map(root)
    }

    // The child map at key, empty when it is absent or no map.
    static function EnsureMap(parent: map<string, Node>, key: string): map<string, Node> {
      Entries(Child(Map(parent), key))
    }

    method SetInstallDisk(disk: string)
      modifies this
      ensures Root() == WithDisk(old(Root()), disk)
    {
      Put3(Root(), "machine", "install", "disk", Str(disk));
      Lookup3(Root(), "machine", "install", "disk");
      var machine := EnsureMap(root, "machine");
      var install := EnsureMap(machine, "install");
      if "disk" !in install {
        install := install["disk" := Str(disk)];
        machine := machine["install" := Map(install)];
        root := root["machine" := Map(machine)];
      }
    }

    method AddVlan(vlan: Vlan, internalIP: string, mac: string)
      modifies this
      ensures Root() == WithVlan(old(Root()), vlan, internalIP, mac)
    {
      Lookup3(Root(), "machine", "network", "interfaces");
      var machine := EnsureMap(root, "machine");
      var network := EnsureMap(machine, "network");
      var interfaces := if "interfaces" in network then Items(network["interfaces"]) else [];
      ghost var was := interfaces;
      assert was == Interfaces(Root());
      for i := 0 to |interfaces|
        invariant |interfaces| == |was|
        invariant forall j | 0 <= j < i :: interfaces[j] == WithoutVlans(was[j])
        invariant forall j | i <= j < |was| :: interfaces[j] == was[j]
      {
        if !interfaces[i].Map? {
          continue;
        }
        interfaces := interfaces[i := Map(interfaces[i].entries - {VLANS})];
      }
      assert interfaces == Stripped(was);
      interfaces := interfaces + [VlanEntry(vlan, internalIP, mac)];
      Put3(Root(), "machine", "network", "interfaces", List(interfaces));
      network := network["interfaces" := List(interfaces)];
      machine := machine["network" := Map(network)];
      root := root["machine" := Map(machine)];
    }

    method AddIpv6(net: string, mac: string)
      modifies this
      ensures Root() == WithIpv6(old(Root()), net, mac)
    {
      Lookup3(Root(), "machine", "network", "interfaces");
      var machine := EnsureMap(root, "machine");
      var network := EnsureMap(machine, "network");
      var interfaces := if "interfaces" in network then Items(network["interfaces"]) else [];
      interfaces := interfaces + [Ipv6Entry(net, mac)];
      Put3(Root(), "machine", "network", "interfaces", List(interfaces));
      network := network["interfaces" := List(interfaces)];
      machine := machine["network" := Map(network)];
      root := root["machine" := Map(machine)];
      Put3(Root(), "machine", "sysctls", "net.ipv6.conf.all.forwarding", Str("1"));
      var sysctls := EnsureMap(machine, "sysctls");
      sysctls := sysctls["net.ipv6.conf.all.forwarding" := Str("1")];
      machine := machine["sysctls" := Map(sysctls)];
      root := root["machine" := Map(machine)];
    }

    method SetKubeletArg(arg: string, value: string)
      modifies this
      ensures Root() == Put(old(Root()), ["machine", "kubelet", "extraArgs", arg], Str(value))
    {
      Put4(Root(), "machine", "kubelet", "extraArgs", arg, Str(value));
      Put3(Child(Root(), "machine"), "kubelet", "extraArgs", arg, Str(value));
      var machine := EnsureMap(root, "machine");
      var kubelet := EnsureMap(machine, "kubelet");
      var extraArgs := EnsureMap(kubelet, "extraArgs");
      extraArgs := extraArgs[arg := Str(value)];
      kubelet := kubelet["extraArgs" := Map(extraArgs)];
      machine := machine["kubelet" := Map(kubelet)];
      root := root["machine" := Map(machine)];
    }
  }

  // ---- The whole pipeline ----

  // What stateApplyConfig knows: the resolved disk, the detected NIC and gateway, the host and
  // cluster settings and the server's ID.
  datatype Plan = Plan(
    disk: string,
    primaryMAC: string,
    gatewayIP: string,
    vlan: Option<Vlan>,
    internalIP: string,
    ipv6Net: string,
    serverID: int)

  predicate Complete(plan: Plan) {
    && plan.primaryMAC != ""
    && (plan.vlan.Some? ==> plan.internalIP != "" && plan.gatewayIP != "")
  }

  // internalIP is used only together with a VLAN.
  function PlannedNodeIP(plan: Plan): string {
    NodeIP(if plan.vlan.None? then "" else plan.internalIP, plan.ipv6Net)
  }

  function AfterDisk(n: Node, plan: Plan): Node { WithDisk(n, DiskOrDefault(plan.disk)) }

  function AfterVlan(n: Node, plan: Plan): Node {
    if plan.vlan.None? then AfterDisk(n, plan)
    else WithVlan(AfterDisk(n, plan), plan.vlan.value, plan.internalIP, plan.primaryMAC)
  }

  function AfterIpv6(n: Node, plan: Plan): Node {
    if plan.ipv6Net == "" then AfterVlan(n, plan)
    else WithIpv6(AfterVlan(n, plan), plan.ipv6Net, plan.primaryMAC)
  }

  function AfterNodeIP(n: Node, plan: Plan): Node {
    if PlannedNodeIP(plan) == "" then AfterIpv6(n, plan)
    else Put(AfterIpv6(n, plan), NODE_IP, Str(PlannedNodeIP(plan)))
  }

  function Injected(n: Node, plan: Plan): Node {
    Put(AfterNodeIP(n, plan), PROVIDER_ID, Str(ProviderIds.Print(plan.serverID)))
  }

  predicate Decodable(c: Codec, data: string) {
    var docs := SplitDocs(data);
    docs != [] && c.decode(docs[0]).Ok? && c.decode(docs[0]).value.Map?
  }

  function FirstDocument(c: Codec, data: string): Node
    requires Decodable(c, data)
  {
    c.decode(SplitDocs(data)[0]).value
  }

  // Documents that have lost characters of `rest`, or are settled on something else.
  predicate Strayed(docs: seq<string>, rest: seq<string>) {
    Weight(docs) < Weight(rest) || (CleanDocs(docs) && docs != rest)
  }

  // The text's first document is n; the others are those of `rest` if those are clean, and
  // have strayed from them for good otherwise.
  predicate Carries(c: Codec, text: string, n: Node, rest: seq<string>) {
    && Decodable(c, text)
    && FirstDocument(c, text) == n
    && (if CleanDocs(rest) then SplitDocs(text)[1..] == rest else Strayed(SplitDocs(text)[1..], rest))
  }

  lemma FirstRound(rest: seq<string>)
    ensures var after := SplitDocs(JoinDocs(rest));
            if CleanDocs(rest) then after == rest else Strayed(after, rest)
  {
    SplitUndoesJoinDocs(rest);
    if !CleanDocs(rest) {
      var text := JoinDocs(rest);
      var pieces := Text.Split(text, SEP);
      RoundWeight(rest);
      if Weight(SplitDocs(text)) == Weight(rest) {
        Text.SplitParts(text, SEP);
        CleanIsClear(pieces);
      }
    }
  }

  lemma NextRound(docs: seq<string>, rest: seq<string>)
    requires Strayed(docs, rest)
    ensures Strayed(SplitDocs(JoinDocs(docs)), rest)
  {
    SplitUndoesJoinDocs(docs);
    if !CleanDocs(docs) && docs != [] {
      RoundWeight(docs);
    }
  }

  lemma FirstEdit(c: Codec, data: string, edit: Node -> Node)
    requires Decodable(c, data)
    requires edit(FirstDocument(c, data)).Map? && RoundTrips(c, edit(FirstDocument(c, data)))
    ensures Modified(c, data, edit).Ok?
    ensures Carries(c, Modified(c, data, edit).value, edit(FirstDocument(c, data)), SplitDocs(data)[1..])
  {
    ModifiedMeaning(c, data, edit);
    FirstRound(SplitDocs(data)[1..]);
  }

  lemma NextEdit(c: Codec, text: string, n: Node, rest: seq<string>, edit: Node -> Node)
    requires Carries(c, text, n, rest)
    requires edit(n).Map? && RoundTrips(c, edit(n))
    ensures Modified(c, text, edit).Ok?
    ensures Carries(c, Modified(c, text, edit).value, edit(n), rest)
  {
    ModifiedMeaning(c, text, edit);
    if !CleanDocs(rest) {
      NextRound(SplitDocs(text)[1..], rest);
    }
  }

  // ---- The closures as functions, and the functions that pass them to modifyFirstDocument ----

  function DiskEdit(disk: string): Node -> Node { n => WithDisk(n, DiskOrDefault(disk)) }

  function VlanEdit(vlan: Vlan, internalIP: string, mac: string): Node -> Node {
    n => WithVlan(n, vlan, internalIP, mac)
  }

  function Ipv6Edit(net: string, mac: string): Node -> Node { n => WithIpv6(n, net, mac) }

  function ArgEdit(p: Path, value: string): Node -> Node { n => Put(n, p, Str(value)) }

  method InjectInstallDisk(c: Codec, data: string, installDisk: string) returns (r: Result<string>)
    ensures r == Modified(c, data, DiskEdit(installDisk))
  {
    r := ModifyFirstDocument(c, data, DiskEdit(installDisk));
  }

  method InjectVLANConfig(c: Codec, data: string, vlan: Option<Vlan>, internalIP: string, primaryMAC: string)
    returns (r: Result<string>)
    ensures vlan.None? || internalIP == "" ==> r == Ok(data)
    ensures vlan.Some? && internalIP != "" && primaryMAC == "" ==> r.Err?
    ensures vlan.Some? && internalIP != "" && primaryMAC != "" ==>
              r == Modified(c, data, VlanEdit(vlan.value, internalIP, primaryMAC))
  {
    if vlan.None? || internalIP == "" {
      return Ok(data);
    }
    if primaryMAC == "" {
      return Err("primaryMAC required for VLAN injection");
    }
    r := ModifyFirstDocument(c, data, VlanEdit(vlan.value, internalIP, primaryMAC));
  }

  method InjectIPv6Config(c: Codec, data: string, ipv6Net: string, primaryMAC: string)
    returns (r: Result<string>)
    ensures r == if ipv6Net == "" then Ok(data) else Modified(c, data, Ipv6Edit(ipv6Net, primaryMAC))
  {
    if ipv6Net == "" {
      return Ok(data);
    }
    r := ModifyFirstDocument(c, data, Ipv6Edit(ipv6Net, primaryMAC));
  }

  method InjectKubeletNodeIP(c: Codec, data: string, internalIP: string, ipv6Net: string)
    returns (r: Result<string>)
    ensures var ip := NodeIP(internalIP, ipv6Net);
            r == if ip == "" then Ok(data) else Modified(c, data, ArgEdit(NODE_IP, ip))
  {
    var nodeIPv6 := "";
    if ipv6Net != "" {
      nodeIPv6 := TrimSuffix(Ipv6.BeforeSlash(ipv6Net), "::") + "::1";
    }
    var nodeIP: string;
    if internalIP != "" && nodeIPv6 != "" {
      nodeIP := internalIP + "," + nodeIPv6;
    } else if internalIP != "" {
      nodeIP := internalIP;
    } else if nodeIPv6 != "" {
      nodeIP := nodeIPv6;
    } else {
      return Ok(data);
    }
    assert nodeIP == NodeIP(internalIP, ipv6Net);
    r := ModifyFirstDocument(c, data, ArgEdit(NODE_IP, nodeIP));
  }

  method InjectProviderID(c: Codec, data: string, providerID: string) returns (r: Result<string>)
    ensures r == if providerID == "" then Ok(data) else Modified(c, data, ArgEdit(PROVIDER_ID, providerID))
  {
    if providerID == "" {
      return Ok(data);
    }
    r := ModifyFirstDocument(c, data, ArgEdit(PROVIDER_ID, providerID));
  }

  // The library can write and read back each tree the pipeline makes of n.
  ghost predicate Survives(c: Codec, n: Node, plan: Plan) {
    && RoundTrips(c, AfterDisk(n, plan))
    && RoundTrips(c, AfterVlan(n, plan))
    && RoundTrips(c, AfterIpv6(n, plan))
    && RoundTrips(c, AfterNodeIP(n, plan))
    && RoundTrips(c, Injected(n, plan))
  }

  predicate PlanInRange(plan: Plan) { plan.vlan.Some? ==> Encodable(Int(plan.vlan.value.id)) }

  lemma {:induction false} PutEncodable(n: Node, p: Path, v: Node)
    requires Encodable(n) && Encodable(v)
    ensures Encodable(Put(n, p, v))
    decreases |p|
  {
    if p != [] {
      PutEncodable(Child(n, p[0]), p[1..], v);
    }
  }

  lemma {:induction false} LookupEncodable(n: Node, p: Path)
    requires Encodable(n)
    ensures Lookup(n, p).Some? ==> Encodable(Lookup(n, p).value)
    decreases |p|
  {
    if p != [] && n.Map? && p[0] in n.entries {
      LookupEncodable(n.entries[p[0]], p[1..]);
    }
  }

  lemma VlanEntryEncodable(vlan: Vlan, internalIP: string, mac: string)
    requires Encodable(Int(vlan.id))
    ensures Encodable(VlanEntry(vlan, internalIP, mac))
  {
    var prefix := if vlan.prefixLength == 0 then 24 else vlan.prefixLength;
    var addresses := List([Str(internalIP + "/" + ProviderIds.FormatInt(prefix))]);
    assert Encodable(addresses);
    assert Encodable(List([Map(map["vlanId" := Int(vlan.id), "addresses" := addresses])]));
    assert Encodable(Map(map["physical" := Bool(true), MAC := Str(mac)]));
  }

  lemma Ipv6EntryEncodable(net: string, mac: string)
    ensures Encodable(Ipv6Entry(net, mac))
  {
    var selector: map<string, Node> := map["physical" := Bool(true)];
    assert Encodable(Map(if mac == "" then selector else selector[MAC := Str(mac)]));
    assert Encodable(List([Str(Ipv6.TalosInterfaceAddress(net))]));
    assert Encodable(List([Map(map["network" := Str("::/0"), "gateway" := Str("fe80::1")])]));
  }

  lemma VlanEncodable(n: Node, vlan: Vlan, internalIP: string, mac: string)
    requires Encodable(n) && Encodable(Int(vlan.id))
    ensures Encodable(WithVlan(n, vlan, internalIP, mac))
  {
    LookupEncodable(n, INTERFACES);
    var list := List(Stripped(Interfaces(n)) + [VlanEntry(vlan, internalIP, mac)]);
    VlanEntryEncodable(vlan, internalIP, mac);
    hide Lookup, Put, VlanEntry;
    forall iface | iface in Interfaces(n) ensures Encodable(WithoutVlans(iface)) {
    }
    assert Encodable(list);
    PutEncodable(n, INTERFACES, list);
  }

  lemma Ipv6Encodable(n: Node, net: string, mac: string)
    requires Encodable(n)
    ensures Encodable(WithIpv6(n, net, mac))
  {
    LookupEncodable(n, INTERFACES);
    var list := List(Interfaces(n) + [Ipv6Entry(net, mac)]);
    Ipv6EntryEncodable(net, mac);
    hide Lookup, Put, Ipv6Entry;
    assert Encodable(list);
    PutEncodable(n, INTERFACES, list);
    PutEncodable(Put(n, INTERFACES, list), FORWARDING, Str("1"));
  }

  // A lawful library does, for every encodable document.
  lemma EncodableSurvives(c: Codec, n: Node, plan: Plan)
    requires Lawful(c) && n.Map? && Encodable(n) && PlanInRange(plan)
    ensures Survives(c, n, plan)
  {
    hide Lookup, Encodable, RoundTrips, WithVlan, WithIpv6;
    assert Encodable(Str(DiskOrDefault(plan.disk))) && Encodable(Str(PlannedNodeIP(plan)))
           && Encodable(Str(ProviderIds.Print(plan.serverID))) by { TextEncodable(); }
    PutEncodable(n, DISK, Str(DiskOrDefault(plan.disk)));
    var a := AfterDisk(n, plan);
    if plan.vlan.Some? {
      VlanEncodable(a, plan.vlan.value, plan.internalIP, plan.primaryMAC);
    }
    var b := AfterVlan(n, plan);
    Ipv6Encodable(b, plan.ipv6Net, plan.primaryMAC);
    var d := AfterIpv6(n, plan);
    PutEncodable(d, NODE_IP, Str(PlannedNodeIP(plan)));
    PutEncodable(AfterNodeIP(n, plan), PROVIDER_ID, Str(ProviderIds.Print(plan.serverID)));
    MapsAfter(n, plan);
  }

  lemma TextEncodable() ensures forall t: string :: Encodable(Str(t)) {}

  lemma MapsAfter(n: Node, plan: Plan)
    requires n.Map?
    ensures AfterDisk(n, plan).Map? && AfterVlan(n, plan).Map? && AfterIpv6(n, plan).Map?
    ensures AfterNodeIP(n, plan).Map? && Injected(n, plan).Map?
  {
    hide Lookup;
  }

  // Everything stateApplyConfig does to the bootstrap data before it is applied.
  method PrepareConfig(c: Codec, data: string, plan: Plan) returns (r: Result<string>)
    requires DecodesMaps(c)
    requires Decodable(c, data) ==> Survives(c, FirstDocument(c, data), plan)
    ensures r.Ok? <==> Complete(plan) && Decodable(c, data)
    ensures r.Ok? ==>
              Carries(c, r.value, Injected(FirstDocument(c, data), plan), SplitDocs(data)[1..])
  {
    hide SplitDocs, CleanDocs, Strayed, RoundTrips, DecodesMaps;
    DecodableEdits(c, data, DiskEdit(plan.disk));
    r := InjectInstallDisk(c, data, plan.disk);
    if r.Err? {
      return;
    }
    ghost var n := FirstDocument(c, data);
    ghost var rest := SplitDocs(data)[1..];
    FirstEdit(c, data, DiskEdit(plan.disk));
    if plan.primaryMAC == "" {
      return Err("primary NIC MAC not detected");
    }
    if plan.vlan.Some? {
      if plan.internalIP == "" {
        return Err("host has no internalIP");
      }
      if plan.gatewayIP == "" {
        return Err("gateway IP not detected");
      }
      NextEdit(c, r.value, AfterDisk(n, plan), rest, VlanEdit(plan.vlan.value, plan.internalIP, plan.primaryMAC));
      r := InjectVLANConfig(c, r.value, plan.vlan, plan.internalIP, plan.primaryMAC);
    }
    assert Carries(c, r.value, AfterVlan(n, plan), rest);
    if plan.ipv6Net != "" {
      NextEdit(c, r.value, AfterVlan(n, plan), rest, Ipv6Edit(plan.ipv6Net, plan.primaryMAC));
      r := InjectIPv6Config(c, r.value, plan.ipv6Net, plan.primaryMAC);
    }
    assert Carries(c, r.value, AfterIpv6(n, plan), rest);
    var internalIP := plan.internalIP;
    if plan.vlan.None? {
      internalIP := "";
    }
    if PlannedNodeIP(plan) != "" {
      NextEdit(c, r.value, AfterIpv6(n, plan), rest, ArgEdit(NODE_IP, PlannedNodeIP(plan)));
    }
    r := InjectKubeletNodeIP(c, r.value, internalIP, plan.ipv6Net);
    assert Carries(c, r.value, AfterNodeIP(n, plan), rest);
    var providerID := ProviderIds.Print(plan.serverID);
    NextEdit(c, r.value, AfterNodeIP(n, plan), rest, ArgEdit(PROVIDER_ID, providerID));
    r := InjectProviderID(c, r.value, providerID);
  }

  lemma DecodableEdits(c: Codec, data: string, edit: Node -> Node)
    requires DecodesMaps(c)
    ensures Modified(c, data, edit).Ok? <==> Decodable(c, data)
  {
  }

  // ---- What the pipeline means for the tree ----

  // The places the pipeline assigns.
  function Touched(plan: Plan): set<Path> {
    {DISK, PROVIDER_ID}
    + (if plan.vlan.Some? || plan.ipv6Net != "" then {INTERFACES} else {})
    + (if plan.ipv6Net != "" then {FORWARDING} else {})
    + (if PlannedNodeIP(plan) != "" then {NODE_IP} else {})
  }

  // Every place that is neither above nor below a touched one keeps its value, in any tree.
  lemma InjectedFrame(n: Node, plan: Plan, q: Path)
    requires forall p | p in Touched(plan) :: Apart(p, q)
    ensures Lookup(Injected(n, plan), q) == Lookup(n, q)
  {
    hide Lookup, Put, PlannedNodeIP, Touched, Apart, VlanEntry, Ipv6Entry, Interfaces;
    TouchedParts(plan, q);
    if Lookup(n, DISK).None? {
      PutFrame(n, DISK, Str(DiskOrDefault(plan.disk)), q);
    }
    var a := AfterDisk(n, plan);
    if plan.vlan.Some? {
      var v := VlanEntry(plan.vlan.value, plan.internalIP, plan.primaryMAC);
      PutFrame(a, INTERFACES, List(Stripped(Interfaces(a)) + [v]), q);
    }
    var b := AfterVlan(n, plan);
    if plan.ipv6Net != "" {
      var w := List(Interfaces(b) + [Ipv6Entry(plan.ipv6Net, plan.primaryMAC)]);
      PutFrame(b, INTERFACES, w, q);
      PutFrame(Put(b, INTERFACES, w), FORWARDING, Str("1"), q);
    }
    if PlannedNodeIP(plan) != "" {
      PutFrame(AfterIpv6(n, plan), NODE_IP, Str(PlannedNodeIP(plan)), q);
    }
    PutFrame(AfterNodeIP(n, plan), PROVIDER_ID, Str(ProviderIds.Print(plan.serverID)), q);
  }

  lemma TouchedParts(plan: Plan, q: Path)
    requires forall p | p in Touched(plan) :: Apart(p, q)
    ensures Apart(DISK, q) && Apart(PROVIDER_ID, q)
    ensures plan.vlan.Some? || plan.ipv6Net != "" ==> Apart(INTERFACES, q)
    ensures plan.ipv6Net != "" ==> Apart(FORWARDING, q)
    ensures PlannedNodeIP(plan) != "" ==> Apart(NODE_IP, q)
  {
    hide Apart, PlannedNodeIP;
    assert DISK in Touched(plan) && PROVIDER_ID in Touched(plan);
    assert plan.vlan.Some? || plan.ipv6Net != "" ==> INTERFACES in Touched(plan);
    assert plan.ipv6Net != "" ==> FORWARDING in Touched(plan);
    assert PlannedNodeIP(plan) != "" ==> NODE_IP in Touched(plan);
  }

  lemma TouchedApart()
    ensures Apart(DISK, INTERFACES) && Apart(DISK, FORWARDING) && Apart(DISK, NODE_IP) && Apart(DISK, PROVIDER_ID)
    ensures Apart(INTERFACES, DISK) && Apart(INTERFACES, FORWARDING) && Apart(INTERFACES, NODE_IP)
    ensures Apart(INTERFACES, PROVIDER_ID) && Apart(FORWARDING, NODE_IP) && Apart(FORWARDING, PROVIDER_ID)
    ensures Apart(FORWARDING, INTERFACES) && Apart(NODE_IP, PROVIDER_ID)
    ensures Apart(NODE_IP, INTERFACES) && Apart(PROVIDER_ID, INTERFACES) && Apart(PROVIDER_ID, NODE_IP)
    ensures Apart(NODE_IP, DISK) && Apart(PROVIDER_ID, DISK) && Apart(NODE_IP, FORWARDING) && Apart(PROVIDER_ID, FORWARDING)
    ensures Apart(FORWARDING, DISK)
  {
    assert DISK[1] == "install" && INTERFACES[1] == "network" && FORWARDING[1] == "sysctls";
    assert NODE_IP[1] == "kubelet" && PROVIDER_ID[1] == "kubelet";
    assert NODE_IP[3] == "node-ip" && PROVIDER_ID[3] == "provider-id";
    assert "node-ip"[0] != "provider-id"[0];
    assert "install"[0] == 'i' && "network"[0] == 'n' && "sysctls"[0] == 's' && "kubelet"[0] == 'k';
  }

  // What stands at the touched places afterwards.
  function FinalInterfaces(n: Node, plan: Plan): seq<Node> {
    (if plan.vlan.None? then Interfaces(n)
     else Stripped(Interfaces(n)) + [VlanEntry(plan.vlan.value, plan.internalIP, plan.primaryMAC)])
    + (if plan.ipv6Net == "" then [] else [Ipv6Entry(plan.ipv6Net, plan.primaryMAC)])
  }

  lemma InjectedInterfaces(n: Node, plan: Plan)
    ensures Interfaces(Injected(n, plan)) == FinalInterfaces(n, plan)
  {
    hide Lookup, Put, PlannedNodeIP;
    TouchedApart();
    if Lookup(n, DISK).None? {
      PutFrame(n, DISK, Str(DiskOrDefault(plan.disk)), INTERFACES);
    }
    var a := AfterDisk(n, plan);
    if plan.vlan.Some? {
      PutGetHere(a, INTERFACES, List(Stripped(Interfaces(a)) + [VlanEntry(plan.vlan.value, plan.internalIP, plan.primaryMAC)]));
    }
    var b := AfterVlan(n, plan);
    if plan.ipv6Net != "" {
      var w := List(Interfaces(b) + [Ipv6Entry(plan.ipv6Net, plan.primaryMAC)]);
      PutGetHere(b, INTERFACES, w);
      PutFrame(Put(b, INTERFACES, w), FORWARDING, Str("1"), INTERFACES);
    }
    if PlannedNodeIP(plan) != "" {
      PutFrame(AfterIpv6(n, plan), NODE_IP, Str(PlannedNodeIP(plan)), INTERFACES);
    }
    PutFrame(AfterNodeIP(n, plan), PROVIDER_ID, Str(ProviderIds.Print(plan.serverID)), INTERFACES);
  }

  lemma InjectedPlaces(n: Node, plan: Plan)
    ensures Lookup(Injected(n, plan), DISK) ==
            if Lookup(n, DISK).Some? then Lookup(n, DISK) else Some(Str(DiskOrDefault(plan.disk)))
    ensures plan.ipv6Net != "" ==> Lookup(Injected(n, plan), FORWARDING) == Some(Str("1"))
    ensures Lookup(Injected(n, plan), NODE_IP) ==
            if PlannedNodeIP(plan) != "" then Some(Str(PlannedNodeIP(plan))) else Lookup(n, NODE_IP)
    ensures Lookup(Injected(n, plan), PROVIDER_ID) == Some(Str(ProviderIds.Print(plan.serverID)))
  {
    hide Lookup, Put, PlannedNodeIP;
    TouchedApart();
    if Lookup(n, DISK).None? {
      PutGetHere(n, DISK, Str(DiskOrDefault(plan.disk)));
      PutFrame(n, DISK, Str(DiskOrDefault(plan.disk)), NODE_IP);
    }
    var a := AfterDisk(n, plan);
    if plan.vlan.Some? {
      var v := List(Stripped(Interfaces(a)) + [VlanEntry(plan.vlan.value, plan.internalIP, plan.primaryMAC)]);
      PutFrame(a, INTERFACES, v, DISK);
      PutFrame(a, INTERFACES, v, NODE_IP);
    }
    var b := AfterVlan(n, plan);
    if plan.ipv6Net != "" {
      var w := List(Interfaces(b) + [Ipv6Entry(plan.ipv6Net, plan.primaryMAC)]);
      var x := Put(b, INTERFACES, w);
      PutFrame(b, INTERFACES, w, DISK);
      PutFrame(b, INTERFACES, w, NODE_IP);
      PutFrame(x, FORWARDING, Str("1"), DISK);
      PutFrame(x, FORWARDING, Str("1"), NODE_IP);
      PutGetHere(x, FORWARDING, Str("1"));
    }
    var d := AfterIpv6(n, plan);
    if PlannedNodeIP(plan) != "" {
      var ip := Str(PlannedNodeIP(plan));
      PutFrame(d, NODE_IP, ip, DISK);
      PutFrame(d, NODE_IP, ip, FORWARDING);
      PutGetHere(d, NODE_IP, ip);
    }
    var e := AfterNodeIP(n, plan);
    var pid := Str(ProviderIds.Print(plan.serverID));
    PutFrame(e, PROVIDER_ID, pid, DISK);
    PutFrame(e, PROVIDER_ID, pid, FORWARDING);
    PutFrame(e, PROVIDER_ID, pid, NODE_IP);
    PutGetHere(e, PROVIDER_ID, pid);
  }

  // The four scalar places of the finished tree.
  lemma InjectedScalars(n: Node, plan: Plan)
    ensures var disk := ["machine", "install", "disk"];
            Lookup(Injected(n, plan), disk) ==
            if Lookup(n, disk).Some? then Lookup(n, disk)
            else Some(Str(if plan.disk == "" then "/dev/nvme0n1" else plan.disk))
    ensures plan.ipv6Net != "" ==>
              Lookup(Injected(n, plan), ["machine", "sysctls", "net.ipv6.conf.all.forwarding"]) == Some(Str("1"))
    ensures var arg := ["machine", "kubelet", "extraArgs", "node-ip"];
            var ip := NodeIP(if plan.vlan.None? then "" else plan.internalIP, plan.ipv6Net);
            Lookup(Injected(n, plan), arg) == if ip != "" then Some(Str(ip)) else Lookup(n, arg)
    ensures Lookup(Injected(n, plan), ["machine", "kubelet", "extraArgs", "provider-id"])
            == Some(Str("hetzner-robot://" + ProviderIds.FormatInt(plan.serverID)))
  {
    hide Lookup, Injected;
    InjectedPlaces(n, plan);
  }

  // ---- The two entries, looked up in the finished tree ----

  lemma Lookup1(n: Node, a: string)
    requires n.Map? && a in n.entries
    ensures Lookup(n, [a]) == Some(n.entries[a])
    ensures forall rest: Path :: Lookup(n, [a] + rest) == Lookup(n.entries[a], rest)
  {
    assert [a][1..] == [];
    forall rest: Path ensures Lookup(n, [a] + rest) == Lookup(n.entries[a], rest) {
      assert ([a] + rest)[1..] == rest;
    }
  }

  // The entry names the primary NIC, and no other NIC fits.
  predicate Selects(entry: Node, mac: string) {
    && Lookup(entry, ["deviceSelector", "physical"]) == Some(Bool(true))
    && Lookup(entry, ["deviceSelector", "hardwareAddr"]) == Some(Str(mac))
  }

  ghost predicate RoutesIpv6(entry: Node, net: string) {
    && entry.Map? && entry.entries.Keys == {"deviceSelector", "addresses", "routes"}
    && Lookup(entry, ["addresses"]) == Some(List([Str(Ipv6.BeforeSlash(net) + "1/64")]))
    && exists route ::
         && Lookup(entry, ["routes"]) == Some(List([route]))
         && Lookup(route, ["network"]) == Some(Str("::/0"))
         && Lookup(route, ["gateway"]) == Some(Str("fe80::1"))
  }

  ghost predicate CarriesVlan(entry: Node, vlan: Vlan, internalIP: string) {
    && entry.Map? && entry.entries.Keys == {"deviceSelector", "vlans"}
    && exists v ::
         && Lookup(entry, ["vlans"]) == Some(List([v]))
         && Lookup(v, ["vlanId"]) == Some(Int(vlan.id))
         && Lookup(v, ["addresses"]) ==
              Some(List([Str(internalIP + "/" + (if vlan.prefixLength == 0 then "24" else ProviderIds.FormatInt(vlan.prefixLength)))]))
  }

  lemma SelectorFound(entry: Node, mac: string)
    requires entry.Map? && "deviceSelector" in entry.entries
    requires entry.entries["deviceSelector"] == Map(map["physical" := Bool(true), "hardwareAddr" := Str(mac)])
    ensures Selects(entry, mac)
  {
    var sel := entry.entries["deviceSelector"];
    Lookup1(entry, "deviceSelector");
    Lookup1(sel, "physical");
    Lookup1(sel, "hardwareAddr");
    assert ["deviceSelector", "physical"] == ["deviceSelector"] + ["physical"];
    assert ["deviceSelector", "hardwareAddr"] == ["deviceSelector"] + ["hardwareAddr"];
    hide Lookup;
  }

  lemma Ipv6EntryMeans(net: string, mac: string)
    requires mac != ""
    ensures Selects(Ipv6Entry(net, mac), mac) && RoutesIpv6(Ipv6Entry(net, mac), net)
  {
    var e := Ipv6Entry(net, mac);
    var selector: map<string, Node> := map["physical" := Bool(true)];
    assert selector[MAC := Str(mac)] == map["physical" := Bool(true), "hardwareAddr" := Str(mac)];
    SelectorFound(e, mac);
    Lookup1(e, "addresses");
    Lookup1(e, "routes");
    var route := e.entries["routes"].items[0];
    assert e.entries["routes"] == List([route]);
    Lookup1(route, "network");
    Lookup1(route, "gateway");
    hide Lookup;
  }

  lemma VlanEntryMeans(vlan: Vlan, internalIP: string, mac: string)
    ensures Selects(VlanEntry(vlan, internalIP, mac), mac) && CarriesVlan(VlanEntry(vlan, internalIP, mac), vlan, internalIP)
  {
    var e := VlanEntry(vlan, internalIP, mac);
    SelectorFound(e, mac);
    Lookup1(e, "vlans");
    var v := e.entries["vlans"].items[0];
    assert e.entries["vlans"] == List([v]);
    Lookup1(v, "vlanId");
    Lookup1(v, "addresses");
    assert ProviderIds.FormatInt(24) == "24" by { assert ProviderIds.Decimal(2) == "2"; }
    hide Lookup;
  }

  // In the finished machineconfig the last interface gives the primary NIC its IPv6 address and
  // the default route, and the one before it (or the last, without IPv6) is the VLAN's.
  lemma InjectedEntries(n: Node, plan: Plan)
    requires plan.primaryMAC != ""
    ensures plan.vlan.Some? || plan.ipv6Net != "" ==>
              exists items: seq<Node> ::
                && Lookup(Injected(n, plan), ["machine", "network", "interfaces"]) == Some(List(items))
                && (plan.ipv6Net != "" ==>
                      && items != []
                      && Selects(items[|items| - 1], plan.primaryMAC) && RoutesIpv6(items[|items| - 1], plan.ipv6Net))
                && (plan.vlan.Some? ==>
                      var i := |items| - if plan.ipv6Net != "" then 2 else 1;
                      && i >= 0
                      && Selects(items[i], plan.primaryMAC) && CarriesVlan(items[i], plan.vlan.value, plan.internalIP))
  {
    hide Selects, RoutesIpv6, CarriesVlan, Injected, VlanEntry, Ipv6Entry;
    InjectedInterfaces(n, plan);
    Ipv6EntryMeans(plan.ipv6Net, plan.primaryMAC);
    if plan.vlan.Some? {
      VlanEntryMeans(plan.vlan.value, plan.internalIP, plan.primaryMAC);
    }
    if plan.vlan.Some? || plan.ipv6Net != "" {
      var items := FinalInterfaces(n, plan);
      assert items != [];
      ItemsAt(Injected(n, plan), items);
    }
  }

  lemma ItemsAt(n: Node, items: seq<Node>)
    requires Interfaces(n) == items && items != []
    ensures Lookup(n, ["machine", "network", "interfaces"]) == Some(List(items))
  {
    hide Lookup;
  }

  predicate HasVlans(iface: Node) { iface.Map? && VLANS in iface.entries }

  // With a VLAN configured, exactly one interface entry has VLANs. It selects the primary NIC,
  // and every entry of the template keeps its place and everything but its VLANs.
  lemma OneVlanEntry(n: Node, plan: Plan)
    requires plan.vlan.Some?
    ensures var was, now := Interfaces(n), Interfaces(Injected(n, plan));
            && |was| < |now|
            && (forall i | 0 <= i < |now| :: HasVlans(now[i]) <==> i == |was|)
            && Lookup(now[|was|], [SELECTOR, MAC]) == Some(Str(plan.primaryMAC))
            && (forall i, q: Path | 0 <= i < |was| && q != [] && q[0] != VLANS ::
                  Lookup(now[i], q) == Lookup(was[i], q))
  {
    hide Injected;
    InjectedInterfaces(n, plan);
    var was, now := Interfaces(n), Interfaces(Injected(n, plan));
    var entry := VlanEntry(plan.vlan.value, plan.internalIP, plan.primaryMAC);
    assert now[|was|] == entry;
    assert [SELECTOR, MAC][1..] == [MAC] && [MAC][1..] == [];
    var sel := entry.entries[SELECTOR];
    assert Lookup(entry, [SELECTOR, MAC]) == Lookup(sel, [MAC]) == Lookup(sel.entries[MAC], []);
    forall i, q: Path | 0 <= i < |was| && q != [] && q[0] != VLANS
      ensures Lookup(now[i], q) == Lookup(was[i], q)
    {
      assert now[i] == WithoutVlans(was[i]);
    }
  }

  // injectVLANConfig is not idempotent: every run appends another entry, and takes the VLANs
  // off the one before.
  lemma VlanTwice(n: Node, vlan: Vlan, internalIP: string, mac: string)
    ensures var once := WithVlan(n, vlan, internalIP, mac);
            var twice := WithVlan(once, vlan, internalIP, mac);
            && |Interfaces(twice)| == |Interfaces(once)| + 1
            && Interfaces(twice)[|Interfaces(n)|] == WithoutVlans(Interfaces(once)[|Interfaces(n)|])
            && twice != once
  {
    var entry := VlanEntry(vlan, internalIP, mac);
    PutGetHere(n, INTERFACES, List(Stripped(Interfaces(n)) + [entry]));
    var once := WithVlan(n, vlan, internalIP, mac);
    PutGetHere(once, INTERFACES, List(Stripped(Interfaces(once)) + [entry]));
  }
}
