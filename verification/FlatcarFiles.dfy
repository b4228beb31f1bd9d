// What the files and settings added to the Ignition config say to the programs that read them:
// systemd-networkd, kubelet's unit, and sshd.
module FlatcarFiles {
  import opened Common
  import opened Tree
  import opened Text
  import opened Ignition
  import opened UnitFile
  import DataUri
  import Inject
  import Ipv6

  // ---- The network file ----

  // A value that stays on its line.
  predicate Fits(v: string) { OneLine(v) && !Continues(v) }

  function Value(v: string): string { TrimSpace(v) }

  // What networkd is told: the NIC, the resolvers, the server's own address with the gateway as
  // its peer, and the default route; with an IPv6 network also the node's address in it and the
  // default route via the link-local gateway.
  function Network(mac: string, serverIP: string, gatewayIP: string, ipv6Net: string): seq<Section> {
    [Section("Match", [("MACAddress", Value(mac))]),
     Section("Network", [("DNS", "185.12.64.1"), ("DNS", "185.12.64.2")]),
     Section("Address", [("Address", Value(serverIP + "/32")), ("Peer", Value(gatewayIP + "/32"))]),
     Section("Route", [("Destination", "0.0.0.0/0"), ("Gateway", Value(gatewayIP))])]
    + (if ipv6Net == "" then []
       else [Section("Address", [("Address", Value(Ipv6.NodeAddress(ipv6Net) + "/64"))]),
             Section("Route", [("Destination", "::/0"), ("Gateway", "fe80::1")])])
  }

  // ---- The text as blocks ----

  lemma OneSetting(name: string, key: string, value: string)
    ensures Block(name, [(key, value)]) == "[" + name + "]\n" + (key + "=" + value + "\n")
  {
    var a := (key, value);
    assert [a][1..] == [];
    assert Lines([a]) == Assignment(a) + "\n" + Lines([]);
  }

  lemma TwoSettings(name: string, key: string, value: string, key2: string, value2: string)
    ensures Block(name, [(key, value), (key2, value2)])
            == "[" + name + "]\n" + (key + "=" + value + "\n") + (key2 + "=" + value2 + "\n")
  {
    var a, b := (key, value), (key2, value2);
    assert [a, b][1..] == [b] && [b][1..] == [];
    assert Lines([b]) == Assignment(b) + "\n" + Lines([]);
    assert Lines([a, b]) == Assignment(a) + "\n" + Lines([b]);
  }

  lemma MatchBlock(mac: string)
    ensures MatchText(mac) == Block("Match", [("MACAddress", mac)])
  {
    OneSetting("Match", "MACAddress", mac);
    assert "[" + "Match" + "]\n" == "[Match]\n" && "MACAddress" + "=" == "MACAddress=";
  }

  lemma ResolverBlock()
    ensures ResolverText() == "\n" + Block("Network", [("DNS", "185.12.64.1"), ("DNS", "185.12.64.2")])
  {
    TwoSettings("Network", "DNS", "185.12.64.1", "DNS", "185.12.64.2");
    assert "[" + "Network" + "]\n" == "[Network]\n";
    assert "DNS" + "=" + "185.12.64.1" + "\n" == "DNS=185.12.64.1\n";
    assert "DNS" + "=" + "185.12.64.2" + "\n" == "DNS=185.12.64.2\n";
  }

  lemma AddressBlock(serverIP: string, gatewayIP: string)
    ensures AddressText(serverIP, gatewayIP)
            == "\n" + Block("Address", [("Address", serverIP + "/32"), ("Peer", gatewayIP + "/32")])
  {
    TwoSettings("Address", "Address", serverIP + "/32", "Peer", gatewayIP + "/32");
    assert "[" + "Address" + "]\n" == "[Address]\n" && "/32" + "\n" == "/32\n";
    assert "Address" + "=" == "Address=" && "Peer" + "=" == "Peer=";
  }

  lemma RouteBlock(gatewayIP: string)
    ensures RouteText(gatewayIP) == "\n" + Block("Route", [("Destination", "0.0.0.0/0"), ("Gateway", gatewayIP)])
  {
    TwoSettings("Route", "Destination", "0.0.0.0/0", "Gateway", gatewayIP);
    assert "[" + "Route" + "]\n" == "[Route]\n" && "Gateway" + "=" == "Gateway=";
    assert "Destination" + "=" + "0.0.0.0/0" + "\n" == "Destination=0.0.0.0/0\n";
  }

  lemma Ipv6AddressBlock(net: string)
    ensures Ipv6AddressText(net) == "\n" + Block("Address", [("Address", Ipv6.NodeAddress(net) + "/64")])
  {
    var a := Ipv6.NodeAddress(net) + "/64";
    assert Ipv6.FlatcarInterfaceAddress(net) == a;
    OneSetting("Address", "Address", a);
    assert "[" + "Address" + "]\n" == "[Address]\n" && "Address" + "=" == "Address=";
    hide Ipv6.FlatcarInterfaceAddress, Ipv6.NodeAddress, Block;
  }

  lemma Ipv6RouteBlock()
    ensures Ipv6RouteText() == "\n" + Block("Route", [("Destination", "::/0"), ("Gateway", "fe80::1")])
  {
    TwoSettings("Route", "Destination", "::/0", "Gateway", "fe80::1");
    assert "[" + "Route" + "]\n" == "[Route]\n";
    assert "Destination" + "=" + "::/0" + "\n" == "Destination=::/0\n";
    assert "Gateway" + "=" + "fe80::1" + "\n" == "Gateway=fe80::1\n";
  }

  // ---- Reading it ----

  // A block after a blank line.
  lemma ReadNext(name: string, settings: seq<(string, string)>, rest: string, sections: seq<Section>)
    requires OneLine(name) && name != [] && forall s | s in settings :: Printable(s)
    ensures ReadOn(("\n" + Block(name, settings)) + rest, sections)
            == ReadOn(rest, sections + [Section(name, AllBack(settings))])
  {
    assert ("\n" + Block(name, settings)) + rest == "\n" + (Block(name, settings) + rest);
    hide ReadOn, Block;
    ReadBlank(Block(name, settings) + rest, sections);
    ReadBlock(name, settings, rest, sections);
  }

  lemma MatchRead(mac: string, rest: string)
    requires Fits(mac)
    ensures ReadOn(MatchText(mac) + rest, []) == ReadOn(rest, [Section("Match", [("MACAddress", Value(mac))])])
  {
    MatchBlock(mac);
    var settings := [("MACAddress", mac)];
    ReadBlock("Match", settings, rest, []);
    assert AllBack(settings) == [("MACAddress", Value(mac))];
    hide ReadOn, TrimSpace, Block;
    assert [] + [Section("Match", AllBack(settings))] == [Section("Match", [("MACAddress", Value(mac))])];
  }

  lemma ResolverRead(rest: string, sections: seq<Section>)
    ensures ReadOn(ResolverText() + rest, sections)
            == ReadOn(rest, sections + [Section("Network", [("DNS", "185.12.64.1"), ("DNS", "185.12.64.2")])])
  {
    ResolverBlock();
    var settings := [("DNS", "185.12.64.1"), ("DNS", "185.12.64.2")];
    TrimFixed("185.12.64.1");
    TrimFixed("185.12.64.2");
    hide ReadOn, Block, TrimSpace;
    assert AllBack(settings) == settings;
    ReadNext("Network", settings, rest, sections);
  }

  // A text that ends like this stays on its line.
  lemma EndsPlain(v: string, end: string)
    requires OneLine(v) && OneLine(end) && end != [] && end[|end| - 1] != '\\'
    ensures Fits(v + end)
  {
    assert (v + end)[|v + end| - 1] == end[|end| - 1];
  }

  lemma AddressRead(serverIP: string, gatewayIP: string, rest: string, sections: seq<Section>)
    requires OneLine(serverIP) && OneLine(gatewayIP)
    ensures ReadOn(AddressText(serverIP, gatewayIP) + rest, sections)
            == ReadOn(rest, sections + [Section("Address", [("Address", Value(serverIP + "/32")), ("Peer", Value(gatewayIP + "/32"))])])
  {
    AddressBlock(serverIP, gatewayIP);
    EndsPlain(serverIP, "/32");
    EndsPlain(gatewayIP, "/32");
    var settings := [("Address", serverIP + "/32"), ("Peer", gatewayIP + "/32")];
    hide ReadOn, Block, TrimSpace;
    assert AllBack(settings) == [("Address", Value(serverIP + "/32")), ("Peer", Value(gatewayIP + "/32"))];
    ReadNext("Address", settings, rest, sections);
  }

  lemma RouteRead(gatewayIP: string, rest: string, sections: seq<Section>)
    requires Fits(gatewayIP)
    ensures ReadOn(RouteText(gatewayIP) + rest, sections)
            == ReadOn(rest, sections + [Section("Route", [("Destination", "0.0.0.0/0"), ("Gateway", Value(gatewayIP))])])
  {
    RouteBlock(gatewayIP);
    TrimFixed("0.0.0.0/0");
    var settings := [("Destination", "0.0.0.0/0"), ("Gateway", gatewayIP)];
    hide ReadOn, Block, TrimSpace;
    assert AllBack(settings) == [("Destination", "0.0.0.0/0"), ("Gateway", Value(gatewayIP))];
    ReadNext("Route", settings, rest, sections);
  }

  lemma Ipv6AddressRead(net: string, rest: string, sections: seq<Section>)
    requires OneLine(net)
    ensures ReadOn(Ipv6AddressText(net) + rest, sections)
            == ReadOn(rest, sections + [Section("Address", [("Address", Value(Ipv6.NodeAddress(net) + "/64"))])])
  {
    Ipv6AddressBlock(net);
    assert OneLine(Ipv6.NodeAddress(net));
    EndsPlain(Ipv6.NodeAddress(net), "/64");
    var settings := [("Address", Ipv6.NodeAddress(net) + "/64")];
    hide ReadOn, Block, TrimSpace, Ipv6.NodeAddress;
    assert AllBack(settings) == [("Address", Value(Ipv6.NodeAddress(net) + "/64"))];
    ReadNext("Address", settings, rest, sections);
  }

  lemma Ipv6RouteRead(rest: string, sections: seq<Section>)
    ensures ReadOn(Ipv6RouteText() + rest, sections)
            == ReadOn(rest, sections + [Section("Route", [("Destination", "::/0"), ("Gateway", "fe80::1")])])
  {
    Ipv6RouteBlock();
    TrimFixed("::/0");
    TrimFixed("fe80::1");
    var settings := [("Destination", "::/0"), ("Gateway", "fe80::1")];
    hide ReadOn, Block, TrimSpace;
    assert AllBack(settings) == settings;
    ReadNext("Route", settings, rest, sections);
  }

  lemma Ipv4Read(mac: string, serverIP: string, gatewayIP: string, rest: string)
    requires Fits(mac) && OneLine(serverIP) && Fits(gatewayIP)
    ensures ReadOn(MatchText(mac) + (ResolverText() + (AddressText(serverIP, gatewayIP) + (RouteText(gatewayIP) + rest))), [])
            == ReadOn(rest, Network(mac, serverIP, gatewayIP, ""))
  {
    hide MatchText, ResolverText, AddressText, RouteText, TrimSpace, ReadOn;
    var d, a, r := ResolverText(), AddressText(serverIP, gatewayIP), RouteText(gatewayIP);
    var all := Network(mac, serverIP, gatewayIP, "");
    assert |all| == 4 && all[..1] == [all[0]];
    MatchRead(mac, d + (a + (r + rest)));
    ResolverRead(a + (r + rest), all[..1]);
    assert all[..1] + [all[1]] == all[..2] && all[..2] + [all[2]] == all[..3] && all[..3] + [all[3]] == all;
    AddressRead(serverIP, gatewayIP, r + rest, all[..2]);
    RouteRead(gatewayIP, rest, all[..3]);
  }

  // networkd reads the generated text as intended, for all values that stay on their lines.
  lemma NetworkTextRead(mac: string, serverIP: string, gatewayIP: string, ipv6Net: string)
    requires Fits(mac) && OneLine(serverIP) && Fits(gatewayIP) && OneLine(ipv6Net)
    ensures Read(NetworkText(mac, serverIP, gatewayIP, ipv6Net)) == Some(Network(mac, serverIP, gatewayIP, ipv6Net))
  {
    var four, all := Network(mac, serverIP, gatewayIP, ""), Network(mac, serverIP, gatewayIP, ipv6Net);
    NothingLeft(all);
    hide MatchText, ResolverText, AddressText, RouteText, Ipv6AddressText, Ipv6RouteText, TrimSpace, Ipv6.NodeAddress, ReadOn;
    var m, d, a, r := MatchText(mac), ResolverText(), AddressText(serverIP, gatewayIP), RouteText(gatewayIP);
    if ipv6Net == "" {
      assert NetworkText(mac, serverIP, gatewayIP, ipv6Net) == m + (d + (a + (r + "")));
      Ipv4Read(mac, serverIP, gatewayIP, "");
    } else {
      var x, y := Ipv6AddressText(ipv6Net), Ipv6RouteText();
      assert NetworkText(mac, serverIP, gatewayIP, ipv6Net) == m + (d + (a + (r + (x + (y + "")))));
      Ipv4Read(mac, serverIP, gatewayIP, x + (y + ""));
      Ipv6AddressRead(ipv6Net, y + "", four);
      assert four + [all[4]] == all[..5] && all[..5] + [all[5]] == all;
      Ipv6RouteRead("", all[..5]);
    }
  }

  lemma NothingLeft(sections: seq<Section>)
    ensures ReadOn("", sections) == Some(sections)
  {
  }

  // ---- In the written document ----

  lemma ListFound(n: Node, p: Path, items: seq<Node>)
    requires ListAt(n, p) == Some(items)
    ensures Lookup(n, p) == Some(List(items))
  {
    hide Lookup;
  }

  lemma FileFields(path: string, content: string, mode: int)
    ensures var f := FileNode(path, content, mode);
            && Lookup(f, ["path"]) == Some(Str(path)) && Lookup(f, ["mode"]) == Some(Int(mode))
            && Lookup(f, ["overwrite"]) == Some(Bool(true))
            && Lookup(f, ["contents", "source"]) == Some(Str("data:," + DataUri.PathEscape(DataUri.Utf8(content))))
  {
    hide DataUri.PathEscape, DataUri.Utf8;
    var f := FileNode(path, content, mode);
    Inject.Lookup1(f, "path");
    Inject.Lookup1(f, "mode");
    Inject.Lookup1(f, "overwrite");
    Inject.Lookup1(f, "contents");
    Inject.Lookup1(f.entries["contents"], "source");
    assert ["contents", "source"] == ["contents"] + ["source"];
    hide Lookup;
  }

  // The last file is the one networkd reads for the primary NIC, and it says what is intended.
  lemma NetworkFileRead(n: Node, p: Params, show: Node -> string)
    requires Accepts(n, p) && ListOk(n, FILES) && p.serverIP != "" && p.gatewayIP != ""
    requires Fits(p.primaryMAC) && OneLine(p.serverIP) && Fits(p.gatewayIP) && OneLine(p.ipv6Net)
    ensures exists files: seq<Node>, text: string ::
              && Lookup(Flatcar(n, p, show), ["storage", "files"]) == Some(List(files))
              && files != []
              && (var f := files[|files| - 1];
                  && Lookup(f, ["path"]) == Some(Str("/etc/systemd/network/10-public.network"))
                  && Lookup(f, ["mode"]) == Some(Int(420)) && Lookup(f, ["overwrite"]) == Some(Bool(true))
                  && ContentOf(f, show) == Bytes(DataUri.Utf8(text)))
              && Read(text) == Some(Network(p.primaryMAC, p.serverIP, p.gatewayIP, p.ipv6Net))
  {
    hide Accepts, Flatcar, Lookup, ContentOf, NetworkText, Network, Read, FileNode, DataUri.Utf8;
    FlatcarLists(n, p, show);
    NetworkContent(p, show);
    NetworkTextRead(p.primaryMAC, p.serverIP, p.gatewayIP, p.ipv6Net);
    var files := FilesOf(Flatcar(n, p, show));
    var text := NetworkText(p.primaryMAC, p.serverIP, p.gatewayIP, p.ipv6Net);
    FileFields(NETWORK_FILE, text, 420);
    ListFound(Flatcar(n, p, show), FILES, files);
    hide Local, FixFiles;
    assert files[|files| - 1] == FileNode(NETWORK_FILE, text, 420);
  }

  // A value inside double quotes as it stands.
  predicate Quotable(v: string) { OneLine(v) && '"' !in v && '\\' !in v && '%' !in v }

  function Quoted(v: string): string { "\"" + v + "\"" }

  lemma QuotedVariable(name: string, v: string)
    requires Quotable(name) && Quotable(v) && '=' !in name
    ensures var q := Quoted(name + "=" + v);
            && Variable(q) == Some((name, v)) && OneLine(q) && !Continues(q) && TrimSpace(q) == q
  {
    var inner := name + "=" + v;
    CutAt(name, v);
    hide Cut;
    var q := Quoted(inner);
    assert q[1..|q| - 1] == inner && q[0] == '"' && q[|q| - 1] == '"';
    TrimFixed(q);
    hide TrimSpace;
  }

  // The text of a unit file that sets this variable, and nothing else, for the service.
  ghost predicate SetsVariable(text: string, name: string, v: string) {
    exists value ::
      && Read(text) == Some([Section("Service", [("Environment", value)])])
      && Variable(value) == Some((name, v))
  }

  lemma ServiceRead(value: string)
    requires Fits(value) && TrimSpace(value) == value
    ensures Read(Block("Service", [("Environment", value)]) + "") == Some([Section("Service", [("Environment", value)])])
  {
    var settings := [("Environment", value)];
    NothingLeft([Section("Service", AllBack(settings))]);
    hide ReadOn, Block, TrimSpace;
    assert AllBack(settings) == settings;
    ReadBlock("Service", settings, "", []);
    assert [] + [Section("Service", AllBack(settings))] == [Section("Service", AllBack(settings))];
  }

  lemma NameQuotable()
    ensures Quotable("KUBELET_EXTRA_ARGS") && '=' !in "KUBELET_EXTRA_ARGS"
  {
  }

  // The drop-in sets the one variable kubelet.service hands to kubelet.
  lemma DropinRead(args: string)
    requires Quotable(args)
    ensures SetsVariable(DropinText(args), "KUBELET_EXTRA_ARGS", args)
  {
    hide Quotable, Quoted, DropinText, Read, Variable, Block, TrimSpace;
    NameQuotable();
    QuotedVariable("KUBELET_EXTRA_ARGS", args);
    DropinBlock(args);
    ServiceRead(Quoted("KUBELET_EXTRA_ARGS" + "=" + args));
  }

  lemma DropinBlock(args: string)
    ensures DropinText(args) == Block("Service", [("Environment", Quoted("KUBELET_EXTRA_ARGS" + "=" + args))]) + ""
  {
    var value := Quoted("KUBELET_EXTRA_ARGS" + "=" + args);
    OneSetting("Service", "Environment", value);
    assert "[" + "Service" + "]\n" == "[Service]\n";
    assert "Environment" + "=" + ("\"" + ("KUBELET_EXTRA_ARGS" + "=")) == "Environment=\"KUBELET_EXTRA_ARGS=";
    assert "\"" + "\n" == "\"\n";
    hide Block;
  }

  lemma UnitsFound(n: Node, p: Params, show: Node -> string)
    requires Accepts(n, p) && KubeletArgs(p.providerID, p.internalIP, p.ipv6Net) != ""
    ensures exists units: seq<Node> ::
              ListAt(Flatcar(n, p, show), UNITS)
              == Some(WithKubelet(units, KubeletArgs(p.providerID, p.internalIP, p.ipv6Net)))
  {
    var args := KubeletArgs(p.providerID, p.internalIP, p.ipv6Net);
    assert n.Map? && ListOk(n, UNITS);
    hide Accepts, Lookup, Put, WithKubelet, KubeletArgs, Fixed, Pruned, WithSection, WithNetwork, WithCoreKey;
    PathsApart();
    FixedFrame(n, show, UNITS);
    var n2 := Pruned(Fixed(n, show));
    PrunedFrame(Fixed(n, show), UNITS);
    var n3 := WithSection(n2, "storage", "files");
    SectionFrame(n2, "storage", "files", UNITS);
    SectionUnits(n3);
    var n4 := Sections(n2);
    var units := ListAt(n4, UNITS).value;
    PutGetHere(n4, UNITS, List(WithKubelet(units, args)));
    var n5 := WithUnits(n4, p);
    NetworkFrame(n5, p, UNITS);
    KeyFrame(WithNetwork(n5, p), p, UNITS);
  }

  lemma SectionUnits(n: Node)
    requires ListOk(n, UNITS)
    ensures ListAt(WithSection(n, "systemd", "units"), UNITS).Some?
  {
    PutGetHere(n, UNITS, List([]));
    hide Put, Lookup;
  }

  // The unit's last drop-in hands these arguments to kubelet.
  ghost predicate HandsOver(unit: Node, args: string) {
    var dropins := Items(Child(unit, "dropins"));
    && dropins != []
    && (var d := dropins[|dropins| - 1];
        && Child(d, "name") == Str("10-caphr-args.conf") && Child(d, "contents").Str?
        && SetsVariable(Child(d, "contents").text, "KUBELET_EXTRA_ARGS", args))
  }

  lemma DropinFields(args: string)
    ensures Child(Dropin(args), "name") == Str("10-caphr-args.conf")
    ensures Child(Dropin(args), "contents") == Str(DropinText(args))
  {
    hide DropinText;
  }

  lemma LastHandsOver(unit: Node, before: seq<Node>, args: string)
    requires Quotable(args) && Child(unit, "dropins") == List(before + [Dropin(args)])
    ensures HandsOver(unit, args)
  {
    hide Child, Dropin, Quotable, SetsVariable, DropinText;
    DropinRead(args);
    DropinFields(args);
    assert (before + [Dropin(args)])[|before|] == Dropin(args);
  }

  // The first kubelet.service entry ends its drop-ins with one that hands the machine's provider
  // ID and addresses to kubelet.
  lemma KubeletRead(n: Node, p: Params, show: Node -> string)
    requires Accepts(n, p) && p.providerID != "" && Quotable(KubeletArgs(p.providerID, p.internalIP, p.ipv6Net))
    ensures exists units: seq<Node>, i: nat ::
              && Lookup(Flatcar(n, p, show), ["systemd", "units"]) == Some(List(units))
              && i < |units| && Named(units[i], Str("kubelet.service"))
              && (forall j | 0 <= j < i :: !Named(units[j], Str("kubelet.service")))
              && (var ip := Inject.NodeIP(p.internalIP, p.ipv6Net);
                  HandsOver(units[i], "--provider-id=" + p.providerID + (if ip == "" then "" else " --node-ip=" + ip)))
  {
    var args := KubeletArgs(p.providerID, p.internalIP, p.ipv6Net);
    JoinedArgs(p.providerID, p.internalIP, p.ipv6Net);
    hide Accepts, Flatcar, Lookup, Quotable, KubeletArgs, WithKubelet, HandsOver, Inject.NodeIP, Dropin, Child;
    UnitsFound(n, p, show);
    var units: seq<Node> :| ListAt(Flatcar(n, p, show), UNITS) == Some(WithKubelet(units, args));
    var now := WithKubelet(units, args);
    ListFound(Flatcar(n, p, show), UNITS, now);
    var i := FirstNamed(units);
    KubeletConfigured(units, args, i);
    LastHandsOver(now[i], if i < |units| then Items(Child(units[i], "dropins")) else [], args);
  }

  lemma {:induction false} FirstNamed(units: seq<Node>) returns (i: nat)
    ensures i <= |units| && (forall j | 0 <= j < i :: !Named(units[j], KUBELET))
    ensures i < |units| ==> Named(units[i], KUBELET)
  {
    i := 0;
    while i < |units| && !Named(units[i], KUBELET)
      invariant 0 <= i <= |units| && forall j | 0 <= j < i :: !Named(units[j], KUBELET)
    {
      i := i + 1;
    }
  }

  // The machine's key may log in as core.
  lemma CoreMayLogIn(n: Node, p: Params, show: Node -> string)
    requires Accepts(n, p) && p.sshPublicKey != ""
    ensures exists users: seq<Node>, i: nat ::
              && Lookup(Flatcar(n, p, show), ["passwd", "users"]) == Some(List(users))
              && i < |users| && Named(users[i], Str("core"))
              && Str(p.sshPublicKey) in Items(Child(users[i], "sshAuthorizedKeys"))
  {
    assert n.Map? && ListOk(n, USERS);
    hide Accepts, Lookup, Put, Fixed, Pruned, WithSection, WithUnits, WithNetwork, WithKey;
    PathsApart();
    FixedFrame(n, show, USERS);
    var n2 := Pruned(Fixed(n, show));
    PrunedFrame(Fixed(n, show), USERS);
    SectionFrame(n2, "storage", "files", USERS);
    SectionFrame(WithSection(n2, "storage", "files"), "systemd", "units", USERS);
    var n4 := Sections(n2);
    UnitsFrame(n4, p, USERS);
    NetworkFrame(WithUnits(n4, p), p, USERS);
    var n6 := WithNetwork(WithUnits(n4, p), p);
    SectionUsers(n6);
    var n7 := WithSection(n6, "passwd", "users");
    var users := ListAt(n7, USERS).value;
    var now := WithKey(users, CORE, p.sshPublicKey);
    PutGetHere(n7, USERS, List(now));
    KeyPresent(users, p.sshPublicKey);
  }

  lemma SectionUsers(n: Node)
    requires ListOk(n, USERS)
    ensures ListAt(WithSection(n, "passwd", "users"), USERS).Some?
  {
    PutGetHere(n, USERS, List([]));
    hide Put, Lookup;
  }

  lemma KeyPresent(users: seq<Node>, key: string)
    ensures var now := WithKey(users, "core", key);
            exists i: nat | i < |now| :: Named(now[i], Str("core")) && Str(key) in Items(Child(now[i], "sshAuthorizedKeys"))
  {
    var i := 0;
    while i < |users| && !Named(users[i], Str("core"))
      invariant 0 <= i <= |users| && forall j | 0 <= j < i :: !Named(users[j], Str("core"))
    {
      i := i + 1;
    }
    KeyAdded(users, "core", key, i);
    hide WithKey;
    assert Named(WithKey(users, "core", key)[i], Str("core"));
  }
}
