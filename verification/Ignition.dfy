// controllers/hetznerrobotmachine_ignition.go: what happens to the Ignition config of a Flatcar
// machine before it is written to the disk.
module Ignition {
  import opened Common
  import opened Tree
  import DataUri
  import Inject
  import Ipv6
  import Text

  const FILES: Path := ["storage", "files"]
  const LINKS: Path := ["storage", "links"]
  const UNITS: Path := ["systemd", "units"]
  const USERS: Path := ["passwd", "users"]

  function ListAt(n: Node, p: Path): Option<seq<Node>> {
    match Lookup(n, p)
    case Some(List(items)) => Some(items)
    case _ => None
  }

  function TextOf(n: Node): string { if n.Str? then n.text else "" }

  predicate Remote(source: string) { HasPrefix(source, "http://") || HasPrefix(source, "https://") }

  // ---- fixIgnitionInlineFields ----

  // show is fmt's %v for a value that is no string.
  function FixContents(contents: map<string, Node>, show: Node -> string): map<string, Node> {
    if "inline" in contents && "source" !in contents then
      var inline := contents["inline"];
      var text := if inline.Str? then inline.text else show(inline);
      contents["source" := Str(DataUri.PLAIN + DataUri.UrlEncode(text))] - {"inline"}
    else contents
  }

  function FixFile(file: Node, show: Node -> string): Node {
    if file.Map? && "contents" in file.entries && file.entries["contents"].Map? then
      Map(file.entries["contents" := Map(FixContents(file.entries["contents"].entries, show))])
    else file
  }

  function FixFiles(files: seq<Node>, show: Node -> string): (r: seq<Node>)
    ensures |r| == |files| && forall i | 0 <= i < |r| :: r[i] == FixFile(files[i], show)
  {
    seq(|files|, i requires 0 <= i < |files| => FixFile(files[i], show))
  }

  function Fixed(n: Node, show: Node -> string): Node {
    match ListAt(n, FILES)
    case None => n
    case Some(files) => Put(n, FILES, List(FixFiles(files, show)))
  }

  // ---- removeIgnitionURLDownloads ----

  function SourceOf(file: Node): string { TextOf(Child(Child(file, "contents"), "source")) }

  predicate Download(file: Node) { Remote(SourceOf(file)) }

  function Local(files: seq<Node>): seq<Node> {
    if files == [] then []
    else Local(files[..|files| - 1]) + (if Download(files[|files| - 1]) then [] else [files[|files| - 1]])
  }

  function DroppedPaths(files: seq<Node>): set<string> {
    set f | f in files && Download(f) :: TextOf(Child(f, "path"))
  }

  predicate Dangling(link: Node, dropped: set<string>) {
    link.Map? && TextOf(Child(link, "target")) in dropped
  }

  function LiveLinks(links: seq<Node>, dropped: set<string>): seq<Node> {
    if links == [] then []
    else
      LiveLinks(links[..|links| - 1], dropped)
      + (if Dangling(links[|links| - 1], dropped) then [] else [links[|links| - 1]])
  }

  // The path of a dropped file has to be a string.
  predicate PathsOk(n: Node) {
    ListAt(n, FILES).Some? ==>
      forall f | f in ListAt(n, FILES).value && Download(f) :: Child(f, "path").Str?
  }

  function Pruned(n: Node): Node {
    match ListAt(n, FILES)
    case None => n
    case Some(files) =>
      var n1 := Put(n, FILES, List(Local(files)));
      var dropped := DroppedPaths(files);
      match ListAt(n, LINKS)
      case Some(links) => if dropped == {} then n1 else Put(n1, LINKS, List(LiveLinks(links, dropped)))
      case None => n1
  }

  // ---- The sections that are created when they are missing ----

  predicate SectionOk(n: Node, section: string) {
    n.Map? && (section in n.entries ==> n.entries[section].Map?)
  }

  function WithSection(n: Node, section: string, list: string): Node {
    if Lookup(n, [section, list]).None? then Put(n, [section, list], List([])) else n
  }

  // ---- Units, files and keys ----

  function KubeletArgs(providerID: string, internalIP: string, ipv6Net: string): string {
    var node := Inject.NodeIP(internalIP, ipv6Net);
    var id := if providerID == "" then [] else ["--provider-id=" + providerID];
    var ip := if node == "" then [] else ["--node-ip=" + node];
    Text.Join(id + ip, " ")
  }

  lemma JoinedArgs(providerID: string, internalIP: string, net: string)
    requires providerID != ""
    ensures KubeletArgs(providerID, internalIP, net) ==
            "--provider-id=" + providerID
            + (if Inject.NodeIP(internalIP, net) == "" then "" else " --node-ip=" + Inject.NodeIP(internalIP, net))
  {
    var node := Inject.NodeIP(internalIP, net);
    var id, ip := "--provider-id=" + providerID, "--node-ip=" + node;
    if node != "" {
      assert [id] + [ip] == [id, ip] && [id, ip][1..] == [ip];
      assert Text.Join([ip], " ") == ip && Text.Join([id, ip], " ") == id + " " + ip;
      assert " " + ip == " --node-ip=" + node;
    } else {
      assert [id] + [] == [id];
    }
  }

  // The kubelet of a Flatcar machine is told the node addresses that a Talos machine's is told.
  method BuildKubeletExtraArgs(providerID: string, internalIP: string, ipv6Net: string) returns (joined: string)
    ensures joined == KubeletArgs(providerID, internalIP, ipv6Net)
    ensures var ip := Inject.NodeIP(internalIP, ipv6Net);
            providerID != "" ==>
              joined == "--provider-id=" + providerID + (if ip == "" then "" else " --node-ip=" + ip)
  {
    var args: seq<string> := [];
    if providerID != "" {
      args := args + ["--provider-id=" + providerID];
    }
    var nodeIPv6 := "";
    if ipv6Net != "" {
      var ipv6Prefix := Ipv6.BeforeSlash(ipv6Net);
      nodeIPv6 := TrimSuffix(ipv6Prefix, "::") + "::1";
    }
    var nodeIP := "";
    if internalIP != "" && nodeIPv6 != "" {
      nodeIP := internalIP + "," + nodeIPv6;
    } else if internalIP != "" {
      nodeIP := internalIP;
    } else if nodeIPv6 != "" {
      nodeIP := nodeIPv6;
    }
    assert nodeIP == Inject.NodeIP(internalIP, ipv6Net);
    if nodeIP != "" {
      args := args + ["--node-ip=" + nodeIP];
    }
    joined := Text.Join(args, " ");
    if providerID != "" {
      JoinedArgs(providerID, internalIP, ipv6Net);
    }
  }

  const KUBELET := Str("kubelet.service")

  predicate Named(entry: Node, name: Node) {
    entry.Map? && "name" in entry.entries && entry.entries["name"] == name
  }

  function DropinText(args: string): string { "[Service]\n" + "Environment=\"KUBELET_EXTRA_ARGS=" + args + "\"\n" }

  function Dropin(args: string): Node {
    Map(map["name" := Str("10-caphr-args.conf"), "contents" := Str(DropinText(args))])
  }

  // Update the first entry with the given name.
  function UpdateFirst(entries: seq<Node>, name: Node, update: map<string, Node> -> map<string, Node>): seq<Node> {
    if entries == [] then []
    else if Named(entries[0], name) then [Map(update(entries[0].entries))] + entries[1..]
    else [entries[0]] + UpdateFirst(entries[1..], name, update)
  }

  function AddDropin(args: string): map<string, Node> -> map<string, Node> {
    unit => unit["dropins" := List(Items(Child(Map(unit), "dropins")) + [Dropin(args)])]
  }

  function KubeletUnit(): Node { Map(map["name" := KUBELET, "enabled" := Bool(false)]) }

  function WithKubelet(units: seq<Node>, args: string): seq<Node> {
    UpdateFirst(units + [KubeletUnit()], KUBELET, AddDropin(args))
  }

  function FileNode(path: string, content: string, mode: int): Node {
    Map(map["path" := Str(path),
            "contents" := Map(map["source" := Str(DataUri.PLAIN + DataUri.UrlEncode(content))]),
            "mode" := Int(mode),
            "overwrite" := Bool(true)])
  }

  function MatchText(mac: string): string { "[Match]\n" + "MACAddress=" + mac + "\n" }

  function ResolverText(): string { "\n" + "[Network]\n" + "DNS=185.12.64.1\n" + "DNS=185.12.64.2\n" }

  function AddressText(serverIP: string, gatewayIP: string): string {
    "\n" + "[Address]\n" + "Address=" + serverIP + "/32\n" + "Peer=" + gatewayIP + "/32\n"
  }

  function RouteText(gatewayIP: string): string {
    "\n" + "[Route]\n" + "Destination=0.0.0.0/0\n" + "Gateway=" + gatewayIP + "\n"
  }

  function Ipv6AddressText(ipv6Net: string): string {
    "\n" + "[Address]\n" + "Address=" + Ipv6.FlatcarInterfaceAddress(ipv6Net) + "\n"
  }

  function Ipv6RouteText(): string { "\n" + "[Route]\n" + "Destination=::/0\n" + "Gateway=fe80::1\n" }

  function NetworkText(mac: string, serverIP: string, gatewayIP: string, ipv6Net: string): string {
    MatchText(mac) + ResolverText() + AddressText(serverIP, gatewayIP) + RouteText(gatewayIP)
    + (if ipv6Net == "" then "" else Ipv6AddressText(ipv6Net) + Ipv6RouteText())
  }

  const NETWORK_FILE := "/etc/systemd/network/10-public.network"

  function NetworkFile(mac: string, serverIP: string, gatewayIP: string, ipv6Net: string): Node {
    FileNode(NETWORK_FILE, NetworkText(mac, serverIP, gatewayIP, ipv6Net), 420)
  }

  function KeysOf(user: map<string, Node>): seq<Node> { Items(Child(Map(user), "sshAuthorizedKeys")) }

  function AddKey(key: Node): map<string, Node> -> map<string, Node> {
    user => if key in KeysOf(user) then user else user["sshAuthorizedKeys" := List(KeysOf(user) + [key])]
  }

  predicate SomeNamed(entries: seq<Node>, name: Node) { exists e | e in entries :: Named(e, name) }

  function WithKey(users: seq<Node>, user: string, key: string): seq<Node> {
    if SomeNamed(users, Str(user)) then UpdateFirst(users, Str(user), AddKey(Str(key)))
    else users + [Map(map["name" := Str(user), "sshAuthorizedKeys" := List([Str(key)])])]
  }

  // ---- injectFlatcarConfig on the decoded document ----

  datatype Params = Params(
    providerID: string,
    internalIP: string,
    ipv6Net: string,
    primaryMAC: string,
    sshPublicKey: string,
    serverIP: string,
    gatewayIP: string)

  function Sections(n: Node): Node { WithSection(WithSection(n, "storage", "files"), "systemd", "units") }

  function WithUnits(n: Node, p: Params): Node {
    var args := KubeletArgs(p.providerID, p.internalIP, p.ipv6Net);
    match ListAt(n, UNITS)
    case Some(units) => if args == "" then n else Put(n, UNITS, List(WithKubelet(units, args)))
    case None => n
  }

  predicate Networked(p: Params) { p.serverIP != "" && p.gatewayIP != "" }

  function WithNetwork(n: Node, p: Params): Node {
    match ListAt(n, FILES)
    case Some(files) =>
      if Networked(p) then
        Put(n, FILES, List(files + [NetworkFile(p.primaryMAC, p.serverIP, p.gatewayIP, p.ipv6Net)]))
      else n
    case None => n
  }

  const CORE := "core"

  function WithCoreKey(n: Node, p: Params): Node {
    if p.sshPublicKey == "" then n
    else
      var n1 := WithSection(n, "passwd", "users");
      match ListAt(n1, USERS)
      case Some(users) => Put(n1, USERS, List(WithKey(users, CORE, p.sshPublicKey)))
      case None => n1
  }

  function Flatcar(n: Node, p: Params, show: Node -> string): Node {
    WithCoreKey(WithNetwork(WithUnits(Sections(Pruned(Fixed(n, show))), p), p), p)
  }

  // A list that is absent, or is a list.
  predicate ListOk(n: Node, p: Path) { Lookup(n, p).Some? ==> Lookup(n, p).value.List? }

  // The documents the type assertions of the source accept; on all others it panics.
  predicate Accepts(n: Node, p: Params) {
    && n.Map?
    && PathsOk(n)
    && SectionOk(n, "storage") && SectionOk(n, "systemd")
    && (KubeletArgs(p.providerID, p.internalIP, p.ipv6Net) != "" ==> ListOk(n, UNITS))
    && (Networked(p) ==> ListOk(n, FILES))
    && (p.sshPublicKey != "" ==> SectionOk(n, "passwd") && ListOk(n, USERS))
  }

  lemma Lookup2(n: Node, a: string, b: string)
    ensures Lookup(n, [a, b]) ==
            (var m := Entries(Child(n, a)); if b in m then Some(m[b]) else None)
  {
    assert [a, b][1..] == [b] && [b][1..] == [];
    if n.Map? && a in n.entries {
      var x := n.entries[a];
      assert Lookup(x, [b]) == if b in Entries(x) then Some(Entries(x)[b]) else None;
    }
  }

  lemma Put2(n: Node, a: string, b: string, v: Node)
    ensures Put(n, [a, b], v) == Map(Entries(n)[a := Map(Entries(Child(n, a))[b := v])])
  {
    assert [a, b][1..] == [b] && [b][1..] == [];
    var x := Child(n, a);
    assert Put(x, [b], v) == Map(Entries(x)[b := Put(Child(x, b), [], v)]);
  }

  lemma OnlyMapsFixed(file: Node, show: Node -> string)
    ensures !file.Map? ==> FixFile(file, show) == file
  {
  }

  // The decoded document, changed in place. A method that answers false stands for a panic.
  class Document {
    var root: map<string, Node>

    constructor (entries: map<string, Node>)
      ensures Root() == Map(entries)
    {
      root := entries;
    }

    function Root(): Node
      reads this
    {
      Map(root)
    }

    static method FixInline(file: map<string, Node>, show: Node -> string) returns (fixed: map<string, Node>)
      ensures Map(fixed) == FixFile(Map(file), show)
    {
      fixed := file;
      if "contents" !in file || !file["contents"].Map? {
        return;
      }
      var contents := file["contents"].entries;
      if "inline" in contents && "source" !in contents {
        var inline := contents["inline"];
        var text := if inline.Str? then inline.text else show(inline);
        contents := contents["source" := Str(DataUri.PLAIN + DataUri.UrlEncode(text))];
        contents := contents - {"inline"};
        fixed := file["contents" := Map(contents)];
      } else {
        assert file["contents" := Map(contents)] == file;
      }
    }

    method FixIgnitionInlineFields(show: Node -> string)
      modifies this
      ensures Root() == Fixed(old(Root()), show)
    {
      hide FixFile;
      ghost var n := Root();
      Lookup2(Root(), "storage", "files");
      if "storage" !in root || !root["storage"].Map? {
        return;
      }
      var storage := root["storage"].entries;
      if "files" !in storage || !storage["files"].List? {
        return;
      }
      var files := storage["files"].items;
      ghost var was := files;
      for i := 0 to |files|
        invariant |files| == |was| && Root() == n
        invariant forall j | 0 <= j < i :: files[j] == FixFile(was[j], show)
        invariant forall j | i <= j < |was| :: files[j] == was[j]
      {
        if !files[i].Map? {
          OnlyMapsFixed(was[i], show);
          continue;
        }
        var file := FixInline(files[i].entries, show);
        files := files[i := Map(file)];
      }
      assert files == FixFiles(was, show);
      assert ListAt(n, FILES) == Some(was);
      Put2(n, "storage", "files", List(files));
      storage := storage["files" := List(files)];
      root := root["storage" := Map(storage)];
    }

    method RemoveIgnitionURLDownloads() returns (ok: bool)
      modifies this
      ensures ok <==> PathsOk(old(Root()))
      ensures ok ==> Root() == Pruned(old(Root()))
    {
      ghost var n := Root();
      Lookup2(n, "storage", "files");
      Lookup2(n, "storage", "links");
      if "storage" !in root || !root["storage"].Map? {
        return true;
      }
      var storage := root["storage"].entries;
      var removedPaths: set<string> := {};
      if "files" in storage && storage["files"].List? {
        var kept;
        ok, kept, removedPaths := KeepLocal(storage["files"].items);
        if !ok {
          return;
        }
        Put2(n, "storage", "files", List(kept));
        storage := storage["files" := List(kept)];
      }
      if "links" in storage && storage["links"].List? && removedPaths != {} {
        var kept := PruneLinks(storage["links"].items, removedPaths);
        Put2(Put(n, FILES, storage["files"]), "storage", "links", List(kept));
        storage := storage["links" := List(kept)];
      }
      root := root["storage" := Map(storage)];
      return true;
    }

    // The files that need no download, and the paths of the others.
    static method KeepLocal(files: seq<Node>) returns (ok: bool, kept: seq<Node>, removedPaths: set<string>)
      ensures ok <==> forall f | f in files && Download(f) :: Child(f, "path").Str?
      ensures ok ==> kept == Local(files) && removedPaths == DroppedPaths(files)
    {
      kept, removedPaths := [], {};
      assert files[..0] == [];
      for i := 0 to |files|
        invariant kept == Local(files[..i])
        invariant removedPaths == DroppedPaths(files[..i])
        invariant forall f | f in files[..i] && Download(f) :: Child(f, "path").Str?
      {
        var f := files[i];
        assert files[..i + 1] == files[..i] + [f];
        assert files[..i + 1][..i] == files[..i];
        if Download(f) {
          if !Child(f, "path").Str? {
            assert f in files;
            return false, kept, removedPaths;
          }
          removedPaths := removedPaths + {Child(f, "path").text};
          continue;
        }
        kept := kept + [f];
      }
      assert files[..|files|] == files;
      ok := true;
    }

    static method PruneLinks(links: seq<Node>, removedPaths: set<string>) returns (kept: seq<Node>)
      ensures kept == LiveLinks(links, removedPaths)
    {
      kept := [];
      for i := 0 to |links|
        invariant kept == LiveLinks(links[..i], removedPaths)
      {
        assert links[..i + 1][..i] == links[..i];
        if links[i].Map? && TextOf(Child(links[i], "target")) in removedPaths {
          continue;
        }
        kept := kept + [links[i]];
      }
      assert links[..|links|] == links;
    }

    // Make sure that a section and its list are there.
    method Ensure(section: string, list: string) returns (ok: bool)
      modifies this
      ensures ok <==> SectionOk(old(Root()), section)
      ensures ok ==> Root() == WithSection(old(Root()), section, list)
    {
      Lookup2(Root(), section, list);
      Put2(Root(), section, list, List([]));
      if section !in root {
        root := root[section := Map(map[])];
      }
      if !root[section].Map? {
        return false;
      }
      var m := root[section].entries;
      if list !in m {
        m := m[list := List([])];
        root := root[section := Map(m)];
      }
      return true;
    }

    // systemd holds a map with a list of units.
    method AddIgnitionUnit(unit: Node)
      requires ListAt(Root(), UNITS).Some?
      modifies this
      ensures Root() == Put(old(Root()), UNITS, List(ListAt(old(Root()), UNITS).value + [unit]))
      ensures ListAt(Root(), UNITS) == Some(ListAt(old(Root()), UNITS).value + [unit])
    {
      Lookup2(Root(), "systemd", "units");
      var systemd := root["systemd"].entries;
      var units := systemd["units"].items;
      Put2(Root(), "systemd", "units", List(units + [unit]));
      PutGetHere(Root(), UNITS, List(units + [unit]));
      systemd := systemd["units" := List(units + [unit])];
      root := root["systemd" := Map(systemd)];
    }

    method AddKubeletDropin(args: string)
      requires ListAt(Root(), UNITS).Some?
      modifies this
      ensures Root() == Put(old(Root()), UNITS, List(UpdateFirst(ListAt(old(Root()), UNITS).value, KUBELET, AddDropin(args))))
    {
      Lookup2(Root(), "systemd", "units");
      var systemd := root["systemd"].entries;
      var units := systemd["units"].items;
      var i := 0;
      while i < |units| && !Named(units[i], KUBELET)
        invariant 0 <= i <= |units|
        invariant forall j | 0 <= j < i :: !Named(units[j], KUBELET)
      {
        i := i + 1;
      }
      UpdateAt(units, KUBELET, AddDropin(args), i);
      ghost var was := units;
      if i < |units| {
        var unit := units[i].entries;
        var dropins := if "dropins" in unit then Items(unit["dropins"]) else [];
        dropins := dropins + [Dropin(args)];
        unit := unit["dropins" := List(dropins)];
        units := units[i := Map(unit)];
      }
      assert units == UpdateFirst(was, KUBELET, AddDropin(args));
      Put2(Root(), "systemd", "units", List(units));
      systemd := systemd["units" := List(units)];
      root := root["systemd" := Map(systemd)];
    }

    method AddIgnitionFile(path: string, content: string, mode: int)
      requires ListAt(Root(), FILES).Some?
      modifies this
      ensures Root() == Put(old(Root()), FILES, List(ListAt(old(Root()), FILES).value + [FileNode(path, content, mode)]))
    {
      Lookup2(Root(), "storage", "files");
      var storage := root["storage"].entries;
      var files := storage["files"].items;
      files := files + [FileNode(path, content, mode)];
      Put2(Root(), "storage", "files", List(files));
      storage := storage["files" := List(files)];
      root := root["storage" := Map(storage)];
    }

    method AddSSHAuthorizedKey(user: string, key: string)
      requires ListAt(Root(), USERS).Some?
      modifies this
      ensures Root() == Put(old(Root()), USERS, List(WithKey(ListAt(old(Root()), USERS).value, user, key)))
    {
      Lookup2(Root(), "passwd", "users");
      var passwd := root["passwd"].entries;
      var users := passwd["users"].items;
      ghost var was := users;
      var i := 0;
      while i < |users| && !Named(users[i], Str(user))
        invariant 0 <= i <= |users|
        invariant forall j | 0 <= j < i :: !Named(users[j], Str(user))
      {
        i := i + 1;
      }
      UpdateAt(users, Str(user), AddKey(Str(key)), i);
      if i < |users| {
        assert users[i] in users;
        var entry := users[i].entries;
        var keys := if "sshAuthorizedKeys" in entry then Items(entry["sshAuthorizedKeys"]) else [];
        if Str(key) !in keys {
          keys := keys + [Str(key)];
          entry := entry["sshAuthorizedKeys" := List(keys)];
          users := users[i := Map(entry)];
        } else {
          assert users[i := Map(entry)] == users;
        }
      } else {
        users := users + [Map(map["name" := Str(user), "sshAuthorizedKeys" := List([Str(key)])])];
      }
      assert users == WithKey(was, user, key);
      Put2(Root(), "passwd", "users", List(users));
      passwd := passwd["users" := List(users)];
      root := root["passwd" := Map(passwd)];
    }

    // Everything injectFlatcarConfig does between decoding and encoding.
    method Inject(p: Params, show: Node -> string) returns (ok: bool)
      modifies this
      ensures ok <==> Accepts(old(Root()), p)
      ensures ok ==> Root() == Flatcar(old(Root()), p, show)
    {
      hide Lookup, ListAt, SectionOk, ListOk, PathsOk, Pruned, Fixed, WithSection;
      ghost var n0 := Root();
      FixedShape(n0, show);
      FixIgnitionInlineFields(show);
      ghost var n1 := Root();
      PrunedShape(n1);
      ok := RemoveIgnitionURLDownloads();
      if !ok {
        return;
      }
      SectionShape(Root(), "storage", "files");
      ok := Ensure("storage", "files");
      if !ok {
        return;
      }
      ghost var n3 := Root();
      SectionShape(n3, "systemd", "units");
      ok := Ensure("systemd", "units");
      if !ok {
        return;
      }
      ghost var n4 := Root();
      assert SameShape(n0, n4) && n4 == Sections(Pruned(n1));
      ok := AddKubeletArgs(p);
      if !ok {
        return;
      }
      ok := AddHetznerPrimaryNetwork(p);
      if !ok {
        return;
      }
      ok := AddCoreKey(p);
    }

    method AddKubeletArgs(p: Params) returns (ok: bool)
      requires Lookup(Root(), UNITS).Some?
      modifies this
      ensures ok <==> KubeletArgs(p.providerID, p.internalIP, p.ipv6Net) == "" || ListOk(old(Root()), UNITS)
      ensures ok ==> Root() == WithUnits(old(Root()), p) && SameShape(old(Root()), Root())
    {
      hide Lookup, Put, SectionOk, KubeletArgs, WithKubelet;
      ghost var n := Root();
      var args := BuildKubeletExtraArgs(p.providerID, p.internalIP, p.ipv6Net);
      ShapeItself(n);
      if args == "" {
        return true;
      }
      if ListAt(Root(), UNITS).None? {
        return false;
      }
      ghost var units := ListAt(n, UNITS).value;
      AddIgnitionUnit(KubeletUnit());
      AddKubeletDropin(args);
      PutPut(n, UNITS, List(units + [KubeletUnit()]), List(WithKubelet(units, args)));
      ListShape(n, "systemd", "units", WithKubelet(units, args));
      assert WithKubelet(units, args) == UpdateFirst(units + [KubeletUnit()], KUBELET, AddDropin(args)) by {
        KubeletMeans(units, args);
      }
      return true;
    }

    static method BuildNetwork(p: Params) returns (network: string)
      ensures network == NetworkText(p.primaryMAC, p.serverIP, p.gatewayIP, p.ipv6Net)
    {
      network := "[Match]\n" + "MACAddress=" + p.primaryMAC + "\n";
      network := network + ("\n" + "[Network]\n" + "DNS=185.12.64.1\n" + "DNS=185.12.64.2\n");
      network := network + ("\n" + "[Address]\n" + "Address=" + p.serverIP + "/32\n" + "Peer=" + p.gatewayIP + "/32\n");
      network := network + ("\n" + "[Route]\n" + "Destination=0.0.0.0/0\n" + "Gateway=" + p.gatewayIP + "\n");
      if p.ipv6Net != "" {
        ghost var ipv4 := network;
        var ipv6Addr := TrimSuffix(Ipv6.BeforeSlash(p.ipv6Net), "::") + "::1/64";
        var address := "\n" + "[Address]\n" + "Address=" + ipv6Addr + "\n";
        var route := "\n" + "[Route]\n" + "Destination=::/0\n" + "Gateway=fe80::1\n";
        network := network + address;
        network := network + route;
        assert network == ipv4 + (address + route);
      }
    }

    method AddHetznerPrimaryNetwork(p: Params) returns (ok: bool)
      requires Lookup(Root(), FILES).Some?
      modifies this
      ensures ok <==> (Networked(p) ==> ListOk(old(Root()), FILES))
      ensures ok ==> Root() == WithNetwork(old(Root()), p) && SameShape(old(Root()), Root())
    {
      hide Lookup, Put, SectionOk;
      ghost var n := Root();
      ShapeItself(n);
      if !Networked(p) {
        return true;
      }
      if ListAt(Root(), FILES).None? {
        return false;
      }
      var network := BuildNetwork(p);
      AddIgnitionFile(NETWORK_FILE, network, 420);
      ListShape(n, "storage", "files",
                ListAt(n, FILES).value + [NetworkFile(p.primaryMAC, p.serverIP, p.gatewayIP, p.ipv6Net)]);
      return true;
    }

    method AddCoreKey(p: Params) returns (ok: bool)
      modifies this
      ensures ok <==> (p.sshPublicKey != "" ==> SectionOk(old(Root()), "passwd") && ListOk(old(Root()), USERS))
      ensures ok ==> Root() == WithCoreKey(old(Root()), p)
    {
      hide Lookup, Put, SectionOk, WithSection;
      ghost var n := Root();
      if p.sshPublicKey == "" {
        return true;
      }
      SectionShape(n, "passwd", "users");
      ok := Ensure("passwd", "users");
      if !ok {
        return;
      }
      if ListAt(Root(), USERS).None? {
        return false;
      }
      AddSSHAuthorizedKey(CORE, p.sshPublicKey);
    }
  }

  lemma KubeletMeans(units: seq<Node>, args: string)
    ensures WithKubelet(units, args) == UpdateFirst(units + [KubeletUnit()], KUBELET, AddDropin(args))
  {
  }

  // ---- What the steps leave of the document's shape ----

  // As far as the type assertions are concerned, b is like a, with no list lost.
  predicate SameShape(a: Node, b: Node) {
    && a.Map? && b.Map?
    && (SectionOk(a, "storage") <==> SectionOk(b, "storage"))
    && (SectionOk(a, "systemd") <==> SectionOk(b, "systemd"))
    && (SectionOk(a, "passwd") <==> SectionOk(b, "passwd"))
    && (ListOk(a, FILES) <==> ListOk(b, FILES)) && (Lookup(a, FILES).Some? ==> Lookup(b, FILES).Some?)
    && (ListOk(a, UNITS) <==> ListOk(b, UNITS)) && (Lookup(a, UNITS).Some? ==> Lookup(b, UNITS).Some?)
    && (ListOk(a, USERS) <==> ListOk(b, USERS)) && (Lookup(a, USERS).Some? ==> Lookup(b, USERS).Some?)
  }

  lemma ShapeItself(n: Node)
    requires n.Map?
    ensures SameShape(n, n)
  {
  }

  lemma PutSection(n: Node, s: string, l: string, v: Node, t: string)
    requires n.Map? && (s == t ==> SectionOk(n, s))
    ensures Put(n, [s, l], v).Map? && (SectionOk(Put(n, [s, l], v), t) <==> SectionOk(n, t))
  {
    Put2(n, s, l, v);
  }

  lemma PutList(n: Node, s: string, l: string, xs: seq<Node>, q: Path)
    requires |q| == 2 && ListOk(n, [s, l])
    ensures ListOk(Put(n, [s, l], List(xs)), q) <==> ListOk(n, q)
    ensures Lookup(n, q).Some? ==> Lookup(Put(n, [s, l], List(xs)), q).Some?
  {
    if q == [s, l] {
      PutGetHere(n, q, List(xs));
    } else {
      assert Apart([s, l], q);
      PutFrame(n, [s, l], List(xs), q);
    }
  }

  lemma PutShape(n: Node, s: string, l: string, xs: seq<Node>)
    requires n.Map? && SectionOk(n, s) && ListOk(n, [s, l])
    ensures SameShape(n, Put(n, [s, l], List(xs)))
  {
    hide Put, Lookup, SectionOk, ListOk;
    PutSection(n, s, l, List(xs), "storage");
    PutSection(n, s, l, List(xs), "systemd");
    PutSection(n, s, l, List(xs), "passwd");
    PutList(n, s, l, xs, FILES);
    PutList(n, s, l, xs, UNITS);
    PutList(n, s, l, xs, USERS);
  }

  lemma ListShape(n: Node, s: string, l: string, xs: seq<Node>)
    requires n.Map? && ListAt(n, [s, l]).Some?
    ensures SameShape(n, Put(n, [s, l], List(xs)))
  {
    hide Put, SameShape;
    Lookup2(n, s, l);
    PutShape(n, s, l, xs);
  }

  lemma SectionShape(n: Node, s: string, l: string)
    requires n.Map?
    ensures SectionOk(n, s) ==> SameShape(n, WithSection(n, s, l)) && Lookup(WithSection(n, s, l), [s, l]).Some?
  {
    hide Put, Lookup, SameShape;
    ShapeItself(n);
    if SectionOk(n, s) && Lookup(n, [s, l]).None? {
      PutShape(n, s, l, []);
      PutGetHere(n, [s, l], List([]));
    }
  }

  lemma ShapeChain(a: Node, b: Node, c: Node)
    requires SameShape(a, b) && SameShape(b, c)
    ensures SameShape(a, c)
  {
    hide SectionOk, ListOk, Lookup;
  }

  lemma FixedShape(n: Node, show: Node -> string)
    requires n.Map?
    ensures SameShape(n, Fixed(n, show)) && (PathsOk(Fixed(n, show)) <==> PathsOk(n))
  {
    hide Put, Lookup, SameShape, FixFile;
    ShapeItself(n);
    if ListAt(n, FILES).Some? {
      var files := ListAt(n, FILES).value;
      ListShape(n, "storage", "files", FixFiles(files, show));
      PutGetHere(n, FILES, List(FixFiles(files, show)));
      FixedPaths(files, show);
    }
  }

  lemma FixedPaths(files: seq<Node>, show: Node -> string)
    ensures (forall f | f in FixFiles(files, show) && Download(f) :: Child(f, "path").Str?)
            <==> (forall f | f in files && Download(f) :: Child(f, "path").Str?)
  {
    hide FixFile, Download;
    var fixed := FixFiles(files, show);
    forall f | f in files ensures exists g | g in fixed :: (Download(g) <==> Download(f)) && Child(g, "path") == Child(f, "path") {
      var i :| 0 <= i < |files| && files[i] == f;
      FixKeeps(f, show);
      assert fixed[i] in fixed;
    }
    forall g | g in fixed ensures exists f | f in files :: (Download(g) <==> Download(f)) && Child(g, "path") == Child(f, "path") {
      var i :| 0 <= i < |fixed| && fixed[i] == g;
      FixKeeps(files[i], show);
      assert files[i] in files;
    }
  }

  // Fixing a file changes neither its path nor whether it is a download.
  lemma FixKeeps(file: Node, show: Node -> string)
    ensures Child(FixFile(file, show), "path") == Child(file, "path")
    ensures Download(FixFile(file, show)) <==> Download(file)
  {
    hide DataUri.UrlEncode;
    var g := FixFile(file, show);
    if g != file {
      var c, d := file.entries["contents"].entries, g.entries["contents"].entries;
      if c != d {
        assert d["source"].text[..6] == DataUri.PLAIN;
        assert SourceOf(g)[0] == 'd' && SourceOf(file) == "";
      }
    }
  }

  lemma PrunedShape(n: Node)
    requires n.Map?
    ensures SameShape(n, Pruned(n))
  {
    hide Put, Lookup, SameShape, Local, LiveLinks, DroppedPaths;
    ShapeItself(n);
    if ListAt(n, FILES).Some? {
      var files := ListAt(n, FILES).value;
      var n1 := Put(n, FILES, List(Local(files)));
      ListShape(n, "storage", "files", Local(files));
      if ListAt(n, LINKS).Some? && DroppedPaths(files) != {} {
        assert FILES[1][0] != LINKS[1][0];
        assert Apart(FILES, LINKS);
        PutFrame(n, FILES, List(Local(files)), LINKS);
        var live := LiveLinks(ListAt(n, LINKS).value, DroppedPaths(files));
        assert n1.Map? by { PutSectionMap(n, FILES, List(Local(files))); }
        ListShape(n1, "storage", "links", live);
        ShapeChain(n, n1, Put(n1, LINKS, List(live)));
      }
    }
  }

  lemma PutSectionMap(n: Node, p: Path, v: Node)
    requires p != []
    ensures Put(n, p, v).Map?
  {
  }

  // The first named entry is at i.
  lemma {:induction false} UpdateAt(entries: seq<Node>, name: Node, update: map<string, Node> -> map<string, Node>, i: nat)
    requires i <= |entries| && forall j | 0 <= j < i :: !Named(entries[j], name)
    requires i < |entries| ==> Named(entries[i], name)
    ensures UpdateFirst(entries, name, update) ==
            if i < |entries| then entries[i := Map(update(entries[i].entries))] else entries
  {
    if i > 0 {
      UpdateAt(entries[1..], name, update, i - 1);
      assert entries == [entries[0]] + entries[1..];
    }
  }

  // ---- What the written document means ----

  function FilesOf(n: Node): seq<Node> { if ListAt(n, FILES).Some? then ListAt(n, FILES).value else [] }

  function LinksOf(n: Node): seq<Node> { if ListAt(n, LINKS).Some? then ListAt(n, LINKS).value else [] }

  lemma PathsApart()
    ensures Apart(FILES, LINKS) && Apart(FILES, UNITS) && Apart(FILES, USERS)
    ensures Apart(LINKS, FILES) && Apart(LINKS, UNITS) && Apart(LINKS, USERS)
    ensures Apart(UNITS, FILES) && Apart(UNITS, LINKS) && Apart(UNITS, USERS)
    ensures Apart(USERS, FILES) && Apart(USERS, LINKS) && Apart(USERS, UNITS)
  {
    assert FILES[1][0] == 'f' && LINKS[1][0] == 'l' && UNITS[1][0] == 'u' && USERS[1][0] == 'u';
    assert UNITS[1][1] == 'n' && USERS[1][1] == 's';
  }

  // Steps that do not touch p leave what is there.
  lemma SectionFrame(n: Node, s: string, l: string, q: Path)
    requires Apart([s, l], q)
    ensures Lookup(WithSection(n, s, l), q) == Lookup(n, q)
  {
    if Lookup(n, [s, l]).None? {
      PutFrame(n, [s, l], List([]), q);
    }
  }

  lemma UnitsFrame(n: Node, p: Params, q: Path)
    requires Apart(UNITS, q)
    ensures Lookup(WithUnits(n, p), q) == Lookup(n, q)
  {
    hide Lookup, Put, WithKubelet, KubeletArgs;
    var args := KubeletArgs(p.providerID, p.internalIP, p.ipv6Net);
    if ListAt(n, UNITS).Some? {
      PutFrame(n, UNITS, List(WithKubelet(ListAt(n, UNITS).value, args)), q);
    }
  }

  lemma NetworkFrame(n: Node, p: Params, q: Path)
    requires Apart(FILES, q)
    ensures Lookup(WithNetwork(n, p), q) == Lookup(n, q)
  {
    hide Lookup, Put, NetworkFile;
    if ListAt(n, FILES).Some? {
      PutFrame(n, FILES, List(ListAt(n, FILES).value + [NetworkFile(p.primaryMAC, p.serverIP, p.gatewayIP, p.ipv6Net)]), q);
    }
  }

  lemma KeyFrame(n: Node, p: Params, q: Path)
    requires Apart(USERS, q)
    ensures Lookup(WithCoreKey(n, p), q) == Lookup(n, q)
  {
    hide Lookup, Put, WithKey, WithSection;
    var n1 := WithSection(n, "passwd", "users");
    SectionFrame(n, "passwd", "users", q);
    if ListAt(n1, USERS).Some? {
      PutFrame(n1, USERS, List(WithKey(ListAt(n1, USERS).value, CORE, p.sshPublicKey)), q);
    }
  }

  lemma FixedFrame(n: Node, show: Node -> string, q: Path)
    requires Apart(FILES, q)
    ensures Lookup(Fixed(n, show), q) == Lookup(n, q)
  {
    hide Lookup, Put, FixFiles;
    if ListAt(n, FILES).Some? {
      PutFrame(n, FILES, List(FixFiles(ListAt(n, FILES).value, show)), q);
    }
  }

  lemma PrunedFrame(n: Node, q: Path)
    requires Apart(FILES, q)
    requires Apart(LINKS, q)
    ensures Lookup(Pruned(n), q) == Lookup(n, q)
  {
    hide Lookup, Put, Local, LiveLinks, DroppedPaths;
    if ListAt(n, FILES).Some? {
      var files := ListAt(n, FILES).value;
      var n1 := Put(n, FILES, List(Local(files)));
      PutFrame(n, FILES, List(Local(files)), q);
      if ListAt(n, LINKS).Some? {
        PutFrame(n1, LINKS, List(LiveLinks(ListAt(n, LINKS).value, DroppedPaths(files))), q);
      }
    }
  }

  // All places apart from the four lists keep their values.
  lemma FlatcarFrame(n: Node, p: Params, show: Node -> string, q: Path)
    requires Apart(FILES, q) && Apart(LINKS, q) && Apart(UNITS, q) && Apart(USERS, q)
    ensures Lookup(Flatcar(n, p, show), q) == Lookup(n, q)
  {
    hide Lookup, Fixed, Pruned, WithSection, WithUnits, WithNetwork, WithCoreKey;
    FixedFrame(n, show, q);
    var n1 := Fixed(n, show);
    PrunedFrame(n1, q);
    var n2 := Pruned(n1);
    SectionFrame(n2, "storage", "files", q);
    var n3 := WithSection(n2, "storage", "files");
    SectionFrame(n3, "systemd", "units", q);
    var n4 := Sections(n2);
    UnitsFrame(n4, p, q);
    NetworkFrame(WithUnits(n4, p), p, q);
    KeyFrame(WithNetwork(WithUnits(n4, p), p), p, q);
  }

  lemma PrunedLists(n: Node)
    ensures FilesOf(Pruned(n)) == Local(FilesOf(n))
    ensures ListAt(n, FILES).Some? ==> ListAt(Pruned(n), FILES).Some?
    ensures ListAt(n, FILES).None? ==> Pruned(n) == n
    ensures LinksOf(Pruned(n)) == LiveLinks(LinksOf(n), DroppedPaths(FilesOf(n)))
  {
    hide Put, Lookup;
    PathsApart();
    var dropped := DroppedPaths(FilesOf(n));
    NoneDropped(LinksOf(n));
    assert FilesOf(n) == [] ==> dropped == {};
    if ListAt(n, FILES).Some? {
      var files := ListAt(n, FILES).value;
      var n1 := Put(n, FILES, List(Local(files)));
      PutGetHere(n, FILES, List(Local(files)));
      PutFrame(n, FILES, List(Local(files)), LINKS);
      if ListAt(n, LINKS).Some? && dropped != {} {
        var live := List(LiveLinks(ListAt(n, LINKS).value, dropped));
        PutGetHere(n1, LINKS, live);
        PutFrame(n1, LINKS, live, FILES);
      }
    }
  }

  lemma {:induction false} NoneDropped(links: seq<Node>)
    ensures LiveLinks(links, {}) == links
  {
    if links != [] {
      NoneDropped(links[..|links| - 1]);
    }
  }

  lemma FixedLists(n: Node, show: Node -> string)
    ensures FilesOf(Fixed(n, show)) == FixFiles(FilesOf(n), show)
    ensures ListAt(Fixed(n, show), FILES).Some? <==> ListAt(n, FILES).Some?
    ensures LinksOf(Fixed(n, show)) == LinksOf(n)
  {
    hide Put, Lookup, FixFile;
    PathsApart();
    FixedFrame(n, show, LINKS);
    if ListAt(n, FILES).Some? {
      PutGetHere(n, FILES, List(FixFiles(ListAt(n, FILES).value, show)));
    }
  }

  // The first half of the pipeline, up to the sections.
  lemma SectionsLists(n: Node, show: Node -> string)
    requires n.Map? && ListOk(n, FILES)
    ensures var n4 := Sections(Pruned(Fixed(n, show)));
            && ListAt(n4, FILES).Some?
            && FilesOf(n4) == Local(FixFiles(FilesOf(n), show))
            && LinksOf(n4) == LiveLinks(LinksOf(n), DroppedPaths(FixFiles(FilesOf(n), show)))
  {
    hide Put, Lookup, WithSection, Fixed, Pruned, Local, LiveLinks, DroppedPaths, FixFile;
    PathsApart();
    FixedLists(n, show);
    FixedShape(n, show);
    var n1 := Fixed(n, show);
    PrunedLists(n1);
    PrunedShape(n1);
    var n2 := Pruned(n1);
    SectionFiles(n2);
    SectionFrame(n2, "storage", "files", LINKS);
    var n3 := WithSection(n2, "storage", "files");
    SectionFrame(n3, "systemd", "units", FILES);
    SectionFrame(n3, "systemd", "units", LINKS);
  }

  // The second half, which only appends the network file.
  lemma AppendedLists(n4: Node, p: Params)
    requires ListAt(n4, FILES).Some?
    ensures var n := WithCoreKey(WithNetwork(WithUnits(n4, p), p), p);
            && FilesOf(n) ==
               FilesOf(n4)
               + (if Networked(p) then [NetworkFile(p.primaryMAC, p.serverIP, p.gatewayIP, p.ipv6Net)] else [])
            && LinksOf(n) == LinksOf(n4)
  {
    hide Put, Lookup, WithUnits, WithCoreKey, NetworkFile;
    PathsApart();
    UnitsFrame(n4, p, FILES);
    UnitsFrame(n4, p, LINKS);
    var n5 := WithUnits(n4, p);
    PutGetHere(n5, FILES, List(FilesOf(n5) + [NetworkFile(p.primaryMAC, p.serverIP, p.gatewayIP, p.ipv6Net)]));
    NetworkFrame(n5, p, LINKS);
    var n6 := WithNetwork(n5, p);
    KeyFrame(n6, p, FILES);
    KeyFrame(n6, p, LINKS);
  }

  // The files and links of the written document.
  lemma FlatcarLists(n: Node, p: Params, show: Node -> string)
    requires Accepts(n, p) && ListOk(n, FILES)
    ensures FilesOf(Flatcar(n, p, show)) ==
            Local(FixFiles(FilesOf(n), show))
            + (if Networked(p) then [NetworkFile(p.primaryMAC, p.serverIP, p.gatewayIP, p.ipv6Net)] else [])
    ensures LinksOf(Flatcar(n, p, show)) == LiveLinks(LinksOf(n), DroppedPaths(FixFiles(FilesOf(n), show)))
  {
    AcceptsMap(n, p);
    hide Lookup, ListOk, Accepts, Sections, WithUnits, WithNetwork, WithCoreKey, Fixed, Pruned, FilesOf, LinksOf, NetworkFile;
    SectionsLists(n, show);
    AppendedLists(Sections(Pruned(Fixed(n, show))), p);
  }

  lemma AcceptsMap(n: Node, p: Params)
    ensures Accepts(n, p) ==> n.Map?
  {
  }

  lemma SectionFiles(n: Node)
    requires ListOk(n, FILES)
    ensures ListAt(WithSection(n, "storage", "files"), FILES).Some?
    ensures FilesOf(WithSection(n, "storage", "files")) == FilesOf(n)
  {
    PutGetHere(n, FILES, List([]));
    hide Put, Lookup;
  }

  // What a file holds, as Ignition reads it.
  datatype Content = Bytes(bytes: seq<DataUri.Byte>) | Elsewhere(source: string) | Nothing

  function ContentOf(file: Node, show: Node -> string): Content {
    var contents := Entries(Child(file, "contents"));
    if "source" in contents then
      var source := TextOf(contents["source"]);
      if HasPrefix(source, DataUri.PLAIN) then
        match DataUri.Unescape(TrimPrefix(source, DataUri.PLAIN))
          case Some(b) => Bytes(b)
          case None => Elsewhere(source)
      else Elsewhere(source)
    else if "inline" in contents then
      var inline := contents["inline"];
      Bytes(DataUri.Utf8(if inline.Str? then inline.text else show(inline)))
    else Nothing
  }

  // Rewriting a file keeps its bytes and all its other settings, and leaves no inline content
  // that the older Ignition would reject.
  lemma FixMeaning(file: Node, show: Node -> string)
    ensures var g := FixFile(file, show);
            && ContentOf(g, show) == ContentOf(file, show)
            && (forall k | k != "contents" :: Child(g, k) == Child(file, k))
            && (forall k | k != "source" && k != "inline" ::
                  Child(Child(g, "contents"), k) == Child(Child(file, "contents"), k))
            && ("inline" in Entries(Child(g, "contents")) ==> "source" in Entries(Child(g, "contents")))
  {
    hide DataUri.Utf8, DataUri.PathEscape, DataUri.Unescape;
    var g := FixFile(file, show);
    if file.Map? && "contents" in file.entries && file.entries["contents"].Map? {
      var c := file.entries["contents"].entries;
      if "inline" in c && "source" !in c {
        var text := if c["inline"].Str? then c["inline"].text else show(c["inline"]);
        var bytes := DataUri.Utf8(text);
        var source := DataUri.PLAIN + DataUri.PathEscape(bytes);
        assert source[..|DataUri.PLAIN|] == DataUri.PLAIN && source[|DataUri.PLAIN|..] == DataUri.PathEscape(bytes);
        DataUri.UnescapeEscape(bytes);
      }
    }
  }

  lemma {:induction false} LocalFixes(files: seq<Node>, show: Node -> string)
    ensures Local(FixFiles(files, show)) == FixFiles(Local(files), show)
  {
    hide FixFile, Download;
    if files != [] {
      var front := files[..|files| - 1];
      var last := files[|files| - 1];
      LocalFixes(front, show);
      FixKeeps(last, show);
      assert FixFiles(files, show)[..|files| - 1] == FixFiles(front, show);
    }
  }

  lemma {:induction false} LocalMembers(files: seq<Node>)
    ensures forall f :: f in Local(files) <==> f in files && !Download(f)
  {
    if files != [] {
      LocalMembers(files[..|files| - 1]);
      assert files == files[..|files| - 1] + [files[|files| - 1]];
    }
  }

  // The files that need no download survive in order, each with its content; the network file
  // follows them; and nothing is left to download.
  lemma FilesSurvive(n: Node, p: Params, show: Node -> string)
    requires Accepts(n, p) && ListOk(n, FILES)
    ensures var kept, now := Local(FilesOf(n)), FilesOf(Flatcar(n, p, show));
            && |now| == |kept| + (if Networked(p) then 1 else 0)
            && (forall i | 0 <= i < |kept| :: ContentOf(now[i], show) == ContentOf(kept[i], show)
                                             && Child(now[i], "path") == Child(kept[i], "path"))
            && (forall f | f in FilesOf(n) ::
                  f in kept <==> !HasPrefix(SourceOf(f), "http://") && !HasPrefix(SourceOf(f), "https://"))
            && (forall f | f in now :: !HasPrefix(SourceOf(f), "http://") && !HasPrefix(SourceOf(f), "https://"))
  {
    hide Accepts, Flatcar, ContentOf, FixFile, SourceOf, HasPrefix;
    var files := FilesOf(n);
    var now := FilesOf(Flatcar(n, p, show));
    FlatcarLists(n, p, show);
    LocalFixes(files, show);
    LocalMembers(files);
    LocalMembers(FixFiles(files, show));
    forall i | 0 <= i < |Local(files)|
      ensures ContentOf(now[i], show) == ContentOf(Local(files)[i], show) && Child(now[i], "path") == Child(Local(files)[i], "path")
    {
      FixMeaning(Local(files)[i], show);
    }
    if Networked(p) {
      NetworkIsLocal(p);
    }
  }

  lemma NetworkIsLocal(p: Params)
    ensures !Download(NetworkFile(p.primaryMAC, p.serverIP, p.gatewayIP, p.ipv6Net))
  {
    hide NetworkText, DataUri.UrlEncode;
    var f := NetworkFile(p.primaryMAC, p.serverIP, p.gatewayIP, p.ipv6Net);
    assert SourceOf(f)[0] == 'd';
  }

  // The network file holds exactly the generated text.
  lemma NetworkContent(p: Params, show: Node -> string)
    ensures ContentOf(NetworkFile(p.primaryMAC, p.serverIP, p.gatewayIP, p.ipv6Net), show)
            == Bytes(DataUri.Utf8(NetworkText(p.primaryMAC, p.serverIP, p.gatewayIP, p.ipv6Net)))
  {
    hide NetworkText, DataUri.Utf8, DataUri.PathEscape, DataUri.Unescape;
    var bytes := DataUri.Utf8(NetworkText(p.primaryMAC, p.serverIP, p.gatewayIP, p.ipv6Net));
    var source := DataUri.PLAIN + DataUri.PathEscape(bytes);
    assert source[..|DataUri.PLAIN|] == DataUri.PLAIN && source[|DataUri.PLAIN|..] == DataUri.PathEscape(bytes);
    DataUri.UnescapeEscape(bytes);
  }

  lemma {:induction false} LiveMembers(links: seq<Node>, dropped: set<string>)
    ensures forall l :: l in LiveLinks(links, dropped) <==> l in links && !Dangling(l, dropped)
  {
    if links != [] {
      LiveMembers(links[..|links| - 1], dropped);
      assert links == links[..|links| - 1] + [links[|links| - 1]];
    }
  }

  // A link is removed if and only if its target is the path of a dropped download.
  lemma LinksPrunedExactly(n: Node, p: Params, show: Node -> string, l: Node)
    requires Accepts(n, p) && ListOk(n, FILES) && l in LinksOf(n)
    ensures l !in LinksOf(Flatcar(n, p, show))
            <==> l.Map? && exists f | f in FilesOf(n) && Download(f) :: TextOf(Child(f, "path")) == TextOf(Child(l, "target"))
  {
    hide Accepts, Flatcar, FixFile, Download, Child;
    FlatcarLists(n, p, show);
    var files, fixed := FilesOf(n), FixFiles(FilesOf(n), show);
    LiveMembers(LinksOf(n), DroppedPaths(fixed));
    forall path ensures path in DroppedPaths(fixed) <==> exists f | f in files && Download(f) :: TextOf(Child(f, "path")) == path {
      if path in DroppedPaths(fixed) {
        var g :| g in fixed && Download(g) && TextOf(Child(g, "path")) == path;
        var i :| 0 <= i < |fixed| && fixed[i] == g;
        FixKeeps(files[i], show);
        assert files[i] in files;
      }
      if exists f | f in files && Download(f) :: TextOf(Child(f, "path")) == path {
        var f :| f in files && Download(f) && TextOf(Child(f, "path")) == path;
        var i :| 0 <= i < |files| && files[i] == f;
        FixKeeps(f, show);
        assert fixed[i] in fixed;
      }
    }
  }

  // ---- Keys and units ----

  lemma {:induction false} UpdateKeeps(entries: seq<Node>, name: Node, update: map<string, Node> -> map<string, Node>)
    requires forall m: map<string, Node> | "name" in m :: "name" in update(m) && update(m)["name"] == m["name"]
    requires forall m: map<string, Node> :: update(update(m)) == update(m)
    ensures UpdateFirst(UpdateFirst(entries, name, update), name, update) == UpdateFirst(entries, name, update)
    ensures SomeNamed(UpdateFirst(entries, name, update), name) <==> SomeNamed(entries, name)
  {
    if entries != [] {
      var once := UpdateFirst(entries, name, update);
      assert entries == [entries[0]] + entries[1..];
      if Named(entries[0], name) {
        assert Named(once[0], name) && once[0] in once && entries[0] in entries;
        assert once[1..] == entries[1..];
      } else {
        UpdateKeeps(entries[1..], name, update);
        assert once[1..] == UpdateFirst(entries[1..], name, update) && once == [once[0]] + once[1..];
      }
    }
  }

  lemma AddKeyTwice(key: Node)
    ensures forall m: map<string, Node> | "name" in m :: "name" in AddKey(key)(m) && AddKey(key)(m)["name"] == m["name"]
    ensures forall m: map<string, Node> :: AddKey(key)(AddKey(key)(m)) == AddKey(key)(m)
    ensures forall m: map<string, Node> :: key in KeysOf(AddKey(key)(m))
  {
    assert "name"[0] != "sshAuthorizedKeys"[0];
    forall m: map<string, Node>
      ensures AddKey(key)(AddKey(key)(m)) == AddKey(key)(m) && key in KeysOf(AddKey(key)(m))
    {
      var once := AddKey(key)(m);
      assert key !in KeysOf(m) ==> KeysOf(once) == KeysOf(m) + [key];
    }
  }

  // Adding a key a second time changes nothing.
  lemma KeyIdempotent(users: seq<Node>, user: string, key: string)
    ensures WithKey(WithKey(users, user, key), user, key) == WithKey(users, user, key)
  {
    AddKeyTwice(Str(key));
    var once := WithKey(users, user, key);
    if SomeNamed(users, Str(user)) {
      UpdateKeeps(users, Str(user), AddKey(Str(key)));
    } else {
      var entry := once[|users|];
      assert entry in once && Named(entry, Str(user));
      assert KeysOf(entry.entries) == [Str(key)];
      forall j | 0 <= j < |users| ensures !Named(once[j], Str(user)) {
        assert users[j] in users;
      }
      UpdateAt(once, Str(user), AddKey(Str(key)), |users|);
      assert once[|users| := entry] == once;
    }
  }

  // The first entry of the user has the key, with the keys it had before; all others stay.
  lemma KeyAdded(users: seq<Node>, user: string, key: string, i: nat)
    requires i <= |users| && forall j | 0 <= j < i :: !Named(users[j], Str(user))
    requires i < |users| ==> Named(users[i], Str(user))
    ensures var now := WithKey(users, user, key);
            && |now| == Max(|users|, i + 1)
            && Named(now[i], Str(user)) && Str(key) in KeysOf(now[i].entries)
            && (i < |users| ==> KeysOf(users[i].entries) <= KeysOf(now[i].entries))
            && (forall j | 0 <= j < |users| && j != i :: now[j] == users[j])
  {
    AddKeyTwice(Str(key));
    if i < |users| {
      assert users[i] in users;
      UpdateAt(users, Str(user), AddKey(Str(key)), i);
    } else {
      assert KeysOf(WithKey(users, user, key)[i].entries) == [Str(key)];
    }
  }

  // kubelet gets its arguments from the first kubelet.service unit, and there always is one;
  // its other drop-ins come before the new one, and no other unit changes.
  lemma KubeletConfigured(units: seq<Node>, args: string, i: nat)
    requires i <= |units| && forall j | 0 <= j < i :: !Named(units[j], KUBELET)
    requires i < |units| ==> Named(units[i], KUBELET)
    ensures var now := WithKubelet(units, args);
            && |now| == |units| + 1
            && Named(now[i], KUBELET)
            && Child(now[i], "dropins")
               == List((if i < |units| then Items(Child(units[i], "dropins")) else []) + [Dropin(args)])
            && (forall j | 0 <= j < |units| && j != i :: now[j] == units[j])
            && Child(now[|units|], "name") == Str("kubelet.service") && Child(now[|units|], "enabled") == Bool(false)
  {
    var all := units + [KubeletUnit()];
    UpdateAt(all, KUBELET, AddDropin(args), i);
    assert "name"[0] != "dropins"[0] && "enabled"[0] != "dropins"[0];
  }
}
