// pkg/sshrescue/client.go: what the rescue system reports, the choice of the install disk, and
// the confirmation that every disk was wiped.
module Hardware {
  import opened Common
  import opened Text

  datatype HardwareInfo = HardwareInfo(
    primaryMAC: string,
    gatewayIP: string,
    disks: seq<string>,
    ceph: set<string>,
    byID: map<string, string>)

  // ---- Lines ----

  predicate OneLine(s: string) { '\n' !in s }

  // A line that trimming leaves alone on its right-hand side.
  predicate NoTrail(s: string) { s == [] || !IsSpace(s[|s| - 1]) }

  lemma OneLineClear(l: string)
    requires OneLine(l)
    ensures Clear(l, "\n") && !Contains(l, "\n")
  {
    forall k | 0 <= k < |l| ensures !HasPrefix((l + "\n")[k..], "\n") && !HasPrefix(l[k..], "\n") {
      assert (l + "\n")[k..][..1][0] == l[k..][..1][0] == l[k] && l[k] in l;
    }
    assert !HasPrefix(l[|l|..], "\n");
  }

  lemma LinesBack(lines: seq<string>)
    requires lines != [] && forall l | l in lines :: OneLine(l)
    ensures Split(Join(lines, "\n"), "\n") == lines
  {
    forall i | 0 <= i < |lines| ensures Clear(lines[i], "\n") && !Contains(lines[i], "\n") {
      OneLineClear(lines[i]);
    }
    SplitJoin(lines, "\n");
  }

  // Every piece between newlines is free of newlines.
  lemma {:induction false} SplitOneLine(s: string)
    ensures forall l | l in Split(s, "\n") :: OneLine(l)
  {
    if HasPrefix(s, "\n") {
      SplitOneLine(s[1..]);
    } else if s != [] {
      SplitOneLine(s[1..]);
      var r := Split(s[1..], "\n");
      assert OneLine(r[0]);
      assert s[..1] == [s[0]];
    }
  }

  lemma TrimKeepsChars(s: string)
    ensures forall c | c in TrimSpace(s) :: c in s
  {
    TrimLeftLength(s);
    TrimRightLength(TrimLeft(s));
  }

  lemma TrimTagged(tag: string, v: string)
    requires tag != [] && !IsSpace(tag[0]) && !IsSpace(tag[|tag| - 1])
    ensures TrimSpace(tag + v) == tag + v <==> NoTrail(v)
  {
    TrimFixed(tag + v);
  }

  // ---- ParseHardwareOutput ----

  // One trimmed line.
  function Note(hw: HardwareInfo, line: string): HardwareInfo {
    if HasPrefix(line, "MAC=") then hw.(primaryMAC := line[4..])
    else if HasPrefix(line, "GATEWAY=") then hw.(gatewayIP := line[8..])
    else if HasPrefix(line, "DISK=") then hw.(disks := hw.disks + [line[5..]])
    else if HasPrefix(line, "CEPH=") then hw.(ceph := hw.ceph + {line[5..]})
    else if HasPrefix(line, "BYID=") then
      match Cut(line[5..])
        case None => hw
        case Some(q) => hw.(byID := hw.byID[q.0 := q.1])
    else hw
  }

  function NoteAll(hw: HardwareInfo, lines: seq<string>): HardwareInfo
    decreases |lines|
  {
    if lines == [] then hw else NoteAll(Note(hw, TrimSpace(lines[0])), lines[1..])
  }

  const NOTHING := HardwareInfo("", "", [], {}, map[])

  function Checked(hw: HardwareInfo): Result<HardwareInfo> {
    if hw.primaryMAC == "" then Err("MAC address not found")
    else if hw.gatewayIP == "" then Err("gateway IP not found")
    else Ok(hw)
  }

  function Parse(output: string): Result<HardwareInfo> { Checked(NoteAll(NOTHING, Split(output, "\n"))) }

  // Whatever the output, no machine is installed without a MAC address and a gateway.
  method ParseHardwareOutput(output: string) returns (r: Result<HardwareInfo>)
    ensures r == Parse(output)
    ensures r.Ok? ==> r.value.primaryMAC != "" && r.value.gatewayIP != ""
  {
    hide Split, TrimSpace;
    var mac, gateway := "", "";
    var disks: seq<string>, ceph: set<string>, byID: map<string, string> := [], {}, map[];
    var lines := Split(output, "\n");
    assert lines[0..] == lines;
    for i := 0 to |lines|
      invariant NoteAll(HardwareInfo(mac, gateway, disks, ceph, byID), lines[i..]) == NoteAll(NOTHING, lines)
    {
      ghost var was := HardwareInfo(mac, gateway, disks, ceph, byID);
      assert lines[i..][0] == lines[i] && lines[i..][1..] == lines[i + 1..];
      var line := TrimSpace(lines[i]);
      if line == "" {
        continue;
      }
      if HasPrefix(line, "MAC=") {
        mac := TrimPrefix(line, "MAC=");
      } else if HasPrefix(line, "GATEWAY=") {
        gateway := TrimPrefix(line, "GATEWAY=");
      } else if HasPrefix(line, "DISK=") {
        disks := disks + [TrimPrefix(line, "DISK=")];
      } else if HasPrefix(line, "CEPH=") {
        ceph := ceph + {TrimPrefix(line, "CEPH=")};
      } else if HasPrefix(line, "BYID=") {
        var parts := Cut(TrimPrefix(line, "BYID="));
        if parts.Some? {
          byID := byID[parts.value.0 := parts.value.1];
        }
      }
      assert HardwareInfo(mac, gateway, disks, ceph, byID) == Note(was, line);
    }
    if mac == "" {
      return Err("MAC address not found");
    }
    if gateway == "" {
      return Err("gateway IP not found");
    }
    return Ok(HardwareInfo(mac, gateway, disks, ceph, byID));
  }

  // ---- What the detection script prints, and that parsing undoes it ----

  datatype DiskReport = DiskReport(device: string, ceph: bool)
  datatype Link = Link(target: string, path: string)
  datatype Report = Report(mac: string, gateway: string, disks: seq<DiskReport>, links: seq<Link>)

  function DiskLines(disks: seq<DiskReport>): seq<string> {
    if disks == [] then []
    else ["DISK=" + disks[0].device] + (if disks[0].ceph then ["CEPH=" + disks[0].device] else [])
         + DiskLines(disks[1..])
  }

  function LinkLines(links: seq<Link>): seq<string> {
    if links == [] then [] else ["BYID=" + links[0].target + "=" + links[0].path] + LinkLines(links[1..])
  }

  function ReportLines(r: Report): seq<string> {
    ["MAC=" + r.mac, "GATEWAY=" + r.gateway] + DiskLines(r.disks) + LinkLines(r.links)
  }

  // echo ends every line.
  function Render(r: Report): string { Join(ReportLines(r) + [""], "\n") }

  function Devices(disks: seq<DiskReport>): seq<string> {
    if disks == [] then [] else [disks[0].device] + Devices(disks[1..])
  }

  function CephDevices(disks: seq<DiskReport>): set<string> {
    if disks == [] then {}
    else (if disks[0].ceph then {disks[0].device} else {}) + CephDevices(disks[1..])
  }

  // Several links to one disk: the last one counts.
  function ByID(acc: map<string, string>, links: seq<Link>): map<string, string>
    decreases |links|
  {
    if links == [] then acc else ByID(acc[links[0].target := links[0].path], links[1..])
  }

  function InfoOf(r: Report): HardwareInfo {
    HardwareInfo(r.mac, r.gateway, Devices(r.disks), CephDevices(r.disks), ByID(map[], r.links))
  }

  predicate Value(s: string) { OneLine(s) && NoTrail(s) }

  // Values the script can print on one line; a device name holds no '='.
  predicate Printable(r: Report) {
    && Value(r.mac) && Value(r.gateway)
    && (forall d | d in r.disks :: Value(d.device))
    && (forall l | l in r.links :: OneLine(l.target) && '=' !in l.target && Value(l.path))
  }

  lemma NoteOne(hw: HardwareInfo, line: string, rest: seq<string>)
    requires TrimSpace(line) == line
    ensures NoteAll(hw, [line] + rest) == NoteAll(Note(hw, line), rest)
  {
    assert ([line] + rest)[1..] == rest;
  }

  lemma NoteDevice(hw: HardwareInfo, d: string)
    ensures Note(hw, "DISK=" + d) == hw.(disks := hw.disks + [d])
    ensures Note(hw, "CEPH=" + d) == hw.(ceph := hw.ceph + {d})
  {
    var disk, ceph := "DISK=" + d, "CEPH=" + d;
    assert disk[0] == 'D' && disk[..5] == "DISK=" && disk[5..] == d;
    assert ceph[0] == 'C' && ceph[..5] == "CEPH=" && ceph[5..] == d;
  }

  lemma NoteLink(hw: HardwareInfo, l: Link)
    requires '=' !in l.target
    ensures Note(hw, "BYID=" + l.target + "=" + l.path) == hw.(byID := hw.byID[l.target := l.path])
  {
    var line := "BYID=" + l.target + "=" + l.path;
    assert line[0] == 'B' && line[..5] == "BYID=" && line[5..] == l.target + "=" + l.path;
    CutAt(l.target, l.path);
  }

  lemma {:induction false} NoteDisks(hw: HardwareInfo, disks: seq<DiskReport>, more: seq<string>)
    requires forall d | d in disks :: Value(d.device)
    ensures NoteAll(hw, DiskLines(disks) + more) ==
            NoteAll(hw.(disks := hw.disks + Devices(disks), ceph := hw.ceph + CephDevices(disks)), more)
    decreases |disks|
  {
    hide TrimSpace, Note, NoteAll;
    if disks == [] {
      assert DiskLines(disks) + more == more;
      assert hw.disks + [] == hw.disks && hw.ceph + {} == hw.ceph;
    } else {
      var d := disks[0].device;
      assert Value(disks[0].device);
      TrimTagged("DISK=", d);
      TrimTagged("CEPH=", d);
      var hw1 := hw.(disks := hw.disks + [d]);
      NoteDevice(hw, d);
      NoteDevice(hw1, d);
      var rest := DiskLines(disks[1..]) + more;
      var hw2 := if disks[0].ceph then hw1.(ceph := hw1.ceph + {d}) else hw1;
      if disks[0].ceph {
        assert DiskLines(disks) + more == ["DISK=" + d] + (["CEPH=" + d] + rest);
        NoteOne(hw, "DISK=" + d, ["CEPH=" + d] + rest);
        NoteOne(hw1, "CEPH=" + d, rest);
      } else {
        assert DiskLines(disks) + more == ["DISK=" + d] + rest;
        NoteOne(hw, "DISK=" + d, rest);
      }
      NoteDisks(hw2, disks[1..], more);
      assert hw2.ceph + CephDevices(disks[1..]) == hw.ceph + CephDevices(disks);
      assert hw2.disks + Devices(disks[1..]) == hw.disks + Devices(disks);
    }
  }

  lemma {:induction false} NoteLinks(hw: HardwareInfo, links: seq<Link>, more: seq<string>)
    requires forall l | l in links :: OneLine(l.target) && '=' !in l.target && Value(l.path)
    ensures NoteAll(hw, LinkLines(links) + more) == NoteAll(hw.(byID := ByID(hw.byID, links)), more)
    decreases |links|
  {
    hide TrimSpace, Note, NoteAll;
    if links == [] {
      assert LinkLines(links) + more == more;
    } else {
      var l := links[0];
      assert OneLine(l.target) && Value(l.path);
      var line := "BYID=" + l.target + "=" + l.path;
      TrimLink(l);
      NoteLink(hw, l);
      assert LinkLines(links) + more == [line] + (LinkLines(links[1..]) + more);
      NoteOne(hw, line, LinkLines(links[1..]) + more);
      NoteLinks(hw.(byID := hw.byID[l.target := l.path]), links[1..], more);
    }
  }

  lemma TrimLink(l: Link)
    requires NoTrail(l.path)
    ensures TrimSpace("BYID=" + l.target + "=" + l.path) == "BYID=" + l.target + "=" + l.path
  {
    TrimTagged("BYID=" + l.target + "=", l.path);
  }

  lemma {:induction false} ReportOneLine(r: Report)
    requires Printable(r)
    ensures forall l | l in ReportLines(r) :: OneLine(l)
    decreases |r.disks| + |r.links|
  {
    if r.disks != [] {
      assert Value(r.disks[0].device);
      ReportOneLine(r.(disks := r.disks[1..]));
      forall l | l in ReportLines(r) ensures OneLine(l) {
        assert l in ReportLines(r.(disks := r.disks[1..])) || l == "DISK=" + r.disks[0].device || l == "CEPH=" + r.disks[0].device;
      }
    } else if r.links != [] {
      assert Value(r.links[0].path);
      ReportOneLine(r.(links := r.links[1..]));
      forall l | l in ReportLines(r) ensures OneLine(l) {
        assert l in ReportLines(r.(links := r.links[1..])) || l == "BYID=" + r.links[0].target + "=" + r.links[0].path;
      }
    } else {
      assert ReportLines(r) == ["MAC=" + r.mac, "GATEWAY=" + r.gateway];
    }
  }

  // Parsing recovers the report, or says which of the two required values is missing.
  lemma ParseUndoesRender(r: Report)
    requires Printable(r)
    ensures Parse(Render(r)) == Checked(InfoOf(r))
  {
    hide TrimSpace, Split, Note, NoteAll;
    var m, g := "MAC=" + r.mac, "GATEWAY=" + r.gateway;
    var tail := LinkLines(r.links) + [""];
    var hw1 := NOTHING.(primaryMAC := r.mac);
    var hw2 := hw1.(gatewayIP := r.gateway);
    var hw3 := hw2.(disks := [] + Devices(r.disks), ceph := {} + CephDevices(r.disks));
    var lines := ReportLines(r) + [""];
    assert lines == [m] + ([g] + (DiskLines(r.disks) + tail));
    TrimTagged("MAC=", r.mac);
    TrimTagged("GATEWAY=", r.gateway);
    NoteHead(NOTHING, r.mac);
    NoteHead(hw1, r.gateway);
    NoteOne(NOTHING, m, [g] + (DiskLines(r.disks) + tail));
    NoteOne(hw1, g, DiskLines(r.disks) + tail);
    NoteDisks(hw2, r.disks, tail);
    NoteLinks(hw3, r.links, [""]);
    assert hw3.(byID := ByID(hw3.byID, r.links)) == InfoOf(r);
    NoteBlank(InfoOf(r));
    ReportOneLine(r);
    LinesBack(lines);
  }

  lemma NoteHead(hw: HardwareInfo, v: string)
    ensures Note(hw, "MAC=" + v) == hw.(primaryMAC := v)
    ensures Note(hw, "GATEWAY=" + v) == hw.(gatewayIP := v)
  {
    var m, g := "MAC=" + v, "GATEWAY=" + v;
    assert m[..4] == "MAC=" && m[4..] == v;
    assert g[0] == 'G' && g[..8] == "GATEWAY=" && g[8..] == v;
  }

  lemma NoteBlank(hw: HardwareInfo)
    ensures NoteAll(hw, [""]) == hw
  {
    assert TrimSpace("") == "";
    assert NoteAll(hw, [""]) == NoteAll(Note(hw, ""), [""][1..]);
  }

  // ---- ResolveInstallDiskFromInfo ----

  // The disks without Ceph data, in the reported order.
  function Free(disks: seq<string>, ceph: set<string>): seq<string> {
    if disks == [] then []
    else
      var d := disks[|disks| - 1];
      Free(disks[..|disks| - 1], ceph) + (if d in ceph then [] else [d])
  }

  function Resolve(hw: HardwareInfo, configured: string): Result<string> {
    var safes := Free(hw.disks, hw.ceph);
    if safes == [] then
      if hw.disks == [] || configured != "" then Ok(configured)
      else Err("all NVMe disks have Ceph BlueStore data")
    else Ok(if configured in safes then configured else safes[0])
  }

  method ResolveInstallDisk(hw: HardwareInfo, configured: string) returns (r: Result<string>)
    ensures r == Resolve(hw, configured)
  {
    var safes: seq<string> := [];
    for i := 0 to |hw.disks|
      invariant safes == Free(hw.disks[..i], hw.ceph)
    {
      assert hw.disks[..i + 1][..i] == hw.disks[..i];
      if hw.disks[i] !in hw.ceph {
        safes := safes + [hw.disks[i]];
      }
    }
    assert hw.disks[..|hw.disks|] == hw.disks;
    if |safes| == 0 {
      if |hw.disks| == 0 {
        return Ok(configured);
      }
      if configured != "" {
        return Ok(configured);
      }
      return Err("all NVMe disks have Ceph BlueStore data");
    }
    for i := 0 to |safes|
      invariant configured !in safes[..i]
    {
      if safes[i] == configured {
        return Ok(configured);
      }
    }
    return Ok(safes[0]);
  }

  lemma {:induction false} FreeMembers(disks: seq<string>, ceph: set<string>)
    ensures forall d :: d in Free(disks, ceph) <==> d in disks && d !in ceph
    ensures Free(disks, ceph) != [] ==>
              exists i | 0 <= i < |disks| ::
                disks[i] == Free(disks, ceph)[0] && forall j | 0 <= j < i :: disks[j] in ceph
  {
    if disks != [] {
      var front := disks[..|disks| - 1];
      FreeMembers(front, ceph);
      assert disks == front + [disks[|disks| - 1]];
      if Free(front, ceph) != [] {
        var i :| 0 <= i < |front| && front[i] == Free(front, ceph)[0] && forall j | 0 <= j < i :: front[j] in ceph;
        assert disks[i] == Free(disks, ceph)[0] && forall j | 0 <= j < i :: disks[j] == front[j];
      } else if Free(disks, ceph) != [] {
        forall j | 0 <= j < |front| ensures disks[j] in ceph {
          assert front[j] in front;
        }
      }
    }
  }

  // With a disk free of Ceph data the choice is such a disk: the configured one if it is among
  // them, else the first reported. Without one the configured disk is trusted, and only its
  // absence is an error.
  lemma ResolveMeaning(hw: HardwareInfo, configured: string)
    ensures var r := Resolve(hw, configured); var safe := d => d in hw.disks && d !in hw.ceph;
            && ((exists d :: safe(d)) ==>
                  && r.Ok? && safe(r.value)
                  && (safe(configured) ==> r.value == configured)
                  && (!safe(configured) ==>
                        exists i | 0 <= i < |hw.disks| ::
                          hw.disks[i] == r.value && forall j | 0 <= j < i :: hw.disks[j] in hw.ceph))
            && ((forall d :: !safe(d)) ==>
                  (r.Ok? <==> hw.disks == [] || configured != "") && (r.Ok? ==> r.value == configured))
  {
    FreeMembers(hw.disks, hw.ceph);
    var safes := Free(hw.disks, hw.ceph);
    assert safes != [] ==> safes[0] in safes;
  }

  // ---- WipeAllDisks: the confirmation ----

  predicate Confirmed(output: string, disk: string) {
    exists l | l in Split(output, "\n") :: TrimSpace(l) == "WIPED=" + disk
  }

  // run is the script's output, or the error of running it.
  method WipeAllDisks(disks: seq<string>, run: Result<string>) returns (r: Result<string>)
    ensures r.Ok? <==> disks != [] && run.Ok? && forall d | d in disks :: Confirmed(run.value, d)
    ensures r.Ok? ==> r == run
  {
    hide Split, TrimSpace;
    if |disks| == 0 {
      return Err("no disks specified");
    }
    if run.Err? {
      return run;
    }
    var wiped: set<string> := {};
    var lines := Split(run.value, "\n");
    for i := 0 to |lines|
      invariant forall d :: d in wiped <==> exists j | 0 <= j < i :: TrimSpace(lines[j]) == "WIPED=" + d
    {
      var line := TrimSpace(lines[i]);
      ghost var was := wiped;
      if HasPrefix(line, "WIPED=") {
        wiped := wiped + {TrimPrefix(line, "WIPED=")};
        assert line == "WIPED=" + TrimPrefix(line, "WIPED=");
      }
      forall d ensures TrimSpace(lines[i]) == "WIPED=" + d <==> HasPrefix(line, "WIPED=") && d == TrimPrefix(line, "WIPED=") {
        if line == "WIPED=" + d {
          assert line[..6] == "WIPED=" && line[6..] == d;
        }
      }
    }
    forall d ensures d in wiped <==> Confirmed(run.value, d) {
      if d in wiped {
        var j :| 0 <= j < |lines| && TrimSpace(lines[j]) == "WIPED=" + d;
        assert lines[j] in lines;
      }
      if Confirmed(run.value, d) {
        var l :| l in lines && TrimSpace(l) == "WIPED=" + d;
        var j :| 0 <= j < |lines| && lines[j] == l;
      }
    }
    var missing: seq<string> := [];
    for i := 0 to |disks|
      invariant missing == [] <==> forall j | 0 <= j < i :: disks[j] in wiped
    {
      if disks[i] !in wiped {
        missing := missing + [disks[i]];
      }
    }
    if |missing| > 0 {
      return Err("disk(s) not confirmed wiped");
    }
    return run;
  }

  // The lines the script prints when every wipe ends, in whatever order they do.
  function WipedLines(order: seq<string>): (r: seq<string>)
    ensures |r| == |order| && forall i | 0 <= i < |r| :: r[i] == "WIPED=" + order[i]
  {
    seq(|order|, i requires 0 <= i < |order| => "WIPED=" + order[i])
  }

  // A disk that reported is confirmed, unless its name breaks the line or ends in white space;
  // such a name is never confirmed, whatever the script prints.
  lemma ConfirmedExactly(order: seq<string>, disk: string)
    requires forall d | d in order :: OneLine(d)
    ensures Confirmed(Join(WipedLines(order) + ["ALL_DONE", ""], "\n"), disk)
            <==> (exists d | d in order :: TrimSpace("WIPED=" + d) == "WIPED=" + disk)
    ensures disk in order && NoTrail(disk) ==> Confirmed(Join(WipedLines(order) + ["ALL_DONE", ""], "\n"), disk)
  {
    hide Split;
    var lines := WipedLines(order) + ["ALL_DONE", ""];
    forall l | l in lines ensures OneLine(l) {
      var i :| 0 <= i < |lines| && lines[i] == l;
      if i < |order| {
        assert order[i] in order && l == "WIPED=" + order[i];
      }
    }
    LinesBack(lines);
    TrimTagged("WIPED=", disk);
    assert TrimSpace("") == "" && TrimSpace("ALL_DONE") == "ALL_DONE" by {
      TrimFixed("");
      TrimFixed("ALL_DONE");
    }
    assert ("WIPED=" + disk)[0] == 'W' && "ALL_DONE"[0] == 'A';
    if exists l | l in lines :: TrimSpace(l) == "WIPED=" + disk {
      var l :| l in lines && TrimSpace(l) == "WIPED=" + disk;
      var i :| 0 <= i < |lines| && lines[i] == l;
      assert i < |order| && order[i] in order;
    }
    forall d | d in order ensures "WIPED=" + d in lines {
      var i :| 0 <= i < |order| && order[i] == d;
      assert lines[i] == WipedLines(order)[i];
    }
  }

  lemma NeverConfirmed(output: string, disk: string)
    requires !OneLine(disk) || !NoTrail(disk)
    ensures !Confirmed(output, disk)
  {
    hide Split;
    forall l | l in Split(output, "\n") ensures TrimSpace(l) != "WIPED=" + disk {
      SplitOneLine(output);
      TrimKeepsChars(l);
      TrimFixed(l);
      var w := "WIPED=" + disk;
      assert !OneLine(disk) ==> '\n' in w;
      assert !NoTrail(disk) ==> w[|w| - 1] == disk[|disk| - 1];
    }
  }

  // When every wipe reports, the wipe is accepted if and only if no name ends in white space.
  lemma AllConfirmedExactly(disks: seq<string>, order: seq<string>)
    requires forall d | d in order :: OneLine(d)
    requires forall d | d in disks :: d in order
    ensures (forall d | d in disks :: Confirmed(Join(WipedLines(order) + ["ALL_DONE", ""], "\n"), d))
            <==> forall d | d in disks :: NoTrail(d)
  {
    hide Confirmed, TrimSpace;
    forall d | d in disks
      ensures Confirmed(Join(WipedLines(order) + ["ALL_DONE", ""], "\n"), d) <==> NoTrail(d)
    {
      ConfirmedExactly(order, d);
      if !NoTrail(d) {
        NeverConfirmed(Join(WipedLines(order) + ["ALL_DONE", ""], "\n"), d);
      }
    }
  }
}
