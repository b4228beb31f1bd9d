// The syntax of systemd's unit and network files: sections of key=value lines. Blank lines and
// comments are skipped, white space around keys and values is dropped, and an assignment outside
// any section, or a line that is neither, is ignored. A line that continues on the next one is
// outside of this reader.
module UnitFile {
  import opened Common
  import opened Text

  datatype Section = Section(name: string, settings: seq<(string, string)>)

  // The first line, and what follows its newline.
  function FirstLine(s: string): (r: (string, string))
    ensures |r.1| < |s| || s == []
    ensures |r.1| <= |s|
  {
    if s == [] then ([], [])
    else if s[0] == '\n' then ([], s[1..])
    else
      var (line, rest) := FirstLine(s[1..]);
      ([s[0]] + line, rest)
  }

  function Take(sections: seq<Section>, line: string): seq<Section> {
    var t := TrimSpace(line);
    if t == [] || t[0] == '#' || t[0] == ';' then sections
    else if t[0] == '[' && t[|t| - 1] == ']' && |t| >= 2 then sections + [Section(t[1..|t| - 1], [])]
    else match Cut(t)
      case None => sections
      case Some(q) =>
        if sections == [] then sections
        else
          var last := sections[|sections| - 1];
          sections[..|sections| - 1] + [last.(settings := last.settings + [(TrimSpace(q.0), TrimSpace(q.1))])]
  }

  predicate Continues(line: string) { line != [] && line[|line| - 1] == '\\' }

  function ReadOn(s: string, sections: seq<Section>): Option<seq<Section>>
    decreases |s|
  {
    if s == [] then Some(sections)
    else
      var (line, rest) := FirstLine(s);
      if Continues(line) then None else ReadOn(rest, Take(sections, line))
  }

  function Read(s: string): Option<seq<Section>> { ReadOn(s, []) }

  // The variable a double-quoted Environment= value sets. Escapes and specifiers are outside of
  // this reader.
  function Variable(value: string): Option<(string, string)> {
    if |value| < 2 || value[0] != '"' || value[|value| - 1] != '"' then None
    else
      var inner := value[1..|value| - 1];
      if '"' in inner || '\\' in inner || '%' in inner then None else Cut(inner)
  }

  // ---- Reading what was printed ----

  predicate OneLine(s: string) { '\n' !in s }

  lemma {:induction false} FirstLineOf(line: string, rest: string)
    requires OneLine(line)
    ensures FirstLine(line + "\n" + rest) == (line, rest)
  {
    var s := line + "\n" + rest;
    if line == [] {
      assert s[1..] == rest;
    } else {
      assert s[1..] == line[1..] + "\n" + rest;
      FirstLineOf(line[1..], rest);
      assert [line[0]] + line[1..] == line;
    }
  }

  lemma ReadLine(line: string, rest: string, sections: seq<Section>)
    requires OneLine(line) && !Continues(line)
    ensures ReadOn(line + "\n" + rest, sections) == ReadOn(rest, Take(sections, line))
  {
    FirstLineOf(line, rest);
  }

  // A key=value line, as the printers write it.
  predicate Printable(setting: (string, string)) {
    && OneLine(setting.0) && setting.0 != [] && Trimmed(setting.0) && '=' !in setting.0
    && setting.0[0] != '#' && setting.0[0] != ';' && setting.0[0] != '['
    && OneLine(setting.1) && !Continues(setting.1)
  }

  function Assignment(setting: (string, string)): string { setting.0 + "=" + setting.1 }

  function ReadBack(setting: (string, string)): (string, string) { (setting.0, TrimSpace(setting.1)) }

  lemma AssignmentLine(setting: (string, string))
    requires Printable(setting)
    ensures OneLine(Assignment(setting)) && !Continues(Assignment(setting))
  {
    var line := Assignment(setting);
    assert line[|line| - 1] == if setting.1 == [] then '=' else setting.1[|setting.1| - 1];
  }

  lemma TakeAssignment(sections: seq<Section>, name: string, settings: seq<(string, string)>, setting: (string, string))
    requires Printable(setting)
    ensures Take(sections + [Section(name, settings)], Assignment(setting))
            == sections + [Section(name, settings + [ReadBack(setting)])]
  {
    TrimAssignment(setting.0, setting.1);
    var t := TrimSpace(Assignment(setting));
    var v := TrimRight(setting.1);
    CutAt(setting.0, v);
    TrimBoth(setting.1);
    TrimFixed(setting.0);
    assert t[0] == setting.0[0];
    var all := sections + [Section(name, settings)];
    assert all[..|all| - 1] == sections;
    hide TrimSpace, TrimRight, Cut;
  }

  // Trimming a line trims the end of its value.
  lemma TrimAssignment(key: string, value: string)
    requires key != [] && Trimmed(key)
    ensures TrimSpace(key + "=" + value) == key + "=" + TrimRight(value)
  {
    var s := key + "=" + value;
    assert TrimLeft(s) == s;
    TrimRightAfter(key + "=", value);
  }

  lemma {:induction false} TrimRightAfter(a: string, b: string)
    requires a != [] && !IsSpace(a[|a| - 1])
    ensures TrimRight(a + b) == a + TrimRight(b)
  {
    if b == [] {
      assert a + b == a;
    } else if IsSpace(b[|b| - 1]) {
      assert (a + b)[..|a + b| - 1] == a + b[..|b| - 1];
      TrimRightAfter(a, b[..|b| - 1]);
    }
  }

  // Trimming the right end first makes no difference.
  lemma {:induction false} TrimBoth(s: string)
    ensures TrimSpace(TrimRight(s)) == TrimSpace(s)
    decreases |s|
  {
    if s != [] && IsSpace(s[|s| - 1]) {
      var front := s[..|s| - 1];
      TrimBoth(front);
      TrimEnd(front, s[|s| - 1]);
      assert front + [s[|s| - 1]] == s;
    }
  }

  lemma {:induction false} TrimEnd(s: string, c: char)
    requires IsSpace(c)
    ensures TrimSpace(s + [c]) == TrimSpace(s)
    decreases |s|
  {
    if s == [] {
      assert s + [c] == [c] && [c][1..] == [];
    } else if IsSpace(s[0]) {
      assert (s + [c])[1..] == s[1..] + [c];
      TrimEnd(s[1..], c);
    } else {
      assert (s + [c])[..|s|] == s;
    }
  }

  // A section as the printers write it: its name in brackets, then its settings.
  function Lines(settings: seq<(string, string)>): string {
    if settings == [] then [] else Assignment(settings[0]) + "\n" + Lines(settings[1..])
  }

  function Block(name: string, settings: seq<(string, string)>): string { "[" + name + "]\n" + Lines(settings) }

  function AllBack(settings: seq<(string, string)>): (r: seq<(string, string)>)
    ensures |r| == |settings| && forall i | 0 <= i < |r| :: r[i] == ReadBack(settings[i])
  {
    seq(|settings|, i requires 0 <= i < |settings| => ReadBack(settings[i]))
  }

  lemma {:induction false} ReadLines(
    settings: seq<(string, string)>, rest: string, sections: seq<Section>, name: string, sofar: seq<(string, string)>)
    requires forall s | s in settings :: Printable(s)
    ensures ReadOn(Lines(settings) + rest, sections + [Section(name, sofar)])
            == ReadOn(rest, sections + [Section(name, sofar + AllBack(settings))])
    decreases |settings|
  {
    if settings == [] {
      assert Lines(settings) + rest == rest && sofar + AllBack(settings) == sofar;
    } else {
      var line, more := Assignment(settings[0]), settings[1..];
      assert Lines(settings) + rest == line + "\n" + (Lines(more) + rest);
      AssignmentLine(settings[0]);
      hide ReadOn, Take, Printable, Lines, Assignment;
      ReadLine(line, Lines(more) + rest, sections + [Section(name, sofar)]);
      TakeAssignment(sections, name, sofar, settings[0]);
      ReadLines(more, rest, sections, name, sofar + [ReadBack(settings[0])]);
      assert sofar + [ReadBack(settings[0])] + AllBack(more) == sofar + AllBack(settings);
    }
  }

  lemma TakeHeader(name: string, sections: seq<Section>)
    requires OneLine(name) && name != []
    ensures var line := "[" + name + "]";
            OneLine(line) && !Continues(line) && Take(sections, line) == sections + [Section(name, [])]
  {
    var line := "[" + name + "]";
    assert line[|line| - 1] == ']' && line[1..|line| - 1] == name;
    TrimFixed(line);
    hide TrimSpace;
  }

  lemma ReadBlock(name: string, settings: seq<(string, string)>, rest: string, sections: seq<Section>)
    requires OneLine(name) && name != [] && forall s | s in settings :: Printable(s)
    ensures ReadOn(Block(name, settings) + rest, sections)
            == ReadOn(rest, sections + [Section(name, AllBack(settings))])
  {
    hide ReadOn, Take, Lines, Printable;
    var line := "[" + name + "]";
    assert Block(name, settings) + rest == line + "\n" + (Lines(settings) + rest);
    TakeHeader(name, sections);
    ReadLine(line, Lines(settings) + rest, sections);
    ReadLines(settings, rest, sections, name, []);
    assert [] + AllBack(settings) == AllBack(settings);
  }

  lemma ReadBlank(rest: string, sections: seq<Section>)
    ensures ReadOn("\n" + rest, sections) == ReadOn(rest, sections)
  {
    ReadLine("", rest, sections);
    assert "" + "\n" + rest == "\n" + rest;
  }
}
