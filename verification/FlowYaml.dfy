// A YAML library in miniature: trees written in flow style on one line, and read back. It meets
// everything the config pipeline assumes of the library.
module FlowYaml {
  import opened Common
  import opened Documents
  import opened Tree
  import ProviderIds
  import Text

  // ---- Writing ----

  function Escape(s: string): string {
    if s == [] then []
    else (match s[0] case '\\' => "\\\\" case '"' => "\\\"" case '\n' => "\\n" case c => [c]) + Escape(s[1..])
  }

  function Quote(s: string): string { "\"" + Escape(s) + "\"" }

  ghost function Pick(keys: set<string>): (k: string)
    requires keys != {}
    ensures k in keys
  {
    var k :| k in keys;
    k
  }

  ghost function Show(n: Node): string
    decreases n, 1
  {
    match n
    case Map(m) => "{" + ShowEntries(n, m.Keys) + "}"
    case List(items) => "[" + ShowItems(n, 0) + "]"
    case Str(text) => Quote(text)
    case Int(number) => ProviderIds.FormatInt(number)
    case Bool(value) => if value then "true" else "false"
    case _ => "null"
  }

  ghost function ShowEntries(n: Node, keys: set<string>): string
    requires n.Map? && keys <= n.entries.Keys
    decreases n, 0, |keys|
  {
    if keys == {} then []
    else
      var k := Pick(keys);
      Quote(k) + ":" + Show(n.entries[k]) + "," + ShowEntries(n, keys - {k})
  }

  ghost function ShowItems(n: Node, i: nat): string
    requires n.List? && i <= |n.items|
    decreases n, 0, |n.items| - i
  {
    if i == |n.items| then [] else Show(n.items[i]) + "," + ShowItems(n, i + 1)
  }

  // ---- Reading ----

  // The text up to the closing quote, and what follows.
  function ReadString(s: string): (r: Option<(string, string)>)
    ensures r.Some? ==> |r.value.1| < |s|
  {
    if s == [] then None
    else if s[0] == '"' then Some(([], s[1..]))
    else if s[0] == '\\' then
      if |s| == 1 then None
      else match ReadString(s[2..])
        case None => None
        case Some(q) => Some(([if s[1] == 'n' then '\n' else s[1]] + q.0, q.1))
    else match ReadString(s[1..])
      case None => None
      case Some(q) => Some(([s[0]] + q.0, q.1))
  }

  predicate Numeric(c: char) { ProviderIds.IsDigit(c) || c == '-' }

  function NumberText(s: string): (r: string)
    ensures r <= s
  {
    if s == [] || !Numeric(s[0]) then [] else [s[0]] + NumberText(s[1..])
  }

  function Read(s: string): (r: Option<(Node, string)>)
    ensures r.Some? ==> |r.value.1| < |s|
    decreases |s|, 0
  {
    if s == [] then None
    else match s[0]
      case '{' => ReadEntries(s[1..], map[])
      case '[' => ReadItems(s[1..], [])
      case '"' =>
        (match ReadString(s[1..])
         case None => None
         case Some(q) => Some((Str(q.0), q.1)))
      case _ =>
        if HasPrefix(s, "true") then Some((Bool(true), s[4..]))
        else if HasPrefix(s, "false") then Some((Bool(false), s[5..]))
        else if HasPrefix(s, "null") then Some((Null, s[4..]))
        else
          var t := NumberText(s);
          match ProviderIds.Atoi(t)
          case None => None
          case Some(number) => Some((Int(number), s[|t|..]))
  }

  function ReadEntries(s: string, entries: map<string, Node>): (r: Option<(Node, string)>)
    ensures r.Some? ==> |r.value.1| < |s|
    decreases |s|, 1
  {
    if s == [] then None
    else if s[0] == '}' then Some((Map(entries), s[1..]))
    else if s[0] != '"' then None
    else match ReadString(s[1..])
      case None => None
      case Some(q) =>
        if !HasPrefix(q.1, ":") then None
        else match Read(q.1[1..])
          case None => None
          case Some(v) =>
            if !HasPrefix(v.1, ",") then None else ReadEntries(v.1[1..], entries[q.0 := v.0])
  }

  function ReadItems(s: string, items: seq<Node>): (r: Option<(Node, string)>)
    ensures r.Some? ==> |r.value.1| < |s|
    decreases |s|, 1
  {
    if s == [] then None
    else if s[0] == ']' then Some((List(items), s[1..]))
    else match Read(s)
      case None => None
      case Some(v) =>
        if !HasPrefix(v.1, ",") then None else ReadItems(v.1[1..], items + [v.0])
  }

  function Decode(t: string): (r: Result<Node>)
    ensures r.Ok? ==> r.value.Map?
  {
    match Read(t)
    case Some((Map(m), "")) => Ok(Map(m))
    case _ => Err("no flow mapping")
  }

  // ---- Reading undoes writing ----

  lemma {:induction false} StringBack(s: string, rest: string)
    ensures ReadString(Escape(s) + "\"" + rest) == Some((s, rest))
  {
    var t := Escape(s) + "\"" + rest;
    if s == [] {
      assert t == "\"" + rest && t[1..] == rest;
    } else {
      StringBack(s[1..], rest);
      var more := Escape(s[1..]) + "\"" + rest;
      if s[0] == '\\' || s[0] == '"' || s[0] == '\n' {
        assert t == ['\\', if s[0] == '\n' then 'n' else s[0]] + more;
        assert t[2..] == more;
      } else {
        assert t == [s[0]] + more && t[1..] == more;
      }
      assert [s[0]] + s[1..] == s;
    }
  }

  lemma {:induction false} NumberBack(t: string, rest: string)
    requires forall c | c in t :: Numeric(c)
    requires rest == [] || !Numeric(rest[0])
    ensures NumberText(t + rest) == t
  {
    if t == [] {
      assert t + rest == rest;
    } else {
      assert (t + rest)[1..] == t[1..] + rest;
      NumberBack(t[1..], rest);
    }
  }

  predicate InRange(number: int) { -ProviderIds.MAX_INT - 1 <= number <= ProviderIds.MAX_INT }

  lemma IntegerBack(number: int)
    requires InRange(number)
    ensures var t := ProviderIds.FormatInt(number);
            && ProviderIds.Atoi(t) == Some(number) && t != [] && forall c | c in t :: Numeric(c)
  {
    var t := ProviderIds.FormatInt(number);
    if number < 0 {
      ProviderIds.ParseDecimal(-number);
      assert t[1..] == ProviderIds.Decimal(-number);
    } else {
      ProviderIds.ParseDecimal(number);
      assert ProviderIds.IsDigit(t[0]);
    }
  }

  predicate Follows(rest: string) { rest == [] || !Numeric(rest[0]) }

  lemma {:induction false} ReadShow(n: Node, rest: string)
    requires Encodable(n) && Follows(rest)
    ensures Read(Show(n) + rest) == Some((n, rest))
    ensures Show(n) != [] && Show(n)[0] != ']'
    decreases n, 1
  {
    hide ReadEntries, ReadItems, ReadString, NumberText, ProviderIds.Atoi, ProviderIds.FormatInt, Escape;
    var s := Show(n) + rest;
    match n {
      case Map(m) =>
        assert s[1..] == ShowEntries(n, m.Keys) + "}" + rest;
        EntriesBack(n, m.Keys, map[], rest);
        assert (map[] + Restricted(n, m.Keys)) == m;
      case List(items) =>
        assert s[1..] == ShowItems(n, 0) + "]" + rest;
        ItemsBack(n, 0, rest);
        assert items[..0] == [];
      case Str(text) =>
        assert s[1..] == Escape(text) + "\"" + rest;
        StringBack(text, rest);
      case Int(number) => IntBack(number, rest);
      case Bool(value) => WordBack(n, rest);
      case _ => WordBack(n, rest);
    }
  }

  lemma IntBack(number: int, rest: string)
    requires InRange(number) && Follows(rest)
    ensures Read(ProviderIds.FormatInt(number) + rest) == Some((Int(number), rest))
    ensures var t := ProviderIds.FormatInt(number); t != [] && t[0] != ']'
  {
    hide ProviderIds.FormatInt, ProviderIds.Atoi, NumberText, ReadEntries, ReadItems, ReadString;
    var t := ProviderIds.FormatInt(number);
    IntegerBack(number);
    NumberBack(t, rest);
    var s := t + rest;
    assert s[0] == t[0] && Numeric(t[0]) && s[|t|..] == rest;
    assert !HasPrefix(s, "true") && !HasPrefix(s, "false") && !HasPrefix(s, "null") by {
      assert "true"[0] == 't' && "false"[0] == 'f' && "null"[0] == 'n';
    }
    hide HasPrefix;
  }

  lemma WordBack(n: Node, rest: string)
    requires n.Bool? || n.Null?
    ensures Read(Show(n) + rest) == Some((n, rest))
  {
    var t := Show(n);
    var s := t + rest;
    assert s[..|t|] == t && s[|t|..] == rest && s[0] == t[0];
  }

  ghost function Restricted(n: Node, keys: set<string>): map<string, Node>
    requires n.Map? && keys <= n.entries.Keys
  {
    map k | k in keys :: n.entries[k]
  }

  lemma EntryBack(k: string, v: Node, shown: string, tail: string, entries: map<string, Node>)
    requires Read(shown + ("," + tail)) == Some((v, "," + tail))
    ensures ReadEntries(Quote(k) + (":" + shown + "," + tail), entries) == ReadEntries(tail, entries[k := v])
  {
    hide Read;
    var more := ":" + shown + "," + tail;
    var s := Quote(k) + more;
    assert s[1..] == Escape(k) + "\"" + more;
    StringBack(k, more);
    assert more[1..] == shown + ("," + tail);
    assert ("," + tail)[1..] == tail;
  }

  lemma {:induction false} EntriesBack(n: Node, keys: set<string>, entries: map<string, Node>, rest: string)
    requires Encodable(n) && n.Map? && keys <= n.entries.Keys
    ensures ReadEntries(ShowEntries(n, keys) + "}" + rest, entries) == Some((Map(entries + Restricted(n, keys)), rest))
    decreases n, 0, |keys|
  {
    hide ReadEntries, Read, Show, ShowEntries, Quote, Restricted;
    if keys == {} {
      NoEntries(n, entries, rest);
    } else {
      var k := Pick(keys);
      var v := n.entries[k];
      var tail := ShowEntries(n, keys - {k}) + "}" + rest;
      FirstEntry(n, keys, rest);
      ReadShow(v, "," + tail);
      EntryBack(k, v, Show(v), tail, entries);
      EntriesBack(n, keys - {k}, entries[k := v], rest);
      RestrictedMore(n, keys, k, entries);
    }
  }

  lemma NoEntries(n: Node, entries: map<string, Node>, rest: string)
    requires n.Map?
    ensures ReadEntries(ShowEntries(n, {}) + "}" + rest, entries) == Some((Map(entries + Restricted(n, {})), rest))
  {
    assert (ShowEntries(n, {}) + "}" + rest)[1..] == rest;
    assert entries + Restricted(n, {}) == entries;
  }

  lemma FirstEntry(n: Node, keys: set<string>, rest: string)
    requires n.Map? && keys <= n.entries.Keys && keys != {}
    ensures var k := Pick(keys);
            ShowEntries(n, keys) + "}" + rest
            == Quote(k) + (":" + Show(n.entries[k]) + "," + (ShowEntries(n, keys - {k}) + "}" + rest))
  {
    hide Quote, Show, Pick;
  }

  lemma RestrictedMore(n: Node, keys: set<string>, k: string, entries: map<string, Node>)
    requires n.Map? && keys <= n.entries.Keys && k in keys
    ensures entries[k := n.entries[k]] + Restricted(n, keys - {k}) == entries + Restricted(n, keys)
  {
  }

  lemma {:induction false} ItemsBack(n: Node, i: nat, rest: string)
    requires Encodable(n) && n.List? && i <= |n.items|
    ensures ReadItems(ShowItems(n, i) + "]" + rest, n.items[..i]) == Some((n, rest))
    decreases n, 0, |n.items| - i
  {
    var s := ShowItems(n, i) + "]" + rest;
    if i == |n.items| {
      assert s[1..] == rest && n.items[..i] == n.items;
    } else {
      var tail := ShowItems(n, i + 1) + "]" + rest;
      assert s == Show(n.items[i]) + ("," + tail);
      ReadShow(n.items[i], "," + tail);
      assert ("," + tail)[1..] == tail;
      ItemsBack(n, i + 1, rest);
      assert n.items[..i] + [n.items[i]] == n.items[..i + 1];
    }
  }

  // ---- What is written is one clean line ----

  predicate OneLine(s: string) { forall c | c in s :: c != '\n' }

  lemma {:induction false} EscapeOneLine(s: string)
    ensures OneLine(Escape(s))
  {
    if s != [] {
      EscapeOneLine(s[1..]);
    }
  }

  lemma {:induction false} ShowOneLine(n: Node)
    ensures OneLine(Show(n))
    decreases n, 1
  {
    match n {
      case Map(m) => EntriesOneLine(n, m.Keys);
      case List(items) => ItemsOneLine(n, 0);
      case Str(text) => EscapeOneLine(text);
      case Int(number) => assert forall c | c in ProviderIds.FormatInt(number) :: Numeric(c);
      case _ =>
    }
  }

  lemma {:induction false} EntriesOneLine(n: Node, keys: set<string>)
    requires n.Map? && keys <= n.entries.Keys
    ensures OneLine(ShowEntries(n, keys))
    decreases n, 0, |keys|
  {
    if keys != {} {
      var k := Pick(keys);
      EscapeOneLine(k);
      ShowOneLine(n.entries[k]);
      EntriesOneLine(n, keys - {k});
    }
  }

  lemma {:induction false} ItemsOneLine(n: Node, i: nat)
    requires n.List? && i <= |n.items|
    ensures OneLine(ShowItems(n, i))
    decreases n, 0, |n.items| - i
  {
    if i < |n.items| {
      ShowOneLine(n.items[i]);
      ItemsOneLine(n, i + 1);
    }
  }

  ghost const CODEC: Codec := Codec(Decode, n => Show(n) + "\n")

  // The pipeline's assumption about the library can be met.
  lemma CodecLawful()
    ensures Lawful(CODEC) && DecodesMaps(CODEC)
  {
    forall n: Node | n.Map? && Encodable(n) ensures RoundTrips(CODEC, n) {
      var t := Show(n);
      ReadShow(n, []);
      assert t + [] == t;
      ShowOneLine(n);
      assert t[0] == '{' && t[|t| - 1] == '}';
      LineIsClean(t);
    }
  }

  lemma LineIsClean(t: string)
    requires OneLine(t) && |t| > 1 && t[0] == '{' && t[|t| - 1] == '}'
    ensures Text.TrimSpace(t + "\n") == t && CleanDocs([t, t])
  {
    assert Text.TrimLeft(t + "\n") == t + "\n";
    assert (t + "\n")[..|t|] == t;
    assert Text.TrimRight(t + "\n") == Text.TrimRight(t) == t;
    assert Text.Trimmed(t);
    Text.TrimFixed(t);
    forall i | 0 <= i <= |t| ensures !HasPrefix(t[i..], SEP) {
      if i < |t| {
        assert t[i] in t && t[i..][0] != '\n';
      }
    }
    if |t| >= 4 {
      assert t[|t| - 4] in t && t[|t| - 4..][0] != '\n';
    }
  }
}
