// pkg/sshrescue/client.go: the command lines sent to the rescue system, and how a POSIX shell
// reads them back (sections 2.2.1, 2.2.2 and 2.3 of the POSIX Shell Command Language).
module Shell {
  import opened Common
  import opened Text

  // ---- The quoting ----

  // strings.ReplaceAll(s, "'", "'\\''")
  function Escape(s: string): string {
    if s == [] then [] else (if s[0] == '\'' then "'\\''" else [s[0]]) + Escape(s[1..])
  }

  function ShellQuote(s: string): string { "'" + Escape(s) + "'" }

  // ---- The reader ----

  // The words of a simple command and the text from the unquoted ';' or newline on that ends
  // it, when it is made of plain and quoted text. Stuck stands for everything that the language
  // does not pass on as it is: an unterminated quote, a double quote, an operator, a comment,
  // and a word that is subject to an expansion (sections 2.6.1 to 2.6.3, 2.6.6 and 2.13).
  datatype Lexed = Stuck | Lexed(words: seq<string>, rest: string)

  predicate IsBlank(c: char) { c == ' ' || c == '\t' }

  predicate Ends(c: char) { c == ';' || c == '\n' }

  // An operator, the start of an expansion, or part of a pattern, wherever it stands. In an
  // argument, '=', '%', '!', '{' and '}' are plain text.
  predicate Special(c: char) {
    || c == '|' || c == '&' || c == '<' || c == '>' || c == '(' || c == ')'
    || c == '$' || c == '`' || c == '"' || c == '*' || c == '?' || c == '['
  }

  // A comment or a home directory, at the start of a word only.
  predicate Opens(c: char) { c == '#' || c == '~' }

  predicate Ordinary(c: char) {
    !IsBlank(c) && !Ends(c) && !Special(c) && c != '\'' && c != '\\'
  }

  predicate AllOrdinary(s: string) { forall c | c in s :: Ordinary(c) }

  predicate Plain(s: string) { s != [] && !Opens(s[0]) && AllOrdinary(s) }

  // The text up to the next single quote, and the text behind it.
  function Quoted(s: string): (r: Option<(string, string)>)
    ensures r.Some? ==> |r.value.0| + |r.value.1| < |s|
  {
    if s == [] then None
    else if s[0] == '\'' then Some(([], s[1..]))
    else match Quoted(s[1..])
      case None => None
      case Some(q) => Some(([s[0]] + q.0, q.1))
  }

  function Emit(word: Option<string>, r: Lexed): Lexed {
    if word.None? || r.Stuck? then r else Lexed([word.value] + r.words, r.rest)
  }

  function Grow(word: Option<string>, more: string): Option<string> {
    Some(if word.None? then more else word.value + more)
  }

  // word is the word being read, None between words.
  function Lex(s: string, word: Option<string>): Lexed
    decreases |s|
  {
    if s == [] then Emit(word, Lexed([], []))
    else if s[0] == '\'' then
      match Quoted(s[1..])
        case None => Stuck
        case Some(q) => Lex(q.1, Grow(word, q.0))
    else if s[0] == '\\' then
      if |s| == 1 then Stuck
      else if s[1] == '\n' then Lex(s[2..], word)
      else Lex(s[2..], Grow(word, [s[1]]))
    else if IsBlank(s[0]) then Emit(word, Lex(s[1..], None))
    else if Ends(s[0]) then Emit(word, Lexed([], s))
    else if Special(s[0]) || (word.None? && Opens(s[0])) then Stuck
    else Lex(s[1..], Grow(word, [s[0]]))
  }

  // ---- Reading undoes quoting ----

  function BeforeQuote(s: string): (r: string)
    ensures r <= s && '\'' !in r
    ensures r == s || s[|r|] == '\''
  {
    if s == [] || s[0] == '\'' then [] else [s[0]] + BeforeQuote(s[1..])
  }

  lemma {:induction false} QuotedUpTo(a: string, rest: string)
    requires '\'' !in a
    ensures Quoted(a + "'" + rest) == Some((a, rest))
  {
    var s := a + "'" + rest;
    if a == [] {
      assert s[1..] == rest;
    } else {
      assert s[1..] == a[1..] + "'" + rest;
      QuotedUpTo(a[1..], rest);
      assert [a[0]] + a[1..] == a;
    }
  }

  lemma {:induction false} EscapeAt(a: string, b: string)
    requires '\'' !in a
    ensures Escape(a + b) == a + Escape(b)
  {
    if a == [] {
      assert a + b == b;
    } else {
      assert (a + b)[1..] == a[1..] + b;
      EscapeAt(a[1..], b);
    }
  }

  lemma LexChunk(a: string, rest: string, word: Option<string>)
    requires '\'' !in a
    ensures Lex("'" + a + "'" + rest, word) == Lex(rest, Grow(word, a))
  {
    var s := "'" + a + "'" + rest;
    assert s[1..] == a + "'" + rest;
    QuotedUpTo(a, rest);
  }

  lemma LexEscaped(c: char, rest: string, word: Option<string>)
    requires c != '\n'
    ensures Lex(['\\', c] + rest, word) == Lex(rest, Grow(word, [c]))
  {
    assert (['\\', c] + rest)[2..] == rest;
  }

  // The first quote inside a string closes the chunk, and a new chunk follows it.
  lemma QuoteAtQuote(a: string, b: string)
    requires '\'' !in a
    ensures ShellQuote(a + "'" + b) == "'" + a + "'" + (['\\', '\''] + ShellQuote(b))
  {
    hide Escape;
    EscapeAt(a, "'" + b);
    assert a + "'" + b == a + ("'" + b);
    assert Escape("'" + b) == "'\\''" + Escape(b) by {
      EscapeHead(b);
    }
    assert "'\\''" == "'" + ['\\', '\''] + "'";
  }

  lemma EscapeHead(b: string)
    ensures Escape("'" + b) == "'\\''" + Escape(b)
  {
    assert ("'" + b)[1..] == b;
  }

  lemma GrowTwice(word: Option<string>, a: string, b: string)
    ensures Grow(Grow(word, a), b) == Grow(word, a + b)
  {
    assert word.Some? ==> word.value + a + b == word.value + (a + b);
  }

  // Any string, quoted, adds exactly itself to the word being read.
  lemma {:induction false} LexQuoted(x: string, rest: string, word: Option<string>)
    ensures Lex(ShellQuote(x) + rest, word) == Lex(rest, Grow(word, x))
    decreases |x|
  {
    hide Lex, Escape, Grow;
    var a := BeforeQuote(x);
    if a == x {
      EscapeAt(x, []);
      assert Escape([]) == [] by { EscapeNothing(); }
      assert x + [] == x;
      LexChunk(x, rest, word);
    } else {
      var b := x[|a| + 1..];
      assert x == a + "'" + b;
      QuoteAtQuote(a, b);
      var quoted := ShellQuote(b) + rest;
      assert ShellQuote(x) + rest == "'" + a + "'" + (['\\', '\''] + quoted);
      LexChunk(a, ['\\', '\''] + quoted, word);
      LexEscaped('\'', quoted, Grow(word, a));
      LexQuoted(b, rest, Grow(Grow(word, a), "'"));
      GrowTwice(word, a, "'");
      GrowTwice(word, a + "'", b);
    }
  }

  lemma EscapeNothing() ensures Escape([]) == [] {}

  function QuoteAll(words: seq<string>): (r: seq<string>)
    ensures |r| == |words| && forall i | 0 <= i < |r| :: r[i] == ShellQuote(words[i])
  {
    seq(|words|, i requires 0 <= i < |words| => ShellQuote(words[i]))
  }

  // The space-joined quoted list reads back as the list, whatever the strings are.
  lemma {:induction false} LexList(words: seq<string>, rest: string)
    requires rest == [] || Ends(rest[0])
    ensures Lex(Join(QuoteAll(words), " ") + rest, None) == Lexed(words, rest)
  {
    if words == [] {
      assert Join(QuoteAll(words), " ") + rest == rest;
    } else if |words| == 1 {
      LexQuoted(words[0], rest, None);
      assert Lex(rest, Some(words[0])) == Emit(Some(words[0]), Lexed([], rest)) by {
        assert rest != [] ==> !IsBlank(rest[0]);
      }
      assert [words[0]] + [] == words;
    } else {
      var more := Join(QuoteAll(words[1..]), " ") + rest;
      assert QuoteAll(words)[1..] == QuoteAll(words[1..]);
      assert Join(QuoteAll(words), " ") + rest == ShellQuote(words[0]) + (" " + more);
      LexQuoted(words[0], " " + more, None);
      assert (" " + more)[1..] == more;
      LexList(words[1..], rest);
      assert [words[0]] + words[1..] == words;
    }
  }

  // ---- The two command lines ----

  const FOR := "for d in "

  // The wipe script; `body` is everything behind the list of disks.
  function WipeCommand(disks: seq<string>, body: string): string {
    FOR + Join(QuoteAll(disks), " ") + "; do " + body
  }

  // Client.Run hands the command to bash as one argument.
  function Wrapped(command: string): string { "bash -c " + ShellQuote(command) }

  method BuildWipeCommand(disks: seq<string>, body: string) returns (command: string)
    ensures command == WipeCommand(disks, body)
  {
    var quotedDisks: seq<string> := [];
    for i := 0 to |disks|
      invariant quotedDisks == QuoteAll(disks[..i])
    {
      quotedDisks := quotedDisks + [ShellQuote(disks[i])];
    }
    assert disks[..|disks|] == disks;
    command := FOR + Join(quotedDisks, " ") + "; do " + body;
  }

  lemma {:induction false} LexOrdinary(a: string, rest: string, word: Option<string>)
    requires a != [] && AllOrdinary(a) && (word.None? ==> !Opens(a[0]))
    ensures Lex(a + rest, word) == Lex(rest, Grow(word, a))
  {
    assert (a + rest)[1..] == a[1..] + rest;
    assert Ordinary(a[0]);
    if |a| == 1 {
      assert a[1..] + rest == rest && a == [a[0]];
    } else {
      LexOrdinary(a[1..], rest, Grow(word, [a[0]]));
      assert [a[0]] + a[1..] == a;
      assert word.Some? ==> word.value + [a[0]] + a[1..] == word.value + a;
      assert Grow(Grow(word, [a[0]]), a[1..]) == Grow(word, a);
    }
  }

  // A plain word before a blank is read on its own.
  lemma LexFirst(a: string, rest: string)
    requires Plain(a)
    requires Lex(rest, None).Lexed?
    ensures Lex(a + (" " + rest), None) == Lexed([a] + Lex(rest, None).words, Lex(rest, None).rest)
  {
    LexOrdinary(a, " " + rest, None);
    assert (" " + rest)[1..] == rest;
  }

  lemma LexLast(x: string)
    ensures Lex(ShellQuote(x), None) == Lexed([x], [])
  {
    hide ShellQuote;
    LexQuoted(x, [], None);
    assert ShellQuote(x) + [] == ShellQuote(x);
    assert Lex([], Some(x)) == Lexed([x] + [], []) && [x] + [] == [x];
  }

  // Reading the command line gives bash the script unchanged ...
  lemma WrappedArrives(command: string)
    ensures Lex(Wrapped(command), None) == Lexed(["bash", "-c", command], [])
  {
    hide Lex, ShellQuote;
    var q := ShellQuote(command);
    LexLast(command);
    LexFirst("-c", q);
    LexFirst("bash", "-c" + (" " + q));
    assert Wrapped(command) == "bash" + (" " + ("-c" + (" " + q)));
    assert ["bash"] + (["-c"] + [command]) == ["bash", "-c", command];
  }

  // ... and in it, the words of the for loop are exactly the disks, through both layers.
  lemma WipeListArrives(disks: seq<string>, body: string)
    ensures var command := WipeCommand(disks, body);
            && Lex(Wrapped(command), None) == Lexed(["bash", "-c", command], [])
            && HasPrefix(command, "for d in ")
            && Lex(TrimPrefix(command, "for d in "), None) == Lexed(disks, "; do " + body)
  {
    var command := WipeCommand(disks, body);
    var list := Join(QuoteAll(disks), " ") + ("; do " + body);
    assert command == FOR + list && command[..|FOR|] == FOR && command[|FOR|..] == list;
    WrappedArrives(command);
    LexList(disks, "; do " + body);
  }

  // ---- Unquoted interpolation, as in "flatcar-install -d <disk>" ----

  function Length(words: seq<string>): nat {
    if words == [] then 0 else |words[0]| + Length(words[1..])
  }

  // Reading loses at least one character for every one that is not ordinary.
  lemma {:induction false} LexLength(s: string, word: Option<string>)
    requires Lex(s, word).Lexed? && Lex(s, word).rest == []
    ensures Length(Lex(s, word).words) <= |s| + (if word.None? then 0 else |word.value|)
    ensures Length(Lex(s, word).words) == |s| + (if word.None? then 0 else |word.value|) ==> AllOrdinary(s)
    decreases |s|
  {
    if s == [] {
      EmitLength(word, Lexed([], []));
    } else if s[0] == '\'' {
      var q := Quoted(s[1..]).value;
      LexLength(q.1, Grow(word, q.0));
    } else if s[0] == '\\' {
      LexLength(s[2..], if s[1] == '\n' then word else Grow(word, [s[1]]));
    } else if IsBlank(s[0]) {
      LexLength(s[1..], None);
      EmitLength(word, Lex(s[1..], None));
    } else if !Ends(s[0]) && !Special(s[0]) {
      LexLength(s[1..], Grow(word, [s[0]]));
      assert s == [s[0]] + s[1..];
    }
  }

  lemma EmitLength(word: Option<string>, r: Lexed)
    requires r.Lexed?
    ensures Length(Emit(word, r).words) == Length(r.words) + (if word.None? then 0 else |word.value|)
  {
    if word.Some? {
      assert ([word.value] + r.words)[1..] == r.words;
    }
  }

  // Without quotes a string is read as itself, and is subject to no expansion, if and only if it
  // is plain: it is not empty, does not open a comment or a home directory, and has no blank, no
  // quoting character, no operator, and no character of an expansion or a pattern.
  lemma RawExactly(s: string)
    ensures Lex(s, None) == Lexed([s], []) <==> Plain(s)
  {
    if Lex(s, None) == Lexed([s], []) {
      LexLength(s, None);
      assert [s][1..] == [];
      assert Length([s]) == |s|;
    }
    if Plain(s) {
      LexOrdinary(s, [], None);
      assert s + [] == s;
      assert Lex([], Some(s)) == Lexed([s] + [], []);
      assert [s] + [] == [s];
    }
  }
}
