// controllers/hetznerrobotmachine_inject.go, lines 13-55: multi-document YAML.
module Documents {
  import opened Common
  import opened Text
  import opened Tree
  import ProviderIds

  const SEP := "\n---\n"
  const MARK := "---"
  const LEAD := "---\n"
  const TAIL := "\n---"

  // What one piece between separators contributes.
  function Kept(piece: string): seq<string> {
    var t := TrimSpace(piece);
    if t == [] || t == MARK then [] else [TrimPrefix(t, LEAD)]
  }

  function KeptAll(pieces: seq<string>): seq<string> {
    if pieces == [] then [] else Kept(pieces[0]) + KeptAll(pieces[1..])
  }

  function SplitDocs(data: string): seq<string> { KeptAll(Split(data, SEP)) }

  function JoinDocs(docs: seq<string>): string { Join(docs, SEP) }

  // A document the split takes over unchanged when it stands alone.
  predicate Plain(d: string) {
    d != [] && d != MARK && Trimmed(d) && !HasPrefix(d, LEAD)
  }

  // The documents that survive another join and split.
  predicate CleanDocs(docs: seq<string>) {
    forall i | 0 <= i < |docs| ::
      && Plain(docs[i])
      && !Contains(docs[i], SEP)
      && (i < |docs| - 1 ==> !HasSuffix(docs[i], TAIL))
  }

  lemma KeptAllFrom(pieces: seq<string>, i: nat)
    requires i < |pieces|
    ensures KeptAll(pieces[i..]) == Kept(pieces[i]) + KeptAll(pieces[i + 1..])
  {
    assert pieces[i..][1..] == pieces[i + 1..];
  }

  method SplitYAMLDocuments(data: string) returns (docs: seq<string>)
    ensures docs == SplitDocs(data)
  {
    hide Split, KeptAll, TrimSpace;
    var parts := Split(data, SEP);
    docs := [];
    assert parts[0..] == parts;
    for i := 0 to |parts|
      invariant docs + KeptAll(parts[i..]) == KeptAll(parts)
    {
      KeptAllFrom(parts, i);
      assert docs + (Kept(parts[i]) + KeptAll(parts[i + 1..])) == docs + Kept(parts[i]) + KeptAll(parts[i + 1..]);
      var p := TrimSpace(parts[i]);
      if |p| > 0 && p != MARK {
        p := TrimPrefix(p, LEAD);
        docs := docs + [p];
      }
    }
    NothingKept(parts[|parts|..]);
    assert docs + [] == docs;
    assert SplitDocs(data) == KeptAll(parts);
  }

  lemma NothingKept(pieces: seq<string>)
    ensures pieces == [] ==> KeptAll(pieces) == []
  {
  }

  // ---- Split undoes join for exactly the clean documents ----

  // Characters of the joined text, plus one separator.
  function Weight(parts: seq<string>): nat {
    if parts == [] then 0 else |parts[0]| + |SEP| + Weight(parts[1..])
  }

  lemma {:induction false} JoinWeight(parts: seq<string>)
    requires parts != []
    ensures |JoinDocs(parts)| + |SEP| == Weight(parts)
  {
    if |parts| == 1 {
      assert Weight(parts[1..]) == 0;
    } else {
      JoinWeight(parts[1..]);
    }
  }

  lemma KeptWeight(piece: string)
    ensures Weight(Kept(piece)) <= |piece| + |SEP|
    ensures Weight(Kept(piece)) == |piece| + |SEP| <==> Plain(piece)
    ensures Plain(piece) ==> Kept(piece) == [piece]
  {
    TrimFixed(piece);
    var k := Kept(piece);
    if k != [] {
      assert k[1..] == [];
    }
  }

  lemma {:induction false} WeightConcat(a: seq<string>, b: seq<string>)
    ensures Weight(a + b) == Weight(a) + Weight(b)
  {
    if a == [] {
      assert a + b == b;
    } else {
      WeightConcat(a[1..], b);
      assert (a + b)[1..] == a[1..] + b;
    }
  }

  // Keeping never adds characters, and loses none only when it changes nothing.
  lemma {:induction false} KeptAllWeight(pieces: seq<string>)
    ensures Weight(KeptAll(pieces)) <= Weight(pieces)
    ensures Weight(KeptAll(pieces)) == Weight(pieces) <==> forall p | p in pieces :: Plain(p)
    ensures (forall p | p in pieces :: Plain(p)) ==> KeptAll(pieces) == pieces
  {
    if pieces != [] {
      var rest := pieces[1..];
      KeptWeight(pieces[0]);
      KeptAllWeight(rest);
      WeightConcat(Kept(pieces[0]), KeptAll(rest));
      assert pieces == [pieces[0]] + rest;
    }
  }

  // The separator overlaps itself by its newline, so a document may not end in the rest of it.
  lemma ClearExactly(d: string)
    ensures Clear(d, SEP) <==> !Contains(d, SEP) && !HasSuffix(d, TAIL)
  {
    var ds := d + SEP;
    forall i | 0 <= i < |d|
      ensures HasPrefix(ds[i..], SEP) <==> HasPrefix(d[i..], SEP) || (i == |d| - 4 && HasSuffix(d, TAIL))
    {
      var k := |d| - i;
      assert ds[i..] == d[i..] + SEP;
      if k >= 5 {
        assert ds[i..][..5] == d[i..][..5];
      } else {
        assert |d[i..]| == k;
        if HasPrefix(ds[i..], SEP) {
          var t := ds[i..][..5];
          assert t == SEP;
          assert t[k] == SEP[0];
          assert k == 4;
          assert d[i..] == t[..4];
        }
        if k == 4 && HasSuffix(d, TAIL) {
          assert d[i..] == TAIL;
          assert ds[i..][..5] == SEP;
        }
      }
    }
    if Contains(d, SEP) {
      var i :| 0 <= i <= |d| && HasPrefix(d[i..], SEP);
      assert i < |d|;
    }
    if HasSuffix(d, TAIL) {
      assert 0 <= |d| - 4 < |d|;
    }
    if !Contains(d, SEP) {
      assert forall i | 0 <= i <= |d| :: !HasPrefix(d[i..], SEP);
    }
  }

  lemma CleanIsClear(docs: seq<string>)
    requires docs != []
    ensures CleanDocs(docs) <==>
            (&& (forall d | d in docs :: Plain(d))
             && AllClear(docs, SEP) && !Contains(docs[|docs| - 1], SEP))
  {
    forall i | 0 <= i < |docs| ensures Clear(docs[i], SEP) <==> !Contains(docs[i], SEP) && !HasSuffix(docs[i], TAIL) {
      ClearExactly(docs[i]);
    }
  }

  lemma NoDocuments()
    ensures SplitDocs([]) == []
  {
    assert Split([], SEP) == [[]];
    assert Kept([]) == [] && KeptAll([[]][1..]) == [];
  }

  // One more round of join and split, and what it does to the weight.
  lemma RoundWeight(docs: seq<string>)
    requires docs != []
    ensures Weight(SplitDocs(JoinDocs(docs))) <= Weight(docs)
    ensures Weight(SplitDocs(JoinDocs(docs))) == Weight(docs) ==>
              SplitDocs(JoinDocs(docs)) == Split(JoinDocs(docs), SEP)
              && forall p | p in SplitDocs(JoinDocs(docs)) :: Plain(p)
  {
    var text := JoinDocs(docs);
    var pieces := Split(text, SEP);
    KeptAllWeight(pieces);
    JoinSplit(text, SEP);
    JoinWeight(pieces);
    JoinWeight(docs);
  }

  lemma SplitUndoesJoinDocs(docs: seq<string>)
    ensures SplitDocs(JoinDocs(docs)) == docs <==> CleanDocs(docs)
  {
    if docs != [] {
      CleanIsClear(docs);
      SplitUndoesJoin(docs, SEP);
      RoundWeight(docs);
      if CleanDocs(docs) {
        KeptAllWeight(docs);
      }
    } else {
      NoDocuments();
    }
  }

  lemma ThreePieces(a: string, b: string, c: string)
    requires Clear(a, SEP) && Clear(b, SEP) && !Contains(c, SEP)
    ensures SplitDocs(a + SEP + b + SEP + c) == Kept(a) + Kept(b) + Kept(c)
  {
    hide TrimSpace, Clear, Contains, Kept;
    var rest := b + SEP + c;
    assert a + SEP + b + SEP + c == a + SEP + rest;
    SplitClear(a, SEP, rest);
    SplitClear(b, SEP, c);
    SplitWithout(c, SEP);
    var p := [a, b, c];
    assert Split(a + SEP + rest, SEP) == [a] + ([b] + [c]) == p;
    hide Split;
    KeptAllFrom(p, 0);
    KeptAllFrom(p, 1);
    KeptAllFrom(p, 2);
    assert p[0..] == p && KeptAll(p[3..]) == [];
    assert Kept(a) + (Kept(b) + (Kept(c) + [])) == Kept(a) + Kept(b) + Kept(c);
  }

  // A line "--- " with a trailing blank is no separator, but trimming turns it into one:
  // the second of these three documents loses its last line on the next round.
  lemma UncleanDocument()
    ensures SplitDocs("a" + SEP + "b\n--- " + SEP + "c") == ["a"] + ["b\n---"] + ["c"]
    ensures SplitDocs("a" + SEP + "b\n---" + SEP + "c") == ["a"] + ["b"] + ["c"]
  {
    UncleanFirst();
    UncleanSecond();
  }

  lemma UncleanFirst()
    ensures SplitDocs("a" + SEP + "b\n--- " + SEP + "c") == ["a"] + ["b\n---"] + ["c"]
  {
    hide Split;
    var b := "b\n--- ";
    assert !Contains(b, SEP) by {
      forall i | 0 <= i <= |b| ensures !HasPrefix(b[i..], SEP) {
        assert i == 0 ==> b[i..][0] == 'b';
        assert i == 1 ==> b[i..][4] == ' ';
      }
    }
    ClearExactly("a");
    ClearExactly(b);
    ThreePieces("a", b, "c");
    assert b[..5] == "b\n---";
    assert TrimSpace(b) == b[..5] by {
      assert TrimRight(b) == TrimRight(b[..5]);
    }
  }

  lemma UncleanSecond()
    ensures SplitDocs("a" + SEP + "b\n---" + SEP + "c") == ["a"] + ["b"] + ["c"]
  {
    hide Split;
    var c := "---\nc";
    assert !Contains(c, SEP) by {
      forall i | 0 <= i <= |c| ensures !HasPrefix(c[i..], SEP) {
        assert i == 0 ==> c[i..][0] == '-';
      }
    }
    assert "a" + SEP + "b\n---" + SEP + "c" == "a" + SEP + "b" + SEP + c;
    ClearExactly("a");
    ClearExactly("b");
    ThreePieces("a", "b", c);
    assert c[..4] == LEAD && c[4..] == "c";
  }

  // ---- modifyFirstDocument ----

  // A YAML library: decode one document into a map tree (Null for an empty document), and encode.
  datatype Codec = Codec(decode: string -> Result<Node>, encode: Node -> string)

  // The library writes map n as one clean document closed by a newline, which it reads back as n.
  ghost predicate RoundTrips(c: Codec, n: Node) {
    var t := TrimSpace(c.encode(n));
    && c.encode(n) == t + "\n"
    && CleanDocs([t, t])
    && c.decode(t) == Ok(n)
  }

  // Decoding into a Go map gives a map, or nil for an empty document.
  ghost predicate DecodesMaps(c: Codec) {
    forall t: string | c.decode(t).Ok? :: c.decode(t).value.Map? || c.decode(t).value.Null?
  }

  // Trees of maps, lists, strings, booleans, nulls and integers of Go's width.
  predicate Encodable(n: Node) {
    match n
    case Map(m) => forall k | k in m :: Encodable(m[k])
    case List(items) => forall i | 0 <= i < |items| :: Encodable(items[i])
    case Int(number) => -ProviderIds.MAX_INT - 1 <= number <= ProviderIds.MAX_INT
    case Opaque(_) => false
    case _ => true
  }

  // What a library promises at least.
  ghost predicate Lawful(c: Codec) {
    forall n: Node | n.Map? && Encodable(n) :: RoundTrips(c, n)
  }

  const EMPTY_CONFIG := "empty machineconfig"
  const NIL_MAP := "panic: assignment to entry in nil map"

  function Modified(c: Codec, data: string, edit: Node -> Node): Result<string> {
    var docs := SplitDocs(data);
    if docs == [] then Err(EMPTY_CONFIG)
    else match c.decode(docs[0])
      case Err(e) => Err(e)
      case Ok(config) =>
        if config.Null? then Err(NIL_MAP) else Ok(JoinDocs([c.encode(edit(config))] + docs[1..]))
  }

  function SepBefore(docs: seq<string>): string {
    if docs == [] then [] else SEP + docs[0] + SepBefore(docs[1..])
  }

  lemma {:induction false} JoinAsSuffixes(first: string, docs: seq<string>)
    ensures JoinDocs([first] + docs) == first + SepBefore(docs)
    decreases |docs|
  {
    if docs != [] {
      assert ([first] + docs)[1..] == docs == [docs[0]] + docs[1..];
      JoinAsSuffixes(docs[0], docs[1..]);
      assert first + SEP + (docs[0] + SepBefore(docs[1..])) == first + (SEP + docs[0] + SepBefore(docs[1..]));
    }
  }

  lemma {:induction false} SepBeforeNext(docs: seq<string>, d: string)
    ensures SepBefore(docs + [d]) == SepBefore(docs) + SEP + d
  {
    if docs == [] {
      assert docs + [d] == [d] && [d][1..] == [];
    } else {
      assert (docs + [d])[1..] == docs[1..] + [d];
      SepBeforeNext(docs[1..], d);
    }
  }

  method ModifyFirstDocument(c: Codec, data: string, edit: Node -> Node) returns (r: Result<string>)
    ensures r == Modified(c, data, edit)
  {
    var docs := SplitYAMLDocuments(data);
    if |docs| == 0 {
      return Err(EMPTY_CONFIG);
    }
    var parsed := c.decode(docs[0]);
    if parsed.Err? {
      return Err(parsed.reason);
    }
    if parsed.value.Null? {
      return Err(NIL_MAP);
    }
    var firstDoc := c.encode(edit(parsed.value));
    var result := firstDoc;
    for i := 1 to |docs|
      invariant result == firstDoc + SepBefore(docs[1..i])
    {
      assert docs[1..i + 1] == docs[1..i] + [docs[i]];
      SepBeforeNext(docs[1..i], docs[i]);
      result := result + SEP;
      result := result + docs[i];
    }
    assert docs[1..|docs|] == docs[1..];
    JoinAsSuffixes(firstDoc, docs[1..]);
    return Ok(result);
  }

  // Splitting a document that the library encoded, followed by others.
  lemma SplitEncoded(t: string, rest: seq<string>)
    requires CleanDocs([t, t])
    ensures SplitDocs(JoinDocs([t + "\n"] + rest)) == [t] + SplitDocs(JoinDocs(rest))
  {
    assert [t, t][0] == t;
    var u := t + "\n";
    assert Clear(u, SEP) && !Contains(u, SEP) by {
      EncodedClear(t);
    }
    assert Kept(u) == [t] by {
      TrimNewline(t);
    }
    if rest == [] {
      assert [u] + rest == [u];
      SplitWithout(u, SEP);
      assert KeptAll([u]) == Kept(u) + KeptAll([u][1..]) == [t];
      NoDocuments();
    } else {
      var pieces := [u] + Split(JoinDocs(rest), SEP);
      assert ([u] + rest)[1..] == rest;
      SplitClear(u, SEP, JoinDocs(rest));
      assert pieces[1..] == Split(JoinDocs(rest), SEP);
    }
  }

  lemma EncodedClear(t: string)
    requires CleanDocs([t, t])
    ensures Clear(t + "\n", SEP) && !Contains(t + "\n", SEP)
  {
    var u := t + "\n";
    assert [t, t][0] == t;
    ClearExactly(t);
    ClearExactly(u);
    assert !HasSuffix(u, TAIL) by {
      assert u[|u| - 1] == '\n';
    }
    forall i | 0 <= i <= |u| ensures !HasPrefix(u[i..], SEP) {
      if i + 5 <= |t| {
        assert u[i..][..5] == t[i..][..5];
      } else if i == |t| - 4 {
        assert u[i..] == t[i..] + "\n" && u[i..][..4] == t[i..];
        assert SEP[..4] == TAIL;
      }
    }
  }

  lemma TrimNewline(t: string)
    requires Plain(t)
    ensures Kept(t + "\n") == [t]
  {
    var u := t + "\n";
    assert TrimLeft(u) == u;
    assert u[..|u| - 1] == t;
    assert TrimRight(u) == TrimRight(t) == t;
  }

  // The edit reaches the first document and nothing else: the others come back byte for byte
  // if and only if they are clean.
  lemma ModifiedMeaning(c: Codec, data: string, edit: Node -> Node)
    requires Modified(c, data, edit).Ok? && RoundTrips(c, edit(c.decode(SplitDocs(data)[0]).value))
    ensures var docs := SplitDocs(data); var after := SplitDocs(Modified(c, data, edit).value);
            && after != []
            && c.decode(after[0]) == Ok(edit(c.decode(docs[0]).value))
            && after[1..] == SplitDocs(JoinDocs(docs[1..]))
            && (after[1..] == docs[1..] <==> CleanDocs(docs[1..]))
  {
    var docs := SplitDocs(data);
    var n := edit(c.decode(docs[0]).value);
    var t := TrimSpace(c.encode(n));
    SplitEncoded(t, docs[1..]);
    SplitUndoesJoinDocs(docs[1..]);
    assert ([t] + SplitDocs(JoinDocs(docs[1..])))[1..] == SplitDocs(JoinDocs(docs[1..]));
  }
}
