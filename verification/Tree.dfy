// Decoded configuration documents: what yaml.Unmarshal and json.Unmarshal give for interface{}.
module Tree {
  import opened Common

  // Opaque stands for the remaining scalar kinds and for maps with keys that are not strings.
  datatype Node =
    | Map(entries: map<string, Node>)
    | List(items: seq<Node>)
    | Str(text: string)
    | Int(number: int)
    | Bool(value: bool)
    | Null
    | Opaque(literal: string)

  type Path = seq<string>

  function Entries(n: Node): map<string, Node> { if n.Map? then n.entries else map[] }

  function Items(n: Node): seq<Node> { if n.List? then n.items else [] }

  function Child(n: Node, key: string): Node {
    if n.Map? && key in n.entries then n.entries[key] else Null
  }

  function Lookup(n: Node, p: Path): Option<Node>
    decreases |p|
  {
    if p == [] then Some(n)
    else if n.Map? && p[0] in n.entries then Lookup(n.entries[p[0]], p[1..])
    else None
  }

  // Assign v at p. Every map on the way that is missing, or is no map, is created afresh.
  function Put(n: Node, p: Path, v: Node): Node
    decreases |p|
  {
    if p == [] then v
    else Map(Entries(n)[p[0] := Put(Child(n, p[0]), p[1..], v)])
  }

  // Neither path is a prefix of the other.
  predicate Apart(p: Path, q: Path) { !(p <= q) && !(q <= p) }

  lemma {:induction false} PutGet(n: Node, p: Path, v: Node, tail: Path)
    ensures Lookup(Put(n, p, v), p + tail) == Lookup(v, tail)
    decreases |p|
  {
    if p == [] {
      assert p + tail == tail;
    } else {
      assert (p + tail)[1..] == p[1..] + tail;
      PutGet(Child(n, p[0]), p[1..], v, tail);
    }
  }

  lemma PutGetHere(n: Node, p: Path, v: Node)
    ensures Lookup(Put(n, p, v), p) == Some(v)
  {
    PutGet(n, p, v, []);
    assert p + [] == p;
  }

  // Whatever the tree holds on the way, all other places keep what they had.
  lemma {:induction false} PutFrame(n: Node, p: Path, v: Node, q: Path)
    requires Apart(p, q)
    ensures Lookup(Put(n, p, v), q) == Lookup(n, q)
    decreases |p|
  {
    if p[0] == q[0] {
      assert p == [p[0]] + p[1..] && q == [q[0]] + q[1..];
      PutFrame(Child(n, p[0]), p[1..], v, q[1..]);
    }
  }

  // Above the assigned place there are only maps.
  lemma {:induction false} PutAbove(n: Node, p: Path, v: Node, q: Path)
    requires q < p
    ensures Lookup(Put(n, p, v), q).Some? && Lookup(Put(n, p, v), q).value.Map?
    decreases |p|
  {
    if q != [] {
      assert p[1..][..|q[1..]|] == q[1..];
      PutAbove(Child(n, p[0]), p[1..], v, q[1..]);
    }
  }

  // The second assignment to a place hides the first.
  lemma {:induction false} PutPut(n: Node, p: Path, v: Node, w: Node)
    ensures Put(Put(n, p, v), p, w) == Put(n, p, w)
    decreases |p|
  {
    if p != [] {
      PutPut(Child(n, p[0]), p[1..], v, w);
      assert Entries(n)[p[0] := v][p[0] := w] == Entries(n)[p[0] := w];
      var x := Put(Child(n, p[0]), p[1..], v);
      var y := Put(Child(n, p[0]), p[1..], w);
      assert Entries(n)[p[0] := x][p[0] := y] == Entries(n)[p[0] := y];
    }
  }
}
