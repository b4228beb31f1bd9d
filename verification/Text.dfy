// The parts of Go's strings and bytes packages the controllers use. A char is one code point.
module Text {
  import opened Common

  // unicode.IsSpace
  predicate IsSpace(c: char) {
    || '\t' <= c <= '\r' || c == ' '
    || c == '\U{0085}' || c == '\U{00A0}' || c == '\U{1680}'
    || '\U{2000}' <= c <= '\U{200A}'
    || c == '\U{2028}' || c == '\U{2029}' || c == '\U{202F}' || c == '\U{205F}' || c == '\U{3000}'
  }

  function TrimLeft(s: string): string {
    if s != [] && IsSpace(s[0]) then TrimLeft(s[1..]) else s
  }

  function TrimRight(s: string): string {
    if s != [] && IsSpace(s[|s| - 1]) then TrimRight(s[..|s| - 1]) else s
  }

  function TrimSpace(s: string): string { TrimRight(TrimLeft(s)) }

  predicate Trimmed(s: string) { s == [] || (!IsSpace(s[0]) && !IsSpace(s[|s| - 1])) }

  // Split and Join for a non-empty separator: leftmost, non-overlapping occurrences.
  function Split(s: string, sep: string): (r: seq<string>)
    requires sep != []
    ensures |r| >= 1
  {
    if HasPrefix(s, sep) then [[]] + Split(s[|sep|..], sep)
    else if s == [] then [[]]
    else
      var r := Split(s[1..], sep);
      [[s[0]] + r[0]] + r[1..]
  }

  function Join(parts: seq<string>, sep: string): string {
    if |parts| == 0 then [] else if |parts| == 1 then parts[0] else parts[0] + sep + Join(parts[1..], sep)
  }

  predicate Contains(s: string, sub: string) {
    exists i | 0 <= i <= |s| :: HasPrefix(s[i..], sub)
  }

  // The first occurrence of sep in d + sep is the one at the end.
  predicate Clear(d: string, sep: string) {
    forall i | 0 <= i < |d| :: !HasPrefix((d + sep)[i..], sep)
  }

  predicate AllClear(parts: seq<string>, sep: string) {
    forall i | 0 <= i < |parts| - 1 :: Clear(parts[i], sep)
  }

  // ---- Trimming ----

  lemma {:induction false} TrimLeftLength(s: string)
    ensures |TrimLeft(s)| <= |s| && (|TrimLeft(s)| == |s| ==> TrimLeft(s) == s)
    ensures TrimLeft(s) == s[|s| - |TrimLeft(s)|..]
    ensures TrimLeft(s) == [] || !IsSpace(TrimLeft(s)[0])
  {
    if s != [] && IsSpace(s[0]) {
      TrimLeftLength(s[1..]);
    }
  }

  lemma {:induction false} TrimRightLength(s: string)
    ensures |TrimRight(s)| <= |s| && (|TrimRight(s)| == |s| ==> TrimRight(s) == s)
    ensures TrimRight(s) == s[..|TrimRight(s)|]
    ensures TrimRight(s) == [] || !IsSpace(TrimRight(s)[|TrimRight(s)| - 1])
  {
    if s != [] && IsSpace(s[|s| - 1]) {
      TrimRightLength(s[..|s| - 1]);
    }
  }

  lemma TrimFixed(s: string)
    ensures |TrimSpace(s)| <= |s|
    ensures |TrimSpace(s)| == |s| ==> TrimSpace(s) == s
    ensures TrimSpace(s) == s <==> Trimmed(s)
    ensures Trimmed(TrimSpace(s))
  {
    TrimLeftLength(s);
    TrimRightLength(TrimLeft(s));
  }

  // ---- Splitting and joining ----

  lemma {:induction false} JoinSplit(s: string, sep: string)
    requires sep != []
    ensures Join(Split(s, sep), sep) == s
  {
    if HasPrefix(s, sep) {
      JoinSplit(s[|sep|..], sep);
      var r := Split(s[|sep|..], sep);
      assert Split(s, sep) == [[]] + r && s == sep + s[|sep|..];
      hide Split, HasPrefix, Join;
      JoinEmpty(r, sep);
    } else if s != [] {
      JoinSplit(s[1..], sep);
      var r := Split(s[1..], sep);
      var q := [[s[0]] + r[0]] + r[1..];
      assert s == [s[0]] + s[1..] && Split(s, sep) == q;
      hide Split, HasPrefix, Join;
      JoinHead(s[0], r, sep);
    }
  }

  lemma JoinEmpty(r: seq<string>, sep: string)
    requires r != []
    ensures Join([[]] + r, sep) == sep + Join(r, sep)
  {
    assert ([[]] + r)[1..] == r;
    assert [] + sep + Join(r, sep) == sep + Join(r, sep);
  }

  lemma JoinHead(c: char, r: seq<string>, sep: string)
    requires r != []
    ensures Join([[c] + r[0]] + r[1..], sep) == [c] + Join(r, sep)
  {
    var q := [[c] + r[0]] + r[1..];
    assert q[1..] == r[1..];
    if |r| > 1 {
      assert [c] + (r[0] + sep + Join(r[1..], sep)) == ([c] + r[0]) + sep + Join(r[1..], sep);
    }
  }

  // A clear part followed by the separator is cut off exactly.
  lemma {:induction false} SplitClear(d: string, sep: string, rest: string)
    requires sep != [] && Clear(d, sep)
    ensures Split(d + sep + rest, sep) == [d] + Split(rest, sep)
  {
    var s := d + sep + rest;
    if d == [] {
      assert s == sep + rest;
      assert s[..|sep|] == sep && s[|sep|..] == rest;
    } else {
      assert (d + sep)[0..] == d + sep;
      assert !HasPrefix(s, sep) by {
        assert s[..|sep|] == (d + sep)[..|sep|];
      }
      assert s[1..] == d[1..] + sep + rest;
      forall i | 0 <= i < |d[1..]| ensures !HasPrefix((d[1..] + sep)[i..], sep) {
        assert (d[1..] + sep)[i..] == (d + sep)[i + 1..];
      }
      SplitClear(d[1..], sep, rest);
      assert [d[0]] + d[1..] == d;
    }
  }

  lemma {:induction false} SplitWithout(d: string, sep: string)
    requires sep != [] && !Contains(d, sep)
    ensures Split(d, sep) == [d]
  {
    if d != [] {
      assert !HasPrefix(d, sep) by {
        assert d[0..] == d;
      }
      assert !Contains(d[1..], sep) by {
        forall i | 0 <= i <= |d[1..]| ensures !HasPrefix(d[1..][i..], sep) {
          assert d[1..][i..] == d[i + 1..];
        }
      }
      SplitWithout(d[1..], sep);
      assert [d[0]] + d[1..] == d;
    }
  }

  lemma {:induction false} SplitJoin(parts: seq<string>, sep: string)
    requires sep != [] && parts != []
    requires AllClear(parts, sep) && !Contains(parts[|parts| - 1], sep)
    ensures Split(Join(parts, sep), sep) == parts
  {
    if |parts| == 1 {
      SplitWithout(parts[0], sep);
    } else {
      assert Clear(parts[0], sep);
      forall i | 0 <= i < |parts[1..]| - 1 ensures Clear(parts[1..][i], sep) {
        assert parts[1..][i] == parts[i + 1];
      }
      SplitJoin(parts[1..], sep);
      SplitClear(parts[0], sep, Join(parts[1..], sep));
      assert parts == [parts[0]] + parts[1..];
    }
  }

  lemma HeadExtends(s: string, sep: string, r: seq<string>)
    requires sep != [] && s != [] && !HasPrefix(s, sep)
    requires r == Split(s[1..], sep)
    requires |r| > 1 ==> Clear(r[0], sep) && HasPrefix(s[1..], r[0] + sep)
    requires |r| == 1 ==> r[0] == s[1..] && !Contains(r[0], sep)
    ensures |r| > 1 ==> Clear([s[0]] + r[0], sep) && HasPrefix(s, [s[0]] + r[0] + sep)
    ensures |r| == 1 ==> [s[0]] + r[0] == s && !Contains([s[0]] + r[0], sep)
  {
    hide Split;
    var d := [s[0]] + r[0];
    if |r| > 1 {
      var t := r[0] + sep;
      assert s[..|t| + 1] == [s[0]] + s[1..][..|t|] == d + sep;
      forall i | 0 <= i < |d| ensures !HasPrefix((d + sep)[i..], sep) {
        if i == 0 {
          assert (d + sep)[0..][..|sep|] == s[..|sep|];
        } else {
          assert (d + sep)[i..] == (r[0] + sep)[i - 1..];
        }
      }
    } else {
      assert d == s;
      forall i | 0 <= i <= |d| ensures !HasPrefix(d[i..], sep) {
        if i == 0 {
          assert d[0..] == s;
        } else {
          assert d[i..] == r[0][i - 1..];
        }
      }
    }
  }

  // Every part but the last is clear, and the last one contains no separator.
  lemma {:induction false} SplitParts(s: string, sep: string)
    requires sep != []
    ensures var r := Split(s, sep);
            && AllClear(r, sep) && !Contains(r[|r| - 1], sep)
            && (|r| > 1 ==> HasPrefix(s, r[0] + sep))
            && (|r| == 1 ==> r[0] == s)
  {
    var r := Split(s, sep);
    if HasPrefix(s, sep) {
      var q := Split(s[|sep|..], sep);
      SplitParts(s[|sep|..], sep);
      assert [] + sep == sep;
      forall i | 0 <= i < |r| - 1 ensures Clear(r[i], sep) {
        if i > 0 {
          assert r[i] == q[i - 1];
        }
      }
      assert r[|r| - 1] == q[|q| - 1];
    } else if s == [] {
      assert r == [[]];
    } else {
      var q := Split(s[1..], sep);
      SplitParts(s[1..], sep);
      HeadExtends(s, sep, q);
      forall i | 0 <= i < |r| - 1 ensures Clear(r[i], sep) {
        if i > 0 {
          assert r[i] == q[i];
        }
      }
      assert |r| > 1 ==> r[|r| - 1] == q[|q| - 1];
    }
  }

  // Split undoes Join for exactly these lists.
  lemma SplitUndoesJoin(parts: seq<string>, sep: string)
    requires sep != [] && parts != []
    ensures Split(Join(parts, sep), sep) == parts
            <==> AllClear(parts, sep) && !Contains(parts[|parts| - 1], sep)
  {
    SplitParts(Join(parts, sep), sep);
    if AllClear(parts, sep) && !Contains(parts[|parts| - 1], sep) {
      SplitJoin(parts, sep);
    }
  }

  // strings.SplitN(s, "=", 2) when it gives two parts.
  function Cut(s: string): (r: Option<(string, string)>)
    ensures r.Some? ==> s == r.value.0 + "=" + r.value.1 && '=' !in r.value.0
    ensures r.None? ==> '=' !in s
  {
    if s == [] then None
    else if s[0] == '=' then Some(([], s[1..]))
    else match Cut(s[1..])
      case None => None
      case Some(q) => Some(([s[0]] + q.0, q.1))
  }

  lemma {:induction false} CutAt(a: string, b: string)
    requires '=' !in a
    ensures Cut(a + "=" + b) == Some((a, b))
  {
    var s := a + "=" + b;
    if a == [] {
      assert s[1..] == b;
    } else {
      assert s[1..] == a[1..] + "=" + b;
      CutAt(a[1..], b);
      assert [a[0]] + a[1..] == a;
    }
  }
}
