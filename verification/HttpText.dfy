/** HTTP messages as header lines and a payload, and what searching and editing their text comes to. */
module HttpText {
  import opened Options
  import opened Words
  import opened Strings

  const CRLF := "\r\n"
  const BLANK := "\r\n\r\n"

  predicate Plain(s: string) { '\r' !in s && '\n' !in s }

  predicate LinesOk(lines: seq<string>) { lines != [] && forall i | 0 <= i < |lines| :: lines[i] != "" && Plain(lines[i]) }

  function Head(lines: seq<string>): string { if lines == [] then "" else lines[0] + CRLF + Head(lines[1..]) }

  /** The message (section 3 of RFC 7230): header lines, an empty line and the payload. */
  function Text(lines: seq<string>, payload: string): string { Head(lines) + CRLF + payload }

  function Offset(lines: seq<string>, k: nat): nat
    requires k <= |lines|
  {
    |Head(lines[..k])|
  }

  lemma {:induction false} HeadSplit(lines: seq<string>, k: nat)
    requires k <= |lines|
    ensures Head(lines) == Head(lines[..k]) + Head(lines[k..])
  {
    if k > 0 {
      HeadSplit(lines[1..], k - 1);
      assert lines[..k][1..] == lines[1..][..k - 1] && lines[1..][k - 1..] == lines[k..];
    } else {
      assert lines[..0] == [] && lines[0..] == lines;
    }
  }

  /** One differing character is enough. */
  lemma NotAt(s: string, p: string, j: nat, i: nat)
    requires i < |p| && (j + i < |s| ==> s[j + i] != p[i])
    ensures !At(s, p, j)
  {
    if j + |p| <= |s| { assert s[j..j + |p|][i] == s[j + i]; }
  }

  /** The text around line k. */
  lemma AroundLine(lines: seq<string>, payload: string, k: nat)
    requires k < |lines|
    ensures var a, z := Head(lines[..k]), Head(lines[k + 1..]) + CRLF + payload;
            Text(lines, payload) == a + lines[k] + CRLF + z && |a| == Offset(lines, k)
  {
    HeadSplit(lines, k);
    assert lines[k..][1..] == lines[k + 1..];
  }

  /** The end of line k, from anywhere in it. */
  lemma FindLineEnd(lines: seq<string>, payload: string, k: nat, pos: nat)
    requires LinesOk(lines) && k < |lines| && Offset(lines, k) <= pos <= Offset(lines, k) + |lines[k]|
    ensures Find(Text(lines, payload), CRLF, pos) == Some(Offset(lines, k) + |lines[k]|)
  {
    AroundLine(lines, payload, k);
    var s, a, l := Text(lines, payload), Offset(lines, k), lines[k];
    assert At(s, CRLF, a + |l|);
    forall j: nat | pos <= j < a + |l| ensures !At(s, CRLF, j) {
      assert s[j] == l[j - a];
      NotAt(s, CRLF, j, 0);
    }
    FindIs(s, CRLF, pos, a + |l|);
  }

  // ---------------------------------------------------------------- the empty line

  lemma AtShift(a: string, s: string, p: string, j: nat)
    ensures At(a + s, p, |a| + j) <==> At(s, p, j)
  {
    if |a| + j + |p| <= |a + s| { assert (a + s)[|a| + j..|a| + j + |p|] == s[j..j + |p|]; }
  }

  lemma {:induction false} NoBlankBefore(lines: seq<string>, payload: string, j: nat)
    requires LinesOk(lines) && j + 2 < |Head(lines)|
    ensures !At(Text(lines, payload), BLANK, j)
  {
    var l, t := lines[0], Text(lines[1..], payload);
    var s := Text(lines, payload);
    assert s == l + CRLF + t;
    if j >= |l| + 2 {
      assert lines[1..] != [];
      NoBlankBefore(lines[1..], payload, j - |l| - 2);
      AtShift(l + CRLF, t, BLANK, j - |l| - 2);
    } else if j == |l| {
      assert s[j + 2] == lines[1][0] && lines[1][0] in lines[1];
      NotAt(s, BLANK, j, 2);
    } else {
      assert j < |l| ==> s[j] == l[j] && l[j] in l;
      NotAt(s, BLANK, j, 0);
    }
  }

  lemma {:induction false} HeadEnds(lines: seq<string>)
    requires lines != []
    ensures |Head(lines)| >= 2 && Head(lines)[|Head(lines)| - 2..] == CRLF
  {
    if |lines| > 1 { HeadEnds(lines[1..]); }
  }

  /** The first empty line ends the header. */
  lemma FindBlank(lines: seq<string>, payload: string)
    requires LinesOk(lines)
    ensures |Head(lines)| >= 2 && Find(Text(lines, payload), BLANK, 0) == Some(|Head(lines)| - 2)
  {
    HeadEnds(lines);
    var s, h := Text(lines, payload), |Head(lines)| - 2;
    assert s[h..h + 4] == Head(lines)[h..] + CRLF;
    forall j: nat | j < h ensures !At(s, BLANK, j) { NoBlankBefore(lines, payload, j); }
    FindIs(s, BLANK, 0, h);
  }

  // ---------------------------------------------------------------- header names

  predicate Name(p: string) { p != "" && Plain(p) }

  /** Text without line ends occurs within a line or not at all. */
  lemma SkipLine(l: string, rest: string, p: string, j: nat)
    requires Name(p) && Plain(l) && !Contains(l, p) && j < |l| + 2
    ensures !At(l + CRLF + rest, p, j)
  {
    var s := l + CRLF + rest;
    if j + |p| <= |l| {
      assert s[j..j + |p|] == l[j..j + |p|];
      assert !At(l, p, j);
    } else {
      var i := if j <= |l| then |l| - j else 0;
      assert p[i] in p;
      NotAt(s, p, j, i);
    }
  }

  /** The first line in which p occurs, anywhere in the line. */
  function FirstLine(lines: seq<string>, p: string): (r: Option<nat>)
    ensures r == None <==> NoLine(lines, p)
    ensures r.Some? ==> r.value < |lines| && Contains(lines[r.value], p) && forall i | 0 <= i < r.value :: !Contains(lines[i], p)
  {
    if lines == [] then None
    else if Find(lines[0], p, 0).Some? then FindContains(lines[0], p); Some(0)
    else
      FindContains(lines[0], p);
      match FirstLine(lines[1..], p)
      case None => assert NoLine(lines[1..], p) && forall i | 0 < i < |lines| :: lines[i] == lines[1..][i - 1]; None
      case Some(k) => assert forall i | 0 < i < |lines| :: lines[i] == lines[1..][i - 1]; Some(k + 1)
  }

  ghost predicate NoLine(lines: seq<string>, p: string) { forall i | 0 <= i < |lines| :: !Contains(lines[i], p) }

  lemma {:induction false} NotBefore(lines: seq<string>, payload: string, p: string, k: nat, j: nat)
    requires LinesOk(lines) && Name(p) && k <= |lines| && (forall i | 0 <= i < k :: !Contains(lines[i], p)) && j < Offset(lines, k)
    ensures !At(Text(lines, payload), p, j)
  {
    if k > 0 {
      var l, t := lines[0], Text(lines[1..], payload);
      assert Text(lines, payload) == l + CRLF + t;
      assert lines[..k][1..] == lines[1..][..k - 1];
      if j < |l| + 2 {
        SkipLine(l, t, p, j);
      } else {
        assert |lines| > 1;
        NotBefore(lines[1..], payload, p, k - 1, j - |l| - 2);
        AtShift(l + CRLF, t, p, j - |l| - 2);
      }
    }
  }

  /** In the text p is found in the first line that has it, where it first occurs there. */
  lemma FindFirst(lines: seq<string>, payload: string, p: string, k: nat, o: nat)
    requires LinesOk(lines) && Name(p) && FirstLine(lines, p) == Some(k) && Find(lines[k], p, 0) == Some(o)
    ensures Find(Text(lines, payload), p, 0) == Some(Offset(lines, k) + o)
    ensures o + |p| <= |lines[k]| && Offset(lines, k) + |lines[k]| <= |Text(lines, payload)|
  {
    hide Head, Text, Find, Contains, At;
    AroundLine(lines, payload, k);
    FoundAt(lines[k], p, o);
    var s, a := Text(lines, payload), Offset(lines, k);
    var z := CRLF + (Head(lines[k + 1..]) + CRLF + payload);
    assert s == Head(lines[..k]) + (lines[k] + z);
    forall j: nat | j < a ensures !At(s, p, j) { NotBefore(lines, payload, p, k, j); }
    forall j: nat | a <= j <= a + o ensures At(s, p, j) <==> j == a + o {
      AtShift(Head(lines[..k]), lines[k] + z, p, j - a);
      AtPrefix(lines[k], z, p, j - a);
    }
    FindIs(s, p, 0, a + o);
  }

  lemma FoundAt(l: string, p: string, o: nat)
    requires Find(l, p, 0) == Some(o)
    ensures o + |p| <= |l| && At(l, p, o) && forall j: nat | j < o :: !At(l, p, j)
  {}

  lemma AtPrefix(l: string, z: string, p: string, j: nat)
    requires j + |p| <= |l|
    ensures At(l + z, p, j) <==> At(l, p, j)
  {
    assert (l + z)[j..j + |p|] == l[j..j + |p|];
  }

  lemma NotInHead(lines: seq<string>, payload: string, p: string, j: nat)
    requires LinesOk(lines) && Name(p) && NoLine(lines, p) && j < |Head(lines)| + 2
    ensures !At(Text(lines, payload), p, j)
  {
    if j < |Head(lines)| {
      assert lines[..|lines|] == lines;
      NotBefore(lines, payload, p, |lines|, j);
    } else {
      assert p[0] in p;
      NotAt(Text(lines, payload), p, j, 0);
    }
  }

  lemma InPayload(lines: seq<string>, payload: string, p: string, i: nat)
    ensures At(Text(lines, payload), p, |Head(lines)| + 2 + i) <==> At(payload, p, i)
  {
    assert Text(lines, payload) == (Head(lines) + CRLF) + payload;
    AtShift(Head(lines) + CRLF, payload, p, i);
  }

  /** With no such line it is found in the payload, if at all. */
  lemma FindInPayload(lines: seq<string>, payload: string, p: string)
    requires LinesOk(lines) && Name(p) && NoLine(lines, p)
    ensures Find(Text(lines, payload), p, 0) == match Find(payload, p, 0) case None => None case Some(i) => Some(|Head(lines)| + 2 + i)
  {
    hide Find, Head, Text;
    var s, h := Text(lines, payload), |Head(lines)| + 2;
    forall j: nat | j < h ensures !At(s, p, j) { NotInHead(lines, payload, p, j); }
    forall j: nat | j >= h ensures At(s, p, j) <==> At(payload, p, j - h) { InPayload(lines, payload, p, j - h); }
    match Find(payload, p, 0) {
      case Some(i) => FindIs(s, p, 0, h + i);
      case None =>
    }
  }

  // ---------------------------------------------------------------- editing lines

  lemma ReplaceMiddle(a: string, old_: string, z: string, v: string)
    ensures Replace(a + old_ + z, |a|, |old_|, v) == Some(a + v + z)
  {
    assert (a + old_ + z)[..|a|] == a && (a + old_ + z)[|a| + |old_|..] == z;
    if z == [] { assert (a + old_ + z)[|a + old_ + z|..] == z; }
  }

  /** Replacing the rest of a line. */
  lemma ReplaceTail(lines: seq<string>, payload: string, k: nat, n: nat, v: string)
    requires k < |lines| && n <= |lines[k]|
    ensures Replace(Text(lines, payload), Offset(lines, k) + n, |lines[k]| - n, v) == Some(Text(lines[k := lines[k][..n] + v], payload))
  {
    hide Head, Text, Replace;
    var p := lines[k][..n];
    AroundLine(lines, payload, k);
    AroundLine(lines[k := p + v], payload, k);
    assert lines[k := p + v][..k] == lines[..k] && lines[k := p + v][k + 1..] == lines[k + 1..];
    var a, l, z := Head(lines[..k]), lines[k], CRLF + Head(lines[k + 1..]) + CRLF + payload;
    assert l == p + l[n..];
    assert Text(lines, payload) == (a + p) + l[n..] + z;
    assert Text(lines[k := p + v], payload) == (a + p) + v + z;
    ReplaceMiddle(a + p, l[n..], z, v);
  }

  lemma InsertMiddle(a: string, z: string, v: string)
    ensures Insert(a + z, |a|, v) == Some(a + v + z)
  {
    assert (a + z)[..|a|] == a && (a + z)[|a|..] == z;
  }

  /** Inserting a line after another one. */
  lemma InsertLine(lines: seq<string>, payload: string, k: nat, l: string)
    requires k < |lines|
    ensures Insert(Text(lines, payload), Offset(lines, k) + |lines[k]| + 2, l + CRLF) == Some(Text(lines[..k + 1] + [l] + lines[k + 1..], payload))
  {
    var lines' := lines[..k + 1] + [l] + lines[k + 1..];
    AroundLine(lines, payload, k);
    AroundLine(lines', payload, k);
    assert lines'[..k] == lines[..k] && lines'[k + 1..] == [l] + lines[k + 1..];
    assert ([l] + lines[k + 1..])[1..] == lines[k + 1..];
    var a, z := Head(lines[..k]) + lines[k] + CRLF, Head(lines[k + 1..]) + CRLF + payload;
    assert Text(lines, payload) == a + z;
    assert Text(lines', payload) == a + (l + CRLF) + z;
    InsertMiddle(a, z, l + CRLF);
  }
}
