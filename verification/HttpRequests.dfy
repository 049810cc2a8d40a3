/**
  What update_headers of Enclave.cpp sets and what it keeps when done again, in terms of the request itself:
  its three edits cut lines off, and an edit finds the first line that has its text before the cuts.
*/
module HttpRequests {
  import opened Options
  import opened Strings
  import opened HttpText
  import opened HttpFraming

  // ---------------------------------------------------------------- what an edit leaves of a line

  /** A header name with the space that ends it. */
  predicate Header(p: string) { |p| > 3 && p[|p| - 1] == ' ' && forall i | 0 <= i < |p| - 1 :: p[i] != ' ' }

  /** Two names that do not end alike. */
  predicate Others(p: string, q: string) { Header(p) && Header(q) && p[|p| - 3] != q[|q| - 3] }

  lemma NamesOther()
    ensures Others(CONNECTION, HOST) && Others(CONNECTION, LENGTH) && Others(HOST, LENGTH)
    ensures Others(HOST, CONNECTION) && Others(LENGTH, CONNECTION) && Others(LENGTH, HOST)
  {}

  /** Where the one is, the other is not. */
  lemma NoOverlap(l: string, p: string, i: nat, q: string, j: nat)
    requires Others(p, q) && At(l, p, i) && At(l, q, j)
    ensures i + |p| <= j || j + |q| <= i
  {
    forall n | i <= n < i + |p| ensures l[n] == p[n - i] { assert l[i..i + |p|][n - i] == l[n]; }
    forall n | j <= n < j + |q| ensures l[n] == q[n - j] { assert l[j..j + |q|][n - j] == l[n]; }
    var d, e := i + |p| - 3, j + |q| - 3;
    assert l[d + 2] == l[e + 2] == ' ' && l[d] == p[|p| - 3] && l[e] == q[|q| - 3];
  }

  /** The line before the text. */
  function Stub(l: string, p: string): string { match Find(l, p, 0) case None => l case Some(o) => assert At(l, p, o); l[..o] }

  /** The text is where it has been, and before the cut. */
  predicate Left(l: string, p: string, q: string, j: nat) { At(l, q, j) && (Find(l, p, 0).Some? ==> j + |q| <= Find(l, p, 0).value) }

  lemma EditLeaves(l: string, p: string, v: string, q: string, j: nat)
    requires Others(p, q) && ' ' !in v
    ensures At(EditLine(l, p, v), q, j) <==> Left(l, p, q, j)
  {
    hide Find;
    if Find(l, p, 0).Some? {
      var o := Find(l, p, 0).value;
      FoundAt(l, p, o);
      var n, l' := o + |p|, EditLine(l, p, v);
      assert l' == l[..n] + v;
      if j + |q| <= n {
        assert l'[j..j + |q|] == l[j..j + |q|];
        if At(l, q, j) { NoOverlap(l, p, o, q, j); }
      } else if j + |q| <= |l'| {
        assert l'[j + |q| - 1] == v[j + |q| - 1 - n];
        NotAt(l', q, j, |q| - 1);
      }
    }
  }

  lemma StubLeaves(l: string, p: string, q: string, j: nat)
    ensures At(Stub(l, p), q, j) <==> Left(l, p, q, j)
  {
    hide Find;
    if Find(l, p, 0).Some? {
      var o := Find(l, p, 0).value;
      FoundAt(l, p, o);
      if j + |q| <= o { assert l[..o][j..j + |q|] == l[j..j + |q|]; }
    }
  }

  ghost predicate SameTexts(x: string, y: string, q: string) { forall j: nat :: At(x, q, j) <==> At(y, q, j) }

  lemma SameFind(x: string, y: string, q: string)
    requires SameTexts(x, y, q)
    ensures Find(x, q, 0) == Find(y, q, 0) && (Contains(x, q) <==> Contains(y, q))
  {
    hide Find, At;
    match Find(x, q, 0) {
      case None => FindNone(y, q, 0);
      case Some(i) => FindIs(y, q, 0, i);
    }
  }

  lemma SameAfter(x: string, y: string, p: string, v: string, q: string)
    requires SameTexts(x, y, p) && SameTexts(x, y, q) && Others(p, q) && ' ' !in v
    ensures SameTexts(EditLine(x, p, v), Stub(y, p), q)
  {
    hide Find, At, EditLine, Stub, Others;
    SameFind(x, y, p);
    forall j: nat ensures At(EditLine(x, p, v), q, j) <==> At(Stub(y, p), q, j) {
      EditLeaves(x, p, v, q, j);
      StubLeaves(y, p, q, j);
    }
  }

  lemma SameStubs(x: string, y: string, p: string)
    requires SameTexts(x, y, p)
    ensures SameTexts(Stub(x, p), Stub(y, p), p)
  {
    hide Find, At, Stub;
    SameFind(x, y, p);
    forall j: nat ensures At(Stub(x, p), p, j) <==> At(Stub(y, p), p, j) {
      StubLeaves(x, p, p, j);
      StubLeaves(y, p, p, j);
    }
  }

  /** What is not there does not come. */
  lemma NotMade(l: string, p: string, v: string, q: string)
    requires Others(p, q) && ' ' !in v && !Contains(l, q)
    ensures !Contains(EditLine(l, p, v), q) && !Contains(Stub(l, p), q)
  {
    hide Find, EditLine, Stub, Others;
    forall j: nat ensures !At(EditLine(l, p, v), q, j) && !At(Stub(l, p), q, j) {
      EditLeaves(l, p, v, q, j);
      StubLeaves(l, p, q, j);
    }
  }

  lemma StubHasNone(l: string, p: string)
    requires p != ""
    ensures !Contains(Stub(l, p), p)
  {
    hide Find, Stub;
    forall j: nat ensures !At(Stub(l, p), p, j) { StubLeaves(l, p, p, j); FindContains(l, p); }
  }

  /** An edit that leaves the text of another name leaves what the line says after it. */
  lemma SaysSame(l: string, q: string, w: string, p: string, v: string)
    requires Others(p, q) && ' ' !in v && ' ' !in w && Contains(EditLine(l, q, w), p)
    ensures EditLine(EditLine(l, q, w), p, v) == EditLine(l, q, w) <==> EditLine(l, p, v) == l
  {
    hide Find, EditLine, Contains;
    FindContains(EditLine(l, q, w), p);
    if Find(l, q, 0).Some? {
      var y := EditLine(l, q, w);
      var o, i := Find(l, q, 0).value, Find(y, p, 0).value;
      FoundAt(y, p, i);
      EditLeaves(l, q, w, p, i);
      forall j: nat | j < i ensures !At(l, p, j) { EditLeaves(l, q, w, p, j); }
      FindIs(l, p, 0, i);
      EditEnds(l, q, w, o);
      SpaceThere(l, q, w, o);
      EditEnds(l, p, v, i);
      EditEnds(y, p, v, i);
    } else {
      NoEdit(l, q, w);
    }
  }

  lemma SpaceThere(l: string, q: string, w: string, o: nat)
    requires Find(l, q, 0) == Some(o) && Header(q) && o + |q| <= |l|
    ensures |EditLine(l, q, w)| >= o + |q| && EditLine(l, q, w)[o + |q| - 1] == l[o + |q| - 1]
  {}

  lemma NoEdit(l: string, q: string, w: string)
    requires Find(l, q, 0) == None
    ensures EditLine(l, q, w) == l
  {}

  // ---------------------------------------------------------------- the same, of all lines

  /** The lines, with the first that has the text cut before it. */
  function Trim(lines: seq<string>, p: string): (r: seq<string>)
    ensures |r| == |lines|
  {
    match FirstLine(lines, p) case None => lines case Some(k) => lines[k := Stub(lines[k], p)]
  }

  ghost predicate SameAll(xs: seq<string>, ys: seq<string>, q: string) {
    |xs| == |ys| && forall i | 0 <= i < |xs| :: SameTexts(xs[i], ys[i], q)
  }

  lemma SameFirsts(xs: seq<string>, ys: seq<string>, q: string)
    requires SameAll(xs, ys, q)
    ensures FirstLine(xs, q) == FirstLine(ys, q)
  {
    hide SameTexts, Contains, FirstLine;
    forall i | 0 <= i < |xs| ensures Contains(xs[i], q) <==> Contains(ys[i], q) { SameFind(xs[i], ys[i], q); }
    FirstLineFacts(xs, q);
    match FirstLine(xs, q) {
      case None => FirstLineNone(ys, q);
      case Some(k) => FirstLineIs(ys, q, k);
    }
  }

  lemma TrimSame(xs: seq<string>, ys: seq<string>, p: string, v: string, q: string)
    requires SameAll(xs, ys, p) && SameAll(xs, ys, q) && Others(p, q) && ' ' !in v
    ensures SameAll(SetHeader(xs, p, v), Trim(ys, p), q)
  {
    hide SameTexts, FirstLine, EditLine, Stub, Others;
    SameFirsts(xs, ys, p);
    if FirstLine(xs, p).Some? {
      var k := FirstLine(xs, p).value;
      FirstIn(xs, p, k);
      SameAfter(xs[k], ys[k], p, v, q);
    }
  }

  lemma TrimOwn(xs: seq<string>, ys: seq<string>, p: string)
    requires SameAll(xs, ys, p)
    ensures SameAll(Trim(xs, p), Trim(ys, p), p)
  {
    hide SameTexts, FirstLine, Stub;
    SameFirsts(xs, ys, p);
    if FirstLine(xs, p).Some? {
      var k := FirstLine(xs, p).value;
      FirstIn(xs, p, k);
      SameStubs(xs[k], ys[k], p);
    }
  }

  lemma SameSelf(xs: seq<string>, q: string)
    ensures SameAll(xs, xs, q)
  {}

  lemma FirstLineFacts(lines: seq<string>, p: string)
    ensures match FirstLine(lines, p)
            case None => forall i | 0 <= i < |lines| :: !Contains(lines[i], p)
            case Some(k) => k < |lines| && Contains(lines[k], p) && forall i | 0 <= i < k :: !Contains(lines[i], p)
  {
    hide Contains;
  }

  lemma FirstLineNone(lines: seq<string>, p: string)
    requires forall i | 0 <= i < |lines| :: !Contains(lines[i], p)
    ensures FirstLine(lines, p) == None
  {
    hide Contains;
  }

  lemma FirstAfter(lines: seq<string>, h: nat, l: string, q: string)
    requires h < |lines| && !Contains(l, q)
    ensures FirstLine(After(lines, h, l), q) == match FirstLine(lines, q) case None => None case Some(i) => Some(if i <= h then i else i + 1)
  {
    hide Contains, FirstLine;
    var lines', i := After(lines, h, l), FirstLine(lines, q);
    var n := if i == None then |lines'| else if i.value <= h then i.value else i.value + 1;
    FirstLineFacts(lines, q);
    forall m | 0 <= m < n ensures !Contains(lines'[m], q) { AfterAt(lines, h, l, m); }
    if i.Some? {
      AfterAt(lines, h, l, n);
      FirstLineIs(lines', q, n);
    } else {
      FirstLineNone(lines', q);
    }
  }

  // ---------------------------------------------------------------- what the edits find, in the request

  /** The request, cut before the Connection text that is edited, and then before the Host text. */
  function Left1(lines: seq<string>): (r: seq<string>)
    ensures |r| == |lines|
  {
    Trim(lines, CONNECTION)
  }

  function Left2(lines: seq<string>): (r: seq<string>)
    ensures |r| == |lines|
  {
    Trim(Left1(lines), HOST)
  }

  /** A line is inserted, after line h. */
  predicate Inserted(lines: seq<string>, payload: string) { !Occurs(lines, payload, CONNECTION) && FirstLine(lines, HOST).Some? }

  /** Where line i is after the edits. */
  function Moved(lines: seq<string>, payload: string, i: nat): nat {
    if Inserted(lines, payload) && i > FirstLine(lines, HOST).value then i + 1 else i
  }

  function MovedTo(lines: seq<string>, payload: string, i: Option<nat>): Option<nat> {
    match i case None => None case Some(n) => Some(Moved(lines, payload, n))
  }

  lemma MovedApart(lines: seq<string>, payload: string)
    ensures forall i: Option<nat>, j: Option<nat> | MovedTo(lines, payload, i) == MovedTo(lines, payload, j) :: i == j
  {
    hide Find, Contains, FirstLine, Occurs;
  }

  /** The same lines in their new places, with an empty line for the inserted one. */
  function Spread(ys: seq<string>, lines: seq<string>, payload: string): seq<string>
    requires |ys| == |lines|
  {
    if Inserted(lines, payload) then After(ys, FirstLine(lines, HOST).value, "") else ys
  }

  lemma SpreadFirst(ys: seq<string>, lines: seq<string>, payload: string, q: string)
    requires |ys| == |lines| && q != ""
    ensures FirstLine(Spread(ys, lines, payload), q) == MovedTo(lines, payload, FirstLine(ys, q))
  {
    hide FirstLine, After, Contains, Occurs;
    if Inserted(lines, payload) {
      FirstIn(lines, HOST, FirstLine(lines, HOST).value);
      NoneInEmpty(q);
      FirstAfter(ys, FirstLine(lines, HOST).value, "", q);
    }
  }

  lemma NoneInEmpty(q: string)
    requires q != ""
    ensures !Contains("", q)
  {}

  lemma SpreadTrim(ys: seq<string>, lines: seq<string>, payload: string, p: string)
    requires |ys| == |lines| && p != ""
    ensures Trim(Spread(ys, lines, payload), p) == Spread(Trim(ys, p), lines, payload)
  {
    hide FirstLine, Contains, Occurs, Stub, After;
    SpreadFirst(ys, lines, payload, p);
    if Inserted(lines, payload) {
      FirstIn(lines, HOST, FirstLine(lines, HOST).value);
      if FirstLine(ys, p).Some? {
        var k := FirstLine(ys, p).value;
        FirstIn(ys, p, k);
        AfterUpdate(ys, FirstLine(lines, HOST).value, k, Stub(ys[k], p));
      }
    }
  }

  lemma AfterUpdate(ys: seq<string>, h: nat, k: nat, x: string)
    requires h < |ys| && k < |ys|
    ensures var m := if k <= h then k else k + 1;
            m < |After(ys, h, "")| && After(ys, h, "")[m] == ys[k] && After(ys, h, "")[m := x] == After(ys[k := x], h, "")
  {}

  /** After the first edit the texts of the other names are where they have been before the cut. */
  lemma ConnectionTexts(lines: seq<string>, payload: string, q: string)
    requires Request(lines) && (q == HOST || q == LENGTH)
    ensures SameAll(ConnectionLines(lines, payload), Spread(Left1(lines), lines, payload), q)
  {
    hide FirstLine, Begun, SameTexts, Find, After, LinesOk, Others;
    BegunFound(lines, HOST);
    NamesOther();
    SameSelf(lines, q);
    if Inserted(lines, payload) {
      var h := FirstLine(lines, HOST).value;
      FirstIn(lines, HOST, h);
      CloseTexts(q);
      InsertedTexts(lines, h, q);
    } else {
      SameSelf(lines, CONNECTION);
      TrimSame(lines, lines, CONNECTION, "Close", q);
    }
  }

  lemma CloseTexts(q: string)
    requires q == HOST || q == LENGTH
    ensures SameTexts(CLOSE, "", q)
  {
    CloseLine();
  }

  lemma InsertedTexts(lines: seq<string>, h: nat, q: string)
    requires h < |lines| && SameTexts(CLOSE, "", q)
    ensures SameAll(After(lines, h, CLOSE), After(lines, h, ""), q)
  {
    hide SameTexts, At, After;
    var xs, ys := After(lines, h, CLOSE), After(lines, h, "");
    AfterAt(lines, h, CLOSE, 0);
    AfterAt(lines, h, "", 0);
    forall i | 0 <= i < |xs| ensures SameTexts(xs[i], ys[i], q) {
      AfterAt(lines, h, CLOSE, i);
      AfterAt(lines, h, "", i);
      if i != h + 1 { SameText(xs[i], q); }
    }
  }

  lemma SameText(x: string, q: string)
    ensures SameTexts(x, x, q)
  {}

  /** The second edit finds the first line of the request with a Host text that the first has left. */
  lemma HostFound(lines: seq<string>, payload: string)
    requires Request(lines)
    ensures FirstLine(ConnectionLines(lines, payload), HOST) == MovedTo(lines, payload, FirstLine(Left1(lines), HOST))
  {
    hide Request, FirstLine, SameAll, ConnectionLines, Spread, Trim, MovedTo;
    ConnectionTexts(lines, payload, HOST);
    SameFirsts(ConnectionLines(lines, payload), Spread(Left1(lines), lines, payload), HOST);
    SpreadFirst(Left1(lines), lines, payload, HOST);
  }

  /** And so does the last. */
  lemma LengthFound(lines: seq<string>, payload: string, a: string)
    requires Request(lines) && ' ' !in a
    ensures FirstLine(HostLines(lines, payload, a), LENGTH) == MovedTo(lines, payload, FirstLine(Left2(lines), LENGTH))
  {
    hide Request, FirstLine, SameAll, ConnectionLines, Spread, Trim, MovedTo, Others, SetHeader;
    NamesOther();
    ConnectionTexts(lines, payload, HOST);
    ConnectionTexts(lines, payload, LENGTH);
    TrimSame(ConnectionLines(lines, payload), Spread(Left1(lines), lines, payload), HOST, a, LENGTH);
    SpreadTrim(Left1(lines), lines, payload, HOST);
    SameFirsts(HostLines(lines, payload, a), Spread(Left2(lines), lines, payload), LENGTH);
    SpreadFirst(Left2(lines), lines, payload, LENGTH);
  }

  // ---------------------------------------------------------------- which headers are set

  lemma BeginsSame(l: string, p: string, v: string, q: string)
    requires p != "" && (p == q || (Others(p, q) && ' ' !in v))
    ensures q <= EditLine(l, p, v) <==> q <= l
  {
    hide Find, EditLine, Others;
    if p == q {
      BeginsAtZero(l, p, v);
    } else {
      EditLeaves(l, p, v, q, 0);
      if At(l, q, 0) && Find(l, p, 0).Some? {
        FoundAt(l, p, Find(l, p, 0).value);
        NoOverlap(l, p, Find(l, p, 0).value, q, 0);
        NotEmpty(p, q);
      }
      AtBegin(l, q);
      AtBegin(EditLine(l, p, v), q);
    }
  }

  lemma NotEmpty(p: string, q: string)
    requires Others(p, q)
    ensures |p| > 0 && |q| > 0
  {}

  lemma AtBegin(l: string, q: string)
    ensures At(l, q, 0) <==> q <= l
  {}

  /** An edit leaves a header where it is. */
  lemma HeaderKept(lines: seq<string>, p: string, v: string, q: string, j: nat)
    requires HeaderAt(lines, q, j) && p != "" && (p == q || (Others(p, q) && ' ' !in v))
    ensures HeaderAt(SetHeader(lines, p, v), q, j)
  {
    hide FirstLine, EditLine, Others;
    forall i | 0 <= i < |lines| ensures q <= SetHeader(lines, p, v)[i] <==> q <= lines[i] { BeginsSame(lines[i], p, v, q); }
  }

  lemma HeaderAfter(lines: seq<string>, h: nat, l: string, q: string, j: nat)
    requires HeaderAt(lines, q, j) && h < |lines| && !(q <= l)
    ensures HeaderAt(After(lines, h, l), q, if j <= h then j else j + 1)
  {
    forall m | 0 <= m <= |lines| ensures After(lines, h, l)[m] == if m <= h then lines[m] else if m == h + 1 then l else lines[m - 1] { AfterAt(lines, h, l, m); }
    hide After;
  }

  lemma HeaderMoves(lines: seq<string>, payload: string, a: string, q: string, j: nat)
    requires Request(lines) && Address(a) && HeaderAt(lines, q, j) && (q == HOST || q == LENGTH)
    ensures var m := Moved(lines, payload, j);
            HeaderAt(ConnectionLines(lines, payload), q, m) && HeaderAt(HostLines(lines, payload, a), q, m) && HeaderAt(NextLines(lines, payload, a), q, m)
  {
    hide Begun, FirstLine, Find, After, SetHeader, HeaderAt, Others, ConnectionPayload;
    var m := Moved(lines, payload, j);
    NamesOther();
    BegunFound(lines, HOST);
    if Inserted(lines, payload) {
      FirstIn(lines, HOST, FirstLine(lines, HOST).value);
      HeaderAfter(lines, FirstLine(lines, HOST).value, CLOSE, q, j);
    } else {
      HeaderKept(lines, CONNECTION, "Close", q, j);
    }
    HeaderKept(ConnectionLines(lines, payload), HOST, a, q, m);
    DecimalPlain(|ConnectionPayload(lines, payload)|);
    HeaderKept(HostLines(lines, payload, a), LENGTH, Decimal(|ConnectionPayload(lines, payload)|), q, m);
  }

  /** A line that is just a header with a value has no other text. */
  lemma HeaderAlone(p: string, v: string, q: string)
    requires Others(p, q) && ' ' !in v
    ensures !Contains(p + v, q)
  {
    forall n | 0 <= n < |p + v| && n != |p| - 1 ensures (p + v)[n] != ' ' { if n >= |p| { assert (p + v)[n] == v[n - |p|]; } }
    forall j: nat ensures !At(p + v, q, j) { NotAt(p + v, q, j, if j + |q| == |p| then |q| - 3 else |q| - 1); }
  }

  lemma ConnectionLineAt(lines: seq<string>, payload: string, i: nat)
    requires Request(lines) && i < |lines|
    ensures var lines1, m := ConnectionLines(lines, payload), Moved(lines, payload, i);
            m < |lines1| && lines1[m] == if FirstLine(lines, CONNECTION) == Some(i) then EditLine(lines[i], CONNECTION, "Close") else lines[i]
  {
    hide Contains, Begun, Find, EditLine, FirstLine, After, LinesOk;
    BegunFound(lines, HOST);
    if !Occurs(lines, payload, CONNECTION) {
      FirstIn(lines, HOST, FirstLine(lines, HOST).value);
      AfterAt(lines, FirstLine(lines, HOST).value, CLOSE, Moved(lines, payload, i));
    }
  }

  /** An edited line has its name, before and after. */
  lemma EditedHas(lines: seq<string>, p: string, v: string, k: nat)
    requires FirstLine(lines, p) == Some(k)
    ensures k < |lines| && Contains(lines[k], p) && Contains(EditLine(lines[k], p, v), p) && SetHeader(lines, p, v)[k] == EditLine(lines[k], p, v)
  {
    hide Contains, EditLine, FirstLine;
    FirstIn(lines, p, k);
    FindContains(lines[k], p);
    EditedThere(lines[k], p, v, Find(lines[k], p, 0).value);
    FindContains(EditLine(lines[k], p, v), p);
  }

  /** A line says just that after the first edit if it did before. */
  lemma ConnectionSame(lines: seq<string>, payload: string, q: string, v: string, i: nat)
    requires Request(lines) && i < |lines| && (q == HOST || q == LENGTH) && ' ' !in v
    ensures var lines1, m := ConnectionLines(lines, payload), Moved(lines, payload, i); m < |lines1| && (lines1[m] == q + v <==> lines[i] == q + v)
  {
    hide Contains, Begun, EditLine, ConnectionLines, FirstLine, Moved, Others, SetHeader;
    ConnectionLineAt(lines, payload, i);
    NamesOther();
    HeaderAlone(q, v, CONNECTION);
    if FirstLine(lines, CONNECTION) == Some(i) { EditedHas(lines, CONNECTION, "Close", i); }
  }

  /**
    The Host header that is sent on (section 5.4 of RFC 7230) names the next hop exactly if it is the first
    line of the request with a Host text that is not behind the Connection text that is edited, or says so already.
   */
  lemma HostSetExactly(lines: seq<string>, payload: string, a: string, h: nat)
    requires Request(lines) && Address(a) && HeaderAt(lines, HOST, h)
    ensures var out, m := NextLines(lines, payload, a), Moved(lines, payload, h);
            HeaderAt(out, HOST, m) && (out[m] == HOST + a <==> FirstLine(Left1(lines), HOST) == Some(h) || lines[h] == HOST + a)
  {
    hide Begun, FirstLine, ConnectionLines, NextLines, Moved, Left1;
    HeaderMoves(lines, payload, a, HOST, h);
    HostSetLines(lines, payload, a, Moved(lines, payload, h));
    HostFound(lines, payload);
    MovedApart(lines, payload);
    assert Moved(lines, payload, h) == MovedTo(lines, payload, Some(h)).value;
    ConnectionSame(lines, payload, HOST, a, h);
  }

  /**
    Its Content-Length header (section 3.3.2 of RFC 7230) is the length of its payload exactly if it is the first
    line of the request with such a text that is not behind one that an earlier edit finds, or says so already.
   */
  lemma LengthSetExactly(lines: seq<string>, payload: string, a: string, l: nat)
    requires Request(lines) && Address(a) && HeaderAt(lines, LENGTH, l)
    ensures var out, m, d := NextLines(lines, payload, a), Moved(lines, payload, l), LENGTH + Decimal(|NextPayload(lines, payload, a)|);
            HeaderAt(out, LENGTH, m) && (out[m] == d <==> FirstLine(Left2(lines), LENGTH) == Some(l) || lines[l] == d)
  {
    hide Begun, FirstLine, ConnectionLines, HostLines, NextLines, NextPayload, Moved, Left2;
    var n := |NextPayload(lines, payload, a)|;
    HeaderBegun(lines, LENGTH, l);
    HeaderMoves(lines, payload, a, LENGTH, l);
    LengthSetLines(lines, payload, a, Moved(lines, payload, l));
    LengthFound(lines, payload, a);
    MovedApart(lines, payload);
    assert Moved(lines, payload, l) == MovedTo(lines, payload, Some(l)).value;
    DecimalPlain(n);
    ConnectionSame(lines, payload, LENGTH, Decimal(n), l);
    HostSame(lines, payload, a, LENGTH, Decimal(n), Moved(lines, payload, l));
  }

  lemma HeaderBegun(lines: seq<string>, p: string, j: nat)
    requires HeaderAt(lines, p, j)
    ensures Begun(lines, p)
  {}

  lemma HostSame(lines: seq<string>, payload: string, a: string, q: string, v: string, m: nat)
    requires m < |ConnectionLines(lines, payload)| && q == LENGTH && ' ' !in v
    ensures HostLines(lines, payload, a)[m] == q + v <==> ConnectionLines(lines, payload)[m] == q + v
  {
    hide Contains, EditLine, ConnectionLines, FirstLine, Others;
    NamesOther();
    HeaderAlone(q, v, HOST);
    if FirstLine(ConnectionLines(lines, payload), HOST) == Some(m) { EditedHas(ConnectionLines(lines, payload), HOST, a, m); }
  }

  // ---------------------------------------------------------------- what a second call finds

  function Left3(lines: seq<string>): (r: seq<string>)
    ensures |r| == |lines|
  {
    Trim(Left2(lines), LENGTH)
  }

  /** Line k says v after its first such text. */
  ghost predicate SaysAt(lines: seq<string>, k: Option<nat>, p: string, v: string) {
    k.Some? && k.value < |lines| && EditLine(lines[k.value], p, v) == lines[k.value]
  }

  /** The last edit does not cut off the Host text that was set, or the next one says the same. */
  ghost predicate KeepsHost(lines: seq<string>, a: string) {
    FirstLine(Left2(lines), LENGTH) != FirstLine(Left1(lines), HOST) || SaysAt(lines, FirstLine(Left2(lines), HOST), HOST, a)
  }

  /** Neither of the later edits cuts off the Connection text that was set, or the next one, in a line or in the payload, says the same. */
  ghost predicate KeepsClose(lines: seq<string>, payload: string) {
    var c := FirstLine(lines, CONNECTION);
    c == None || (FirstLine(Left1(lines), HOST) != c && FirstLine(Left2(lines), LENGTH) != c)
    || if FirstLine(Left3(lines), CONNECTION).Some? then SaysAt(lines, FirstLine(Left3(lines), CONNECTION), CONNECTION, "Close")
       else Find(payload, CONNECTION, 0).Some? && Says(payload, CONNECTION, "Close")
  }

  /** An edit of another line keeps what a line says; one of the same line cuts its text off. */
  lemma LaterEdit(ms: seq<string>, p: string, v: string, q: string, w: string)
    requires SaysLine(ms, p, v) && Others(p, q) && Others(q, p) && ' ' !in v && ' ' !in w
    ensures var out, k := SetHeader(ms, q, w), FirstLine(ms, p).value;
            && k < |ms| && (forall i | 0 <= i < |ms| && FirstLine(ms, q) != Some(i) :: out[i] == ms[i])
            && (FirstLine(ms, q) != Some(k) ==> SaysLine(out, p, v) && FirstLine(out, p) == Some(k))
            && (FirstLine(ms, q) == Some(k) ==> !Contains(out[k], p))
  {
    hide Contains, EditLine, FirstLine, Others;
    var out, k := SetHeader(ms, q, w), FirstLine(ms, p).value;
    FirstIn(ms, p, k);
    if FirstLine(ms, q) == Some(k) {
      FirstIn(ms, q, k);
      CutOff(ms[k], p, v, q, w);
    } else {
      forall i | 0 <= i < k ensures !Contains(out[i], p) { EarlierNone(ms, q, w, p, i); }
      FirstLineIs(out, p, k);
    }
  }

  lemma EarlierNone(ms: seq<string>, q: string, w: string, p: string, i: nat)
    requires i < |ms| && !Contains(ms[i], p) && Others(q, p) && ' ' !in w
    ensures !Contains(SetHeader(ms, q, w)[i], p)
  {
    hide Contains, EditLine, Others;
    NotMade(ms[i], q, w, p);
  }

  /** If a line says v, other text in it is before p, and the edit of that cuts p off. */
  lemma CutOff(l: string, p: string, v: string, q: string, w: string)
    requires Contains(l, p) && Contains(l, q) && EditLine(l, p, v) == l && Others(p, q) && Others(q, p) && ' ' !in v && ' ' !in w
    ensures !Contains(EditLine(l, q, w), p)
  {
    hide Find, EditLine, Others;
    FindContains(l, p);
    FindContains(l, q);
    var i, o := Find(l, p, 0).value, Find(l, q, 0).value;
    FoundAt(l, p, i);
    FoundAt(l, q, o);
    NotEmpty(p, q);
    EditLeaves(l, p, v, q, o);
    forall j: nat ensures !At(EditLine(l, q, w), p, j) { EditLeaves(l, q, w, p, j); }
  }

  /** Trimming sees no difference between a line and its edit. */
  lemma TrimEdited(xs: seq<string>, p: string, v: string)
    ensures Trim(SetHeader(xs, p, v), p) == Trim(xs, p)
  {
    hide Contains, EditLine, FirstLine, Find;
    if FirstLine(xs, p).Some? {
      var k := FirstLine(xs, p).value;
      FirstIn(xs, p, k);
      EditedFirst(xs, p, v, k);
      FindContains(xs[k], p);
      SameStub(xs[k], p, v);
    }
  }

  lemma SameStub(l: string, p: string, v: string)
    requires Find(l, p, 0).Some?
    ensures Stub(EditLine(l, p, v), p) == Stub(l, p)
  {
    hide Find;
    var o := Find(l, p, 0).value;
    FoundAt(l, p, o);
    EditedThere(l, p, v, o);
    assert l[..o + |p|][..o] == l[..o];
  }

  /** The next line with the text, when the edited one has lost it. */
  lemma NextOne(ms: seq<string>, out: seq<string>, p: string, k: nat)
    requires p != "" && FirstLine(ms, p) == Some(k) && |out| == |ms| && k < |ms| && !Contains(out[k], p) && forall i | 0 <= i < |ms| && i != k :: out[i] == ms[i]
    ensures FirstLine(out, p) == FirstLine(Trim(ms, p), p) != Some(k)
  {
    hide Contains, Stub, FirstLine, Find;
    StubHasNone(ms[k], p);
    var ys := Trim(ms, p);
    forall i | 0 <= i < |ms| ensures Contains(out[i], p) <==> Contains(ys[i], p) { if i != k { assert ys[i] == ms[i] == out[i]; } }
    FirstLineFacts(ys, p);
    match FirstLine(ys, p) {
      case None => FirstLineNone(out, p);
      case Some(i) => FirstLineIs(out, p, i);
    }
  }

  /** What line i of the request says of the host, it says after the first edit, if that has left it. */
  lemma ConnectionSays(lines: seq<string>, payload: string, a: string, i: nat)
    requires Request(lines) && ' ' !in a && i < |lines|
    ensures var lines1, m := ConnectionLines(lines, payload), Moved(lines, payload, i);
            m < |lines1| && (Contains(lines1[m], HOST) ==> (EditLine(lines1[m], HOST, a) == lines1[m] <==> EditLine(lines[i], HOST, a) == lines[i]))
  {
    hide Request, Contains, EditLine, ConnectionLines, FirstLine, Moved, Others;
    ConnectionLineAt(lines, payload, i);
    NamesOther();
    if FirstLine(lines, CONNECTION) == Some(i) && Contains(EditLine(lines[i], CONNECTION, "Close"), HOST) { SaysSame(lines[i], CONNECTION, "Close", HOST, a); }
  }

  /** The Host text that comes next once that of line h is gone, in the request and after the first two edits. */
  lemma NextHost(lines: seq<string>, payload: string, a: string)
    requires Request(lines)
    ensures FirstLine(Trim(HostLines(lines, payload, a), HOST), HOST) == MovedTo(lines, payload, FirstLine(Left2(lines), HOST))
  {
    hide Request, FirstLine, SameAll, ConnectionLines, Spread, Trim, MovedTo, SetHeader;
    TrimEdited(ConnectionLines(lines, payload), HOST, a);
    ConnectionTexts(lines, payload, HOST);
    TrimOwn(ConnectionLines(lines, payload), Spread(Left1(lines), lines, payload), HOST);
    SpreadTrim(Left1(lines), lines, payload, HOST);
    SameFirsts(Trim(ConnectionLines(lines, payload), HOST), Spread(Left2(lines), lines, payload), HOST);
    SpreadFirst(Left2(lines), lines, payload, HOST);
  }

  lemma FirstBegun(lines: seq<string>, payload: string)
    requires Request(lines)
    ensures FirstLine(ConnectionLines(lines, payload), HOST).Some?
  {
    hide Begun, FirstLine, ConnectionLines;
    ConnectionOk(lines, payload);
    BegunFound(ConnectionLines(lines, payload), HOST);
  }

  lemma HostKeptExactly(lines: seq<string>, payload: string, a: string)
    requires Request(lines) && ' ' !in a
    ensures SaysLine(NextLines(lines, payload, a), HOST, a) <==> KeepsHost(lines, a)
  {
    hide Request, FirstLine, ConnectionLines, ConnectionPayload, SetHeader, SaysLine, EditLine, Left1, Left2, MovedTo, Contains, Others;
    var lines1, ms, d := ConnectionLines(lines, payload), HostLines(lines, payload, a), Decimal(|ConnectionPayload(lines, payload)|);
    NamesOther();
    DecimalPlain(|ConnectionPayload(lines, payload)|);
    FirstBegun(lines, payload);
    SaysAfter(lines1, HOST, a);
    EditedFirst(lines1, HOST, a, FirstLine(lines1, HOST).value);
    HostFound(lines, payload);
    LengthFound(lines, payload, a);
    MovedApart(lines, payload);
    LaterEdit(ms, HOST, a, LENGTH, d);
    if FirstLine(ms, LENGTH) == FirstLine(ms, HOST) {
      var k := FirstLine(ms, HOST).value;
      NextOne(ms, NextLines(lines, payload, a), HOST, k);
      NextHost(lines, payload, a);
      NextSays(lines, payload, a, k);
    }
  }

  lemma NextSays(lines: seq<string>, payload: string, a: string, k: nat)
    requires Request(lines) && ' ' !in a
    requires var out := NextLines(lines, payload, a);
             && FirstLine(ConnectionLines(lines, payload), HOST) == Some(k) != FirstLine(out, HOST)
             && FirstLine(out, HOST) == MovedTo(lines, payload, FirstLine(Left2(lines), HOST))
             && forall i | 0 <= i < |out| && i != k :: i < |HostLines(lines, payload, a)| && out[i] == HostLines(lines, payload, a)[i]
    ensures SaysLine(NextLines(lines, payload, a), HOST, a) <==> SaysAt(lines, FirstLine(Left2(lines), HOST), HOST, a)
  {
    hide Request, FirstLine, ConnectionLines, EditLine, Left2, Contains, NextLines, Moved;
    var out := NextLines(lines, payload, a);
    if FirstLine(out, HOST).Some? {
      FirstIn(out, HOST, FirstLine(out, HOST).value);
      var i := FirstLine(Left2(lines), HOST).value;
      FirstIn(Left2(lines), HOST, i);
      ConnectionSays(lines, payload, a, i);
    }
  }

  // ---- the Connection text

  lemma FirstInserted(lines: seq<string>, h: nat, l: string, p: string)
    requires h < |lines| && FirstLine(lines, p) == None && Contains(l, p)
    ensures FirstLine(After(lines, h, l), p) == Some(h + 1) && After(lines, h, l)[h + 1] == l
  {
    hide Contains, FirstLine;
    var lines' := After(lines, h, l);
    FirstLineFacts(lines, p);
    forall m | 0 <= m < h + 1 ensures !Contains(lines'[m], p) { AfterAt(lines, h, l, m); }
    FirstLineIs(lines', p, h + 1);
  }

  lemma CloseInserted(lines: seq<string>, h: nat)
    requires h < |lines| && FirstLine(lines, CONNECTION) == None
    ensures SaysLine(After(lines, h, CLOSE), CONNECTION, "Close")
  {
    hide Contains, EditLine, FirstLine, After;
    EditClose();
    FirstInserted(lines, h, CLOSE, CONNECTION);
  }

  lemma EditClose()
    ensures EditLine(CLOSE, CONNECTION, "Close") == CLOSE && Contains(CLOSE, CONNECTION)
  {
    FixedNames();
    assert At(CLOSE, CONNECTION, 0);
    FindIs(CLOSE, CONNECTION, 0, 0);
  }

  lemma LineOfClose(a: string, z: string, n: nat)
    requires |a| == n && (z == "" || (|z| >= 2 && z[..2] == CRLF))
    ensures Find(a + "Close" + z, CRLF, n) == if z == "" then None else Some(n + 5)
  {
    var s := a + "Close" + z;
    forall j: nat | n <= j < n + 5 ensures !At(s, CRLF, j) {
      assert s[j] == "Close"[j - n] && "Close"[j - n] in "Close";
      NotAt(s, CRLF, j, 0);
    }
    if z == "" {
      FindNone(s, CRLF, n);
    } else {
      assert s[n + 5..n + 7] == z[..2];
      FindIs(s, CRLF, n, n + 5);
    }
  }

  lemma OverwrittenSays(payload: string)
    requires Find(payload, CONNECTION, 0).Some?
    ensures Find(Overwritten(payload, CONNECTION, "Close"), CONNECTION, 0).Some? && Says(Overwritten(payload, CONNECTION, "Close"), CONNECTION, "Close")
  {
    hide Find;
    FixedNames();
    var i := Find(payload, CONNECTION, 0).value;
    FoundAt(payload, CONNECTION, i);
    var n := i + 12;
    var e := EndOfLine(payload, n);
    var p := Overwritten(payload, CONNECTION, "Close");
    assert p == payload[..n] + "Close" + payload[e..];
    SamePrefix(payload, p, CONNECTION, 0, i);
    if Find(payload, CRLF, n).Some? { FoundAtFrom(payload, CRLF, n); }
    LineOfClose(payload[..n], payload[e..], n);
  }

  lemma FoundAtFrom(s: string, p: string, from: nat)
    requires Find(s, p, from).Some?
    ensures At(s, p, Find(s, p, from).value)
  {}

  lemma NoneStays(xs: seq<string>, q: string, w: string, p: string)
    requires FirstLine(xs, p) == None && Others(q, p) && ' ' !in w
    ensures FirstLine(SetHeader(xs, q, w), p) == None
  {
    hide Contains, FirstLine, SetHeader, Others;
    FirstLineFacts(xs, p);
    forall i | 0 <= i < |xs| ensures !Contains(SetHeader(xs, q, w)[i], p) { EarlierNone(xs, q, w, p, i); }
    FirstLineNone(SetHeader(xs, q, w), p);
  }

  /** In the payload it is not touched again. */
  lemma ClosePayload(lines: seq<string>, payload: string, a: string)
    requires Request(lines) && Begun(lines, LENGTH) && Address(a) && FirstLine(lines, CONNECTION) == None && Occurs(lines, payload, CONNECTION)
    ensures SaysClose(NextLines(lines, payload, a), NextPayload(lines, payload, a))
  {
    hide Find, FirstLine, SetHeader, Begun, Overwritten, Says, SaysLine, Others;
    NamesOther();
    DecimalPlain(|ConnectionPayload(lines, payload)|);
    LengthLine(lines, payload, a);
    SameLines(lines, CONNECTION, "Close");
    NoneStays(ConnectionLines(lines, payload), HOST, a, CONNECTION);
    NoneStays(HostLines(lines, payload, a), LENGTH, Decimal(|ConnectionPayload(lines, payload)|), CONNECTION);
    OverwrittenSays(payload);
  }

  /** Nor is the inserted line, which has no other text. */
  lemma CloseLineStays(lines: seq<string>, payload: string, a: string)
    requires Request(lines) && Address(a) && !Occurs(lines, payload, CONNECTION)
    ensures SaysClose(NextLines(lines, payload, a), NextPayload(lines, payload, a))
  {
    hide Find, FirstLine, SetHeader, Begun, Says, SaysLine, Others, Contains, After, NextPayload, ConnectionPayload, EditLine;
    NamesOther();
    DecimalPlain(|ConnectionPayload(lines, payload)|);
    BegunFound(lines, HOST);
    CloseLine();
    EditClose();
    var h := FirstLine(lines, HOST).value;
    FirstIn(lines, HOST, h);
    FirstInserted(lines, h, CLOSE, CONNECTION);
    CloseInserted(lines, h);
    var lines1, ms := ConnectionLines(lines, payload), HostLines(lines, payload, a);
    NotThere(lines1, HOST, h + 1);
    LaterEdit(lines1, CONNECTION, "Close", HOST, a);
    NotThere(ms, LENGTH, h + 1);
    LaterEdit(ms, CONNECTION, "Close", LENGTH, Decimal(|ConnectionPayload(lines, payload)|));
    SaysFirst(NextLines(lines, payload, a), CONNECTION, "Close");
  }

  lemma NotThere(lines: seq<string>, q: string, i: nat)
    requires i < |lines| && !Contains(lines[i], q)
    ensures FirstLine(lines, q) != Some(i)
  {
    FirstLineFacts(lines, q);
    hide Contains, FirstLine;
  }

  /** Line k of ys has no such text, and all others have it where those of xs have it. */
  ghost predicate Away(xs: seq<string>, ys: seq<string>, k: nat, p: string) {
    |xs| == |ys| && k < |ys| && !Contains(ys[k], p) && forall i | 0 <= i < |xs| && i != k :: SameTexts(xs[i], ys[i], p)
  }

  lemma AwayTrim(xs: seq<string>, ys: seq<string>, k: nat, p: string, q: string, w: string)
    requires Away(xs, ys, k, p) && SameAll(xs, ys, q) && Others(q, p) && ' ' !in w
    ensures Away(SetHeader(xs, q, w), Trim(ys, q), k, p)
  {
    hide SameTexts, Contains, FirstLine, EditLine, Stub, Others;
    SameFirsts(xs, ys, q);
    if FirstLine(xs, q).Some? {
      var n := FirstLine(xs, q).value;
      FirstIn(xs, q, n);
      if n == k { NotMade(ys[k], q, w, p); } else { SameAfter(xs[n], ys[n], q, w, p); }
    }
  }

  lemma AwayFirst(xs: seq<string>, ys: seq<string>, k: nat, p: string)
    requires Away(xs, ys, k, p) && !Contains(xs[k], p)
    ensures FirstLine(xs, p) == FirstLine(ys, p) != Some(k)
  {
    hide SameTexts, Contains, FirstLine;
    forall i | 0 <= i < |xs| ensures Contains(xs[i], p) <==> Contains(ys[i], p) { if i != k { SameFind(xs[i], ys[i], p); } }
    FirstLineFacts(xs, p);
    match FirstLine(xs, p) {
      case None => FirstLineNone(ys, p);
      case Some(i) => FirstLineIs(ys, p, i);
    }
  }

  lemma AwayAtFirst(lines: seq<string>, p: string, v: string, k: nat)
    requires FirstLine(lines, p) == Some(k) && p != ""
    ensures Away(SetHeader(lines, p, v), Trim(lines, p), k, p)
  {
    hide SameTexts, Contains, FirstLine, EditLine, Stub;
    FirstIn(lines, p, k);
    StubHasNone(lines[k], p);
    forall i | 0 <= i < |lines| && i != k ensures SameTexts(SetHeader(lines, p, v)[i], Trim(lines, p)[i], p) { SameText(lines[i], p); }
  }

  lemma StepSays(xs: seq<string>, q: string, w: string, p: string, v: string, i: nat)
    requires i < |xs| && Contains(SetHeader(xs, q, w)[i], p) && Others(p, q) && Others(q, p) && ' ' !in v && ' ' !in w
    ensures Contains(xs[i], p) && (EditLine(SetHeader(xs, q, w)[i], p, v) == SetHeader(xs, q, w)[i] <==> EditLine(xs[i], p, v) == xs[i])
  {
    hide Contains, FirstLine, EditLine, Others;
    if FirstLine(xs, q) == Some(i) {
      SaysSame(xs[i], q, w, p, v);
      if !Contains(xs[i], p) { NotMade(xs[i], q, w, p); }
    }
  }

  /** A request with a Connection text in a line: how the edits find the lines. */
  lemma CloseFound(lines: seq<string>, payload: string, a: string, c: nat)
    requires Request(lines) && ' ' !in a && FirstLine(lines, CONNECTION) == Some(c)
    ensures var lines1, ms := ConnectionLines(lines, payload), HostLines(lines, payload, a);
            && lines1 == SetHeader(lines, CONNECTION, "Close") && SaysLine(lines1, CONNECTION, "Close") && FirstLine(lines1, CONNECTION) == Some(c) && c < |lines|
            && FirstLine(lines1, HOST) == FirstLine(Left1(lines), HOST) && FirstLine(ms, LENGTH) == FirstLine(Left2(lines), LENGTH)
            && SameAll(lines1, Left1(lines), HOST) && SameAll(ms, Left2(lines), LENGTH)
  {
    hide LinesOk, Begun, FirstLine, SetHeader, SaysLine, EditLine, Trim, Contains, Others, SameAll, Find, After, Left1, Left2;
    NamesOther();
    FirstIn(lines, CONNECTION, c);
    SaysAfter(lines, CONNECTION, "Close");
    EditedFirst(lines, CONNECTION, "Close", c);
    HostFound(lines, payload);
    LengthFound(lines, payload, a);
    ConnectionTexts(lines, payload, HOST);
    ConnectionTexts(lines, payload, LENGTH);
    TrimSame(ConnectionLines(lines, payload), Left1(lines), HOST, a, LENGTH);
    LeftIs(lines);
  }

  lemma LeftIs(lines: seq<string>)
    ensures Left2(lines) == Trim(Left1(lines), HOST) && Left1(lines) == Trim(lines, CONNECTION)
  {}

  /** It is cut off exactly if a later edit finds its line. */
  lemma CloseCut(lines: seq<string>, payload: string, a: string, c: nat)
    requires Request(lines) && ' ' !in a && FirstLine(lines, CONNECTION) == Some(c)
    ensures var out := NextLines(lines, payload, a);
            if FirstLine(Left1(lines), HOST) != Some(c) && FirstLine(Left2(lines), LENGTH) != Some(c) then SaysLine(out, CONNECTION, "Close")
            else c < |out| && !Contains(out[c], CONNECTION)
  {
    hide Request, ConnectionLines, ConnectionPayload, FirstLine, SetHeader, SaysLine, EditLine, Contains, Others, SameAll, Left1, Left2;
    NamesOther();
    var lines1, ms, d := ConnectionLines(lines, payload), HostLines(lines, payload, a), Decimal(|ConnectionPayload(lines, payload)|);
    DecimalPlain(|ConnectionPayload(lines, payload)|);
    CloseFound(lines, payload, a, c);
    LaterEdit(lines1, CONNECTION, "Close", HOST, a);
    if FirstLine(lines1, HOST) == Some(c) {
      EarlierNone(ms, LENGTH, d, CONNECTION, c);
    } else {
      SaysFirst(ms, CONNECTION, "Close");
      LaterEdit(ms, CONNECTION, "Close", LENGTH, d);
    }
  }

  /** Then the next one counts. */
  lemma NextClose(lines: seq<string>, payload: string, a: string, c: nat)
    requires Request(lines) && ' ' !in a && FirstLine(lines, CONNECTION) == Some(c)
    requires c < |NextLines(lines, payload, a)| && !Contains(NextLines(lines, payload, a)[c], CONNECTION)
    ensures FirstLine(NextLines(lines, payload, a), CONNECTION) == FirstLine(Left3(lines), CONNECTION) != Some(c)
    ensures SaysLine(NextLines(lines, payload, a), CONNECTION, "Close") <==> SaysAt(lines, FirstLine(Left3(lines), CONNECTION), CONNECTION, "Close")
  {
    hide Request, ConnectionLines, ConnectionPayload, FirstLine, SetHeader, EditLine, Contains, Others, SameAll, Away, Trim;
    NamesOther();
    var lines1, ms, d := ConnectionLines(lines, payload), HostLines(lines, payload, a), Decimal(|ConnectionPayload(lines, payload)|);
    DecimalPlain(|ConnectionPayload(lines, payload)|);
    CloseFound(lines, payload, a, c);
    AwayAtFirst(lines, CONNECTION, "Close", c);
    AwayTrim(lines1, Left1(lines), c, CONNECTION, HOST, a);
    AwayTrim(ms, Left2(lines), c, CONNECTION, LENGTH, d);
    AwayFirst(NextLines(lines, payload, a), Left3(lines), c, CONNECTION);
    if FirstLine(NextLines(lines, payload, a), CONNECTION).Some? {
      var i := FirstLine(NextLines(lines, payload, a), CONNECTION).value;
      FirstIn(NextLines(lines, payload, a), CONNECTION, i);
      StepSays(ms, LENGTH, d, CONNECTION, "Close", i);
      StepSays(lines1, HOST, a, CONNECTION, "Close", i);
      OtherLine(lines, CONNECTION, "Close", c, i);
    }
  }

  lemma OtherLine(lines: seq<string>, p: string, v: string, c: nat, i: nat)
    requires FirstLine(lines, p) == Some(c) && i < |lines| && i != c
    ensures SetHeader(lines, p, v)[i] == lines[i]
  {}

  lemma CloseKeptExactly(lines: seq<string>, payload: string, a: string)
    requires Request(lines) && Begun(lines, LENGTH) && Address(a)
    ensures SaysClose(NextLines(lines, payload, a), NextPayload(lines, payload, a)) <==> KeepsClose(lines, payload)
  {
    hide Request, Begun, NextLines, HostLines, FirstLine, Find, SaysLine, SaysAt, Says, Left1, Left2, Left3, Contains, Overwritten;
    if FirstLine(lines, CONNECTION) == None {
      if Occurs(lines, payload, CONNECTION) { ClosePayload(lines, payload, a); } else { CloseLineStays(lines, payload, a); }
    } else {
      var c := FirstLine(lines, CONNECTION).value;
      LengthLine(lines, payload, a);
      CloseCut(lines, payload, a, c);
      SaysFirst(NextLines(lines, payload, a), CONNECTION, "Close");
      if c < |NextLines(lines, payload, a)| && !Contains(NextLines(lines, payload, a)[c], CONNECTION) { NextClose(lines, payload, a, c); }
    }
  }

  /**
    Done again update_headers changes nothing exactly if, in the request, no later edit finds the line of an
    earlier one, or the text that comes next says the same.
   */
  lemma IdempotentExactly(lines: seq<string>, payload: string, a: string)
    requires Request(lines) && Begun(lines, LENGTH) && Address(a) && Roomy(lines, payload, a)
    requires Roomy(NextLines(lines, payload, a), NextPayload(lines, payload, a), a)
    ensures var m := UpdatedHeaders(Text(lines, payload), Some(a));
            m.Some? && (UpdatedHeaders(m.value, Some(a)) == m <==> KeepsClose(lines, payload) && KeepsHost(lines, a))
  {
    hide UpdatedHeaders, Text, Request, Begun, SaysClose, SaysLine, NextLines, NextPayload, KeepsClose, KeepsHost;
    IdempotentLines(lines, payload, a);
    CloseKeptExactly(lines, payload, a);
    HostKeptExactly(lines, payload, a);
  }

  // ---------------------------------------------------------------- requests with each name on lines of its own

  /** No line has the text of two of the names. */
  ghost predicate Apart(lines: seq<string>) { forall i | 0 <= i < |lines| :: Single(lines[i]) }

  ghost predicate Single(l: string) {
    && !(Contains(l, CONNECTION) && Contains(l, HOST)) && !(Contains(l, CONNECTION) && Contains(l, LENGTH))
    && !(Contains(l, HOST) && Contains(l, LENGTH))
  }

  lemma TrimLess(lines: seq<string>, p: string, q: string, i: nat)
    requires i < |lines| && Contains(Trim(lines, p)[i], q)
    ensures Contains(lines[i], q)
  {
    hide Find, FirstLine, Stub;
    if FirstLine(lines, p) == Some(i) {
      var j: nat :| At(Stub(lines[i], p), q, j);
      StubLeaves(lines[i], p, q, j);
    }
  }

  /** Then trimming for one name does not touch the texts of another. */
  lemma TrimApart(lines: seq<string>, p: string, q: string)
    requires FirstLine(lines, p).Some? ==> !Contains(lines[FirstLine(lines, p).value], q)
    ensures FirstLine(Trim(lines, p), q) == FirstLine(lines, q)
  {
    hide Contains, Stub, FirstLine;
    var ys := Trim(lines, p);
    if FirstLine(lines, p).Some? { FirstIn(lines, p, FirstLine(lines, p).value); }
    forall i | 0 <= i < |lines| ensures Contains(ys[i], q) <==> Contains(lines[i], q) {
      if Contains(ys[i], q) { TrimLess(lines, p, q, i); }
    }
    FirstLineFacts(lines, q);
    match FirstLine(lines, q) {
      case None => FirstLineNone(ys, q);
      case Some(k) => FirstLineIs(ys, q, k);
    }
  }

  lemma ApartFound(lines: seq<string>)
    requires Apart(lines)
    ensures FirstLine(Left1(lines), HOST) == FirstLine(lines, HOST) && FirstLine(Left2(lines), LENGTH) == FirstLine(lines, LENGTH)
  {
    hide Contains, Stub, FirstLine, Trim;
    FirstLineFacts(lines, CONNECTION);
    FirstLineFacts(lines, HOST);
    TrimApart(lines, CONNECTION, HOST);
    TrimApart(lines, CONNECTION, LENGTH);
    FirstLineFacts(Left1(lines), HOST);
    if FirstLine(lines, HOST).Some? && Contains(Left1(lines)[FirstLine(lines, HOST).value], LENGTH) {
      TrimLess(lines, CONNECTION, LENGTH, FirstLine(lines, HOST).value);
    }
    TrimApart(Left1(lines), HOST, LENGTH);
  }

  /** Each header is set exactly if it is the first line with such text, or says so already. */
  lemma HeadersSetApart(lines: seq<string>, payload: string, a: string, h: nat, l: nat)
    requires Request(lines) && Apart(lines) && Address(a) && HeaderAt(lines, HOST, h) && HeaderAt(lines, LENGTH, l)
    ensures var out, d := NextLines(lines, payload, a), LENGTH + Decimal(|NextPayload(lines, payload, a)|);
            && Moved(lines, payload, h) < |out| && Moved(lines, payload, l) < |out|
            && (out[Moved(lines, payload, h)] == HOST + a <==> FirstLine(lines, HOST) == Some(h) || lines[h] == HOST + a)
            && (out[Moved(lines, payload, l)] == d <==> FirstLine(lines, LENGTH) == Some(l) || lines[l] == d)
  {
    hide Request, Apart, NextLines, NextPayload, FirstLine, Moved, Left1, Left2;
    ApartFound(lines);
    HostSetExactly(lines, payload, a, h);
    LengthSetExactly(lines, payload, a, l);
  }

  /** And a second call changes nothing. */
  lemma IdempotentApart(lines: seq<string>, payload: string, a: string)
    requires Request(lines) && Begun(lines, LENGTH) && Apart(lines)
    ensures KeepsClose(lines, payload) && KeepsHost(lines, a)
  {
    hide Contains, FirstLine, Left1, Left2, Left3, Begun, Says, Find, SaysAt;
    ApartFound(lines);
    BegunFound(lines, HOST);
    FirstLineFacts(lines, CONNECTION);
    FirstLineFacts(lines, HOST);
    FirstLineFacts(lines, LENGTH);
  }
}
