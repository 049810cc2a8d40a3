/**
  Framing across the hops of the proxy: update_headers (Enclave.cpp) edits the text of a message.

  It looks for the text of a header name anywhere in the message and replaces the rest of that line, be
  it the header of that name, another header whose name or value has the text in it, or the payload.
*/
module HttpFraming {
  import opened Options
  import opened Words
  import opened Strings
  import opened HttpText

  const HOST := "Host: "
  const CONNECTION := "Connection: "
  const LENGTH := "Content-Length: "

  // ---------------------------------------------------------------- update_headers

  function GetPldPos(msg: string): nat {
    var p := FindPos(msg, BLANK, 0);
    if p != NPOS then Plus(p, 4) else p
  }

  /** str.find("\r\n", begin) - begin, on words. */
  function GetHdrLgt(msg: string, begin: nat): nat { (FindPos(msg, CRLF, begin) - begin) % WORD }

  /** The value of the first header of that name is replaced; None when std::string throws. */
  function SetValue(msg: string, name: string, v: string): Option<string> {
    var p := Plus(FindPos(msg, name, 0), |name|);
    Replace(msg, p, GetHdrLgt(msg, p), v)
  }

  function SetConnection(msg: string): Option<string> {
    if FindPos(msg, CONNECTION, 0) == NPOS
    then Insert(msg, Plus(FindPos(msg, CRLF, Plus(FindPos(msg, HOST, 0), 6)), 2), "Connection: Close\r\n")
    else SetValue(msg, CONNECTION, "Close")
  }

  function ContentLength(msg: string): string {
    var p := GetPldPos(msg);
    if p != NPOS && p < |msg| then Decimal(|msg| - p) else "0"
  }

  function SetLength(msg: string): Option<string> {
    if FindPos(msg, LENGTH, 0) == NPOS then Some(msg) else SetValue(msg, LENGTH, ContentLength(msg))
  }

  /** What update_headers makes of a message: for a request `address` is the next hop, for a response it is None. */
  function UpdatedHeaders(msg: string, address: Option<string>): Option<string> {
    match address
    case None => SetLength(msg)
    case Some(a) =>
      match SetConnection(msg)
      case None => None
      case Some(m) =>
        match SetValue(m, HOST, a)
        case None => None
        case Some(m') => SetLength(m')
  }

  /** update_headers: fmsg is edited step by step. */
  method UpdateHeaders(msg: string, address: Option<string>) returns (r: Option<string>)
    ensures r == UpdatedHeaders(msg, address)
  {
    hide Find, FindPos, Replace, Insert, Plus, Decimal;
    var fmsg := msg;
    if address != None {
      var posHost := Plus(FindPos(fmsg, HOST, 0), 6);
      var posCon := FindPos(fmsg, CONNECTION, 0);
      var edited: Option<string>;
      if posCon == NPOS {
        edited := Insert(fmsg, Plus(FindPos(fmsg, CRLF, posHost), 2), "Connection: Close\r\n");
      } else {
        posCon := Plus(posCon, 12);
        edited := Replace(fmsg, posCon, GetHdrLgt(fmsg, posCon), "Close");
      }
      if edited == None { return None; }
      fmsg := edited.value;
      posHost := Plus(FindPos(fmsg, HOST, 0), 6);
      edited := Replace(fmsg, posHost, GetHdrLgt(fmsg, posHost), address.value);
      if edited == None { return None; }
      fmsg := edited.value;
    }
    var posCL := FindPos(fmsg, LENGTH, 0);
    if posCL != NPOS {
      posCL := Plus(posCL, 16);
      var pldPos := GetPldPos(fmsg);
      var cl := if pldPos != NPOS && pldPos < |fmsg| then Decimal(|fmsg| - pldPos) else "0";
      var edited := Replace(fmsg, posCL, GetHdrLgt(fmsg, posCL), cl);
      if edited == None { return None; }
      fmsg := edited.value;
    }
    return Some(fmsg);
  }

  // ---------------------------------------------------------------- one edit, on header lines

  /** A message that memory can hold. */
  predicate Small(s: string) { |s| < WORD - 64 }

  /** So can the message with its new headers. */
  predicate Roomy(lines: seq<string>, payload: string, a: string) { |Text(lines, payload)| + |a| < WORD - 256 }

  /** What is after the name is replaced. */
  function EditLine(l: string, name: string, v: string): string {
    match Find(l, name, 0) case None => l case Some(o) => l[..o + |name|] + v
  }

  /** The edit of the first line with the name. */
  function SetHeader(lines: seq<string>, name: string, v: string): (r: seq<string>)
    ensures |r| == |lines|
  {
    match FirstLine(lines, name) case None => lines case Some(k) => lines[k := EditLine(lines[k], name, v)]
  }

  /** Where the line that goes on at place n ends. */
  function EndOfLine(s: string, n: nat): (e: nat)
    ensures n <= |s| ==> n <= e <= |s|
  {
    match Find(s, CRLF, n) case Some(e) => assert At(s, CRLF, e); e case None => |s|
  }

  /** The edit of a payload, up to the end of the line. */
  function Overwritten(payload: string, name: string, v: string): string {
    match Find(payload, name, 0)
    case None => payload
    case Some(i) => payload[..i + |name|] + v + payload[EndOfLine(payload, i + |name|)..]
  }

  /** The payload is edited when no line has the name. */
  function SetPayload(lines: seq<string>, payload: string, name: string, v: string): string {
    if FirstLine(lines, name) == None then Overwritten(payload, name, v) else payload
  }

  predicate Occurs(lines: seq<string>, payload: string, name: string) { FirstLine(lines, name).Some? || Find(payload, name, 0).Some? }

  /** SetValue edits the first line that has the name, at its first place there, and else the payload. */
  lemma SetValueText(lines: seq<string>, payload: string, name: string, v: string)
    requires LinesOk(lines) && Name(name) && |name| < 64 && Small(Text(lines, payload)) && Occurs(lines, payload, name)
    ensures FindPos(Text(lines, payload), name, 0) != NPOS
    ensures SetValue(Text(lines, payload), name, v) == Some(Text(SetHeader(lines, name, v), SetPayload(lines, payload, name, v)))
  {
    hide Find, Text, Replace, Contains, Overwritten;
    match FirstLine(lines, name) {
      case None => OverwriteText(lines, payload, name, v);
      case Some(k) =>
        FindContains(lines[k], name);
        var o := Find(lines[k], name, 0).value;
        FindFirst(lines, payload, name, k, o);
        FindLineEnd(lines, payload, k, Offset(lines, k) + o + |name|);
        ReplaceTail(lines, payload, k, o + |name|, v);
        PlusSmall(Offset(lines, k) + o, |name|);
        var n := |lines[k]| - o - |name|;
        DivModUnique(n, WORD, 0, n);
    }
  }

  lemma OverwriteText(lines: seq<string>, payload: string, name: string, v: string)
    requires LinesOk(lines) && Name(name) && |name| < 64 && NoLine(lines, name) && Find(payload, name, 0).Some? && Small(Text(lines, payload))
    ensures FindPos(Text(lines, payload), name, 0) != NPOS
    ensures SetValue(Text(lines, payload), name, v) == Some(Text(lines, Overwritten(payload, name, v)))
  {
    hide Find, Text, Head, Replace, Overwritten, GetHdrLgt, EndOfLine, Plain;
    var a, i := Head(lines) + CRLF, Find(payload, name, 0).value;
    TextSplit(lines, payload);
    TextSplit(lines, Overwritten(payload, name, v));
    FindInPayload(lines, payload, name);
    FoundAt(payload, name, i);
    PlusSmall(|a| + i, |name|);
    OverwriteRest(a, payload, name, v, i);
  }

  lemma TextSplit(lines: seq<string>, payload: string)
    ensures Text(lines, payload) == (Head(lines) + CRLF) + payload
  {}

  lemma OverwriteRest(a: string, payload: string, name: string, v: string, i: nat)
    requires Find(payload, name, 0) == Some(i) && i + |name| <= |payload| && Small(a + payload)
    ensures var p := |a| + i + |name|; Replace(a + payload, p, GetHdrLgt(a + payload, p), v) == Some(a + Overwritten(payload, name, v))
  {
    hide Replace, Find, GetHdrLgt, Small, At, Overwritten, EndOfLine;
    var n := i + |name|;
    OverwrittenIs(payload, name, v, i);
    RestOfLine(a, payload, n);
    ReplaceUpTo(a, payload, n, EndOfLine(payload, n), GetHdrLgt(a + payload, |a| + n), v);
  }

  /** What get_hdr_lgt yields for the rest of a line: its length, or more than there is. */
  lemma RestOfLine(a: string, p: string, n: nat)
    requires Small(a + p) && n <= |p|
    ensures var e, len := EndOfLine(p, n), GetHdrLgt(a + p, |a| + n); n <= e <= |p| && (len == e - n || (e == |p| && len >= e - n))
  {
    hide Find, GetHdrLgt, Small, At;
    FindShift(a, p, CRLF, n);
    match Find(p, CRLF, n) {
      case Some(e) => HeaderTo(a + p, |a| + n, |a| + e);
      case None => HeaderOn(a + p, |a| + n);
    }
  }

  lemma OverwrittenIs(payload: string, name: string, v: string, i: nat)
    requires Find(payload, name, 0) == Some(i)
    ensures i + |name| <= EndOfLine(payload, i + |name|) <= |payload|
    ensures Overwritten(payload, name, v) == payload[..i + |name|] + v + payload[EndOfLine(payload, i + |name|)..]
  {
    hide Find, EndOfLine, At;
    FoundAt(payload, name, i);
  }

  lemma HeaderTo(s: string, p: nat, e: nat)
    requires Find(s, CRLF, p) == Some(e) && Small(s)
    ensures GetHdrLgt(s, p) == e - p && e <= |s|
  {
    hide Find;
    assert At(s, CRLF, e);
    DivModUnique(e - p, WORD, 0, e - p);
  }

  lemma HeaderOn(s: string, p: nat)
    requires Find(s, CRLF, p) == None && Small(s) && p <= |s|
    ensures GetHdrLgt(s, p) == NPOS - p >= |s| - p
  {
    hide Find;
    DivModUnique(NPOS - p, WORD, 0, NPOS - p);
  }

  lemma ReplaceUpTo(a: string, p: string, n: nat, e: nat, len: nat, v: string)
    requires n <= e <= |p| && (len == e - n || (e == |p| && len >= e - n))
    ensures Replace(a + p, |a| + n, len, v) == Some(a + (p[..n] + v + p[e..]))
  {
    hide Replace;
    Rejoin(a, p, n, e, v);
    if len == e - n { ReplaceMiddle(a + p[..n], p[n..e], p[e..], v); } else { ReplaceRest(a + p[..n], p[n..], v, len); }
  }

  lemma Rejoin(a: string, p: string, n: nat, e: nat, v: string)
    requires n <= e <= |p|
    ensures a + p == (a + p[..n]) + p[n..e] + p[e..] && a + (p[..n] + v + p[e..]) == (a + p[..n]) + v + p[e..]
    ensures p[|p|..] == [] && (a + p[..n]) + v + [] == (a + p[..n]) + v && (e == |p| ==> a + p == (a + p[..n]) + p[n..])
  {
    assert p == p[..n] + p[n..e] + p[e..];
  }

  lemma ReplaceRest(a: string, z: string, v: string, len: nat)
    requires len >= |z|
    ensures Replace(a + z, |a|, len, v) == Some(a + v)
  {
    assert (a + z)[..|a|] == a && (a + z)[|a + z|..] == [];
    assert a + v + [] == a + v;
  }

  lemma FindShift(a: string, s: string, p: string, from: nat)
    ensures Find(a + s, p, |a| + from) == match Find(s, p, from) case None => None case Some(i) => Some(|a| + i)
  {
    hide Find;
    forall j: nat | |a| <= j ensures At(a + s, p, j) <==> At(s, p, j - |a|) { AtShift(a, s, p, j - |a|); }
    match Find(s, p, from) {
      case Some(i) => FindIs(a + s, p, |a| + from, |a| + i);
      case None => FindNone(a + s, p, |a| + from);
    }
  }

  lemma LengthText(lines: seq<string>, payload: string)
    requires LinesOk(lines) && Small(Text(lines, payload))
    ensures ContentLength(Text(lines, payload)) == Decimal(|payload|)
  {
    hide Find, Text;
    FindBlank(lines, payload);
    TextLength(lines, payload);
    PlusSmall(|Head(lines)| - 2, 4);
  }

  lemma TextLength(lines: seq<string>, payload: string)
    ensures |Text(lines, payload)| == |Head(lines)| + 2 + |payload|
  {}

  lemma FixedNames()
    ensures CONNECTION + "Close" == "Connection: Close" && |HOST| == 6 && |CONNECTION| == 12 && |LENGTH| == 16
    ensures Name(HOST) && Name(CONNECTION) && Name(LENGTH)
  {}

  /** Nothing to find: the position is npos. */
  lemma NotFound(lines: seq<string>, payload: string, name: string)
    requires LinesOk(lines) && Name(name) && Small(Text(lines, payload))
    ensures FindPos(Text(lines, payload), name, 0) == NPOS <==> !Occurs(lines, payload, name)
  {
    hide Text, Find, SetValue, Contains;
    if Occurs(lines, payload, name) {
      if FirstLine(lines, name).Some? {
        var k := FirstLine(lines, name).value;
        FindContains(lines[k], name);
        FindFirst(lines, payload, name, k, Find(lines[k], name, 0).value);
      } else {
        FindInPayload(lines, payload, name);
        TextLength(lines, payload);
        FoundAt(payload, name, Find(payload, name, 0).value);
      }
    } else {
      FindInPayload(lines, payload, name);
    }
  }

  /** The last edit of update_headers, and the only one of a response. */
  lemma SetLengthText(lines: seq<string>, payload: string)
    requires LinesOk(lines) && Small(Text(lines, payload))
    ensures var d := Decimal(|payload|);
            UpdatedHeaders(Text(lines, payload), None) == SetLength(Text(lines, payload)) == Some(Text(SetHeader(lines, LENGTH, d), SetPayload(lines, payload, LENGTH, d)))
  {
    hide Find, Text, SetValue, ContentLength;
    FixedNames();
    NotFound(lines, payload, LENGTH);
    if Occurs(lines, payload, LENGTH) {
      LengthText(lines, payload);
      SetValueText(lines, payload, LENGTH, Decimal(|payload|));
    }
  }

  // ---------------------------------------------------------------- the edits keep lines and real headers

  /** Text like p does not begin within a line's first part q. */
  predicate Unlike(p: string, q: string) { |p| > 3 && forall o | 0 <= o < |q| :: p[0] != q[o] || (o + 3 < |q| && p[3] != q[o + 3]) }

  lemma NamesUnlike()
    ensures Unlike(CONNECTION, HOST) && Unlike(HOST, LENGTH) && Unlike(CONNECTION, LENGTH) && Unlike(LENGTH, HOST)
  {}

  lemma {:induction false} StillBegins(l: string, p: string, v: string, q: string)
    requires q <= l && Unlike(p, q)
    ensures q <= EditLine(l, p, v)
  {
    hide Find;
    if Find(l, p, 0).Some? { FoundAt(l, p, Find(l, p, 0).value); }
    forall o: nat | o < |q| ensures !At(l, p, o) {
      assert l[o] == q[o] && (o + 3 < |q| ==> l[o + 3] == q[o + 3]);
      NotAt(l, p, o, if p[0] != q[o] then 0 else 3);
    }
  }

  /** Some line begins with p. */
  ghost predicate Begun(lines: seq<string>, p: string) { exists i :: 0 <= i < |lines| && p <= lines[i] }

  lemma {:induction false} StillBegun(lines: seq<string>, p: string, v: string, q: string)
    requires Begun(lines, q) && Unlike(p, q)
    ensures Begun(SetHeader(lines, p, v), q)
  {
    hide FirstLine, EditLine, Unlike;
    var i :| 0 <= i < |lines| && q <= lines[i];
    StillBegins(lines[i], p, v, q);
    assert q <= SetHeader(lines, p, v)[i];
  }

  lemma {:induction false} BegunFound(lines: seq<string>, p: string)
    requires Begun(lines, p)
    ensures FirstLine(lines, p).Some?
  {
    var i :| 0 <= i < |lines| && p <= lines[i];
    assert At(lines[i], p, 0) && Contains(lines[i], p);
  }

  lemma EditedPlain(l: string, p: string, v: string)
    requires l != "" && Plain(l) && Plain(v) && p != ""
    ensures EditLine(l, p, v) != "" && Plain(EditLine(l, p, v)) && |EditLine(l, p, v)| <= |l| + |v|
  {
    hide Find;
    if Find(l, p, 0).Some? { FoundAt(l, p, Find(l, p, 0).value); }
  }

  /** The message stays one, and grows by no more than the value. */
  lemma EditedOk(lines: seq<string>, payload: string, p: string, v: string)
    requires LinesOk(lines) && Plain(v) && p != ""
    ensures LinesOk(SetHeader(lines, p, v)) && |Text(SetHeader(lines, p, v), payload)| <= |Text(lines, payload)| + |v|
  {
    hide FirstLine, EditLine, Text;
    match FirstLine(lines, p) {
      case None =>
      case Some(k) =>
        EditedPlain(lines[k], p, v);
        EditedSize(lines, payload, k, EditLine(lines[k], p, v));
    }
  }

  /** An edited line makes the text longer by at most its own length. */
  lemma EditedSize(lines: seq<string>, payload: string, k: nat, l: string)
    requires k < |lines|
    ensures |Text(lines[k := l], payload)| == |Text(lines, payload)| - |lines[k]| + |l|
  {
    AroundLine(lines, payload, k);
    AroundLine(lines[k := l], payload, k);
    assert lines[k := l][..k] == lines[..k] && lines[k := l][k + 1..] == lines[k + 1..];
  }

  lemma OverwrittenSize(lines: seq<string>, payload: string, p: string, v: string)
    ensures |SetPayload(lines, payload, p, v)| <= |payload| + |v|
  {
    hide Find;
    if Find(payload, p, 0).Some? { FoundAt(payload, p, Find(payload, p, 0).value); }
  }

  lemma InsertedSize(lines: seq<string>, payload: string, k: nat, l: string)
    requires k < |lines|
    ensures |Text(lines[..k + 1] + [l] + lines[k + 1..], payload)| == |Text(lines, payload)| + |l| + 2
    ensures Offset(lines, k) + |lines[k]| + 2 <= |Text(lines, payload)|
  {
    hide Text;
    InsertLine(lines, payload, k, l);
    AroundLine(lines, payload, k);
  }

  // ---------------------------------------------------------------- the request to the next hop

  /** A request with a Host header. */
  ghost predicate Request(lines: seq<string>) { LinesOk(lines) && Begun(lines, HOST) }

  predicate Address(a: string) { Plain(a) && ' ' !in a }

  const CLOSE := "Connection: Close"

  function After(lines: seq<string>, k: nat, l: string): seq<string>
    requires k < |lines|
  {
    lines[..k + 1] + [l] + lines[k + 1..]
  }

  lemma AfterAt(lines: seq<string>, k: nat, l: string, m: nat)
    requires k < |lines| && m <= |lines|
    ensures |After(lines, k, l)| == |lines| + 1 && After(lines, k, l)[m] == if m <= k then lines[m] else if m == k + 1 then l else lines[m - 1]
  {}

  /** After the edit of the Connection header; without any such text a line is inserted after the first with the text of a Host header. */
  function ConnectionLines(lines: seq<string>, payload: string): seq<string> {
    if Occurs(lines, payload, CONNECTION) then SetHeader(lines, CONNECTION, "Close")
    else match FirstLine(lines, HOST) case None => lines case Some(h) => After(lines, h, CLOSE)
  }

  function ConnectionPayload(lines: seq<string>, payload: string): string { SetPayload(lines, payload, CONNECTION, "Close") }

  /** After the edit of the Host header too. */
  function HostLines(lines: seq<string>, payload: string, a: string): seq<string> { SetHeader(ConnectionLines(lines, payload), HOST, a) }

  /** The header lines and the payload of the request to the next hop. */
  function NextLines(lines: seq<string>, payload: string, a: string): seq<string> {
    SetHeader(HostLines(lines, payload, a), LENGTH, Decimal(|ConnectionPayload(lines, payload)|))
  }

  function NextPayload(lines: seq<string>, payload: string, a: string): string {
    var p := ConnectionPayload(lines, payload);
    SetPayload(HostLines(lines, payload, a), p, LENGTH, Decimal(|p|))
  }

  /** A line is inserted after the first one with the text of a Host header. */
  lemma InsertConnection(lines: seq<string>, payload: string)
    requires LinesOk(lines) && FirstLine(lines, HOST).Some? && !Occurs(lines, payload, CONNECTION) && Small(Text(lines, payload))
    ensures SetConnection(Text(lines, payload)) == Some(Text(ConnectionLines(lines, payload), payload))
  {
    hide Text, Find, Contains, FirstLine;
    FixedNames();
    NotFound(lines, payload, CONNECTION);
    var h := FirstLine(lines, HOST).value;
    FirstIn(lines, HOST, h);
    var o := Find(lines[h], HOST, 0).value;
    FindFirst(lines, payload, HOST, h, o);
    FindLineEnd(lines, payload, h, Offset(lines, h) + o + 6);
    InsertedSize(lines, payload, h, CLOSE);
    PlusSmall(Offset(lines, h) + o, 6);
    PlusSmall(Offset(lines, h) + |lines[h]|, 2);
    assert CLOSE + CRLF == "Connection: Close\r\n";
    InsertLine(lines, payload, h, CLOSE);
  }

  lemma FirstIn(lines: seq<string>, p: string, k: nat)
    requires FirstLine(lines, p) == Some(k)
    ensures k < |lines| && Find(lines[k], p, 0).Some?
  {
    FindContains(lines[k], p);
  }

  lemma ConnectionText(lines: seq<string>, payload: string)
    requires Request(lines) && Small(Text(lines, payload))
    ensures SetConnection(Text(lines, payload)) == Some(Text(ConnectionLines(lines, payload), ConnectionPayload(lines, payload)))
  {
    hide Text, Find, Contains, FirstLine, Begun, SetValue;
    if Occurs(lines, payload, CONNECTION) {
      FixedNames();
      SetValueText(lines, payload, CONNECTION, "Close");
    } else {
      BegunFound(lines, HOST);
      InsertConnection(lines, payload);
    }
  }

  /** The lines between the edits: still those of a request. */
  lemma ConnectionOk(lines: seq<string>, payload: string)
    requires Request(lines)
    ensures var lines1 := ConnectionLines(lines, payload);
            Request(lines1) && |Text(lines1, ConnectionPayload(lines, payload))| <= |Text(lines, payload)| + 19
    ensures Begun(lines, LENGTH) ==> Begun(ConnectionLines(lines, payload), LENGTH)
  {
    hide Text, Find, Contains, FirstLine, Begun, Unlike, SetHeader;
    FixedNames();
    NamesUnlike();
    BegunFound(lines, HOST);
    OverwrittenSize(lines, payload, CONNECTION, "Close");
    TextLength(lines, payload);
    TextLength(lines, ConnectionPayload(lines, payload));
    if Occurs(lines, payload, CONNECTION) {
      EditedOk(lines, payload, CONNECTION, "Close");
      EditedOk(lines, ConnectionPayload(lines, payload), CONNECTION, "Close");
      StillBegun(lines, CONNECTION, "Close", HOST);
      if Begun(lines, LENGTH) { StillBegun(lines, CONNECTION, "Close", LENGTH); }
    } else {
      var h := FirstLine(lines, HOST).value;
      FirstIn(lines, HOST, h);
      InsertedSize(lines, payload, h, CLOSE);
      InsertedOk(lines, h, CLOSE);
      InsertedBegun(lines, h, CLOSE, HOST);
      if Begun(lines, LENGTH) { InsertedBegun(lines, h, CLOSE, LENGTH); }
    }
  }

  lemma InsertedOk(lines: seq<string>, k: nat, l: string)
    requires LinesOk(lines) && k < |lines| && l != "" && Plain(l)
    ensures LinesOk(After(lines, k, l))
  {
    hide Plain;
    var lines' := After(lines, k, l);
    forall m | 0 <= m < |lines'| ensures lines'[m] != "" && Plain(lines'[m]) { AfterAt(lines, k, l, m); }
  }

  lemma InsertedBegun(lines: seq<string>, k: nat, l: string, p: string)
    requires k < |lines| && Begun(lines, p)
    ensures Begun(After(lines, k, l), p)
  {
    var i :| 0 <= i < |lines| && p <= lines[i];
    AfterAt(lines, k, l, if i <= k then i else i + 1);
    assert p <= After(lines, k, l)[if i <= k then i else i + 1];
  }

  /** update_headers, for every request: wherever in its lines the names occur first. */
  lemma UpdatedRequest(lines: seq<string>, payload: string, a: string)
    requires Request(lines) && Address(a) && Roomy(lines, payload, a)
    ensures UpdatedHeaders(Text(lines, payload), Some(a)) == Some(Text(NextLines(lines, payload, a), NextPayload(lines, payload, a)))
  {
    hide Text, Find, Contains, FirstLine, Begun, SetHeader, SetPayload, SetConnection, SetValue, SetLength, ConnectionLines;
    var lines1, p1 := ConnectionLines(lines, payload), ConnectionPayload(lines, payload);
    FixedNames();
    ConnectionText(lines, payload);
    ConnectionOk(lines, payload);
    BegunFound(lines1, HOST);
    SetValueText(lines1, p1, HOST, a);
    SamePayload(lines1, p1, HOST, a);
    EditedOk(lines1, p1, HOST, a);
    SetLengthText(SetHeader(lines1, HOST, a), p1);
  }

  lemma SamePayload(lines: seq<string>, payload: string, p: string, v: string)
    requires FirstLine(lines, p).Some?
    ensures SetPayload(lines, payload, p, v) == payload
  {}

  // ---------------------------------------------------------------- the payload

  /** After the first such text the payload says v, or there is no such text. */
  predicate Says(payload: string, name: string, v: string) {
    match Find(payload, name, 0)
    case None => true
    case Some(i) => i + |name| <= |payload| && payload[i + |name|..EndOfLine(payload, i + |name|)] == v
  }

  lemma SaysExactly(payload: string, name: string, v: string)
    ensures Overwritten(payload, name, v) == payload <==> Says(payload, name, v)
  {
    hide Find, EndOfLine;
    if Find(payload, name, 0).Some? {
      var i := Find(payload, name, 0).value;
      FoundAt(payload, name, i);
      var n, e := i + |name|, EndOfLine(payload, i + |name|);
      var t := payload[..n] + v + payload[e..];
      assert payload == payload[..n] + payload[n..e] + payload[e..];
      if t == payload {
        assert e - n == |v|;
        assert payload[n..e] == t[n..e] == v;
      }
    }
  }

  lemma LengthLine(lines: seq<string>, payload: string, a: string)
    requires Request(lines) && Begun(lines, LENGTH) && Address(a)
    ensures FirstLine(HostLines(lines, payload, a), LENGTH).Some? && NextPayload(lines, payload, a) == ConnectionPayload(lines, payload)
  {
    hide Begun, FirstLine, SetHeader, ConnectionLines, ConnectionPayload, Overwritten, Unlike;
    ConnectionOk(lines, payload);
    NamesUnlike();
    StillBegun(ConnectionLines(lines, payload), HOST, a, LENGTH);
    BegunFound(HostLines(lines, payload, a), LENGTH);
  }

  /**
    The payload of a request with a Content-Length header reaches the next hop unchanged exactly if some
    header line has the text of a Connection header, or the payload has none, or says Close after it.
   */
  lemma PayloadKept(lines: seq<string>, payload: string, a: string)
    requires Request(lines) && Begun(lines, LENGTH) && Address(a)
    ensures NextPayload(lines, payload, a) == payload <==> FirstLine(lines, CONNECTION).Some? || Says(payload, CONNECTION, "Close")
  {
    hide Begun, FirstLine, SetHeader, ConnectionLines, Overwritten, Says, HostLines;
    LengthLine(lines, payload, a);
    SaysExactly(payload, CONNECTION, "Close");
  }

  // ---------------------------------------------------------------- which headers are set

  /** Line j is the header of that name: the first line that begins with it. */
  ghost predicate HeaderAt(lines: seq<string>, p: string, j: nat) {
    j < |lines| && p <= lines[j] && forall i | 0 <= i < j :: !(p <= lines[i])
  }

  lemma BeginsAtZero(l: string, p: string, v: string)
    requires p != ""
    ensures p <= EditLine(l, p, v) ==> p <= l && EditLine(l, p, v) == if Find(l, p, 0).Some? then p + v else l
    ensures p <= l ==> p <= EditLine(l, p, v)
  {
    hide Find;
    if Find(l, p, 0).Some? {
      var o := Find(l, p, 0).value;
      FoundAt(l, p, o);
      if p <= EditLine(l, p, v) { assert EditLine(l, p, v)[..|p|] == l[..|p|]; }
      if p <= l { assert At(l, p, 0); }
    }
  }

  /** An edit sets the header of that name exactly if the name occurs nowhere before it, or the header says so already. */
  lemma SetsExactly(lines: seq<string>, p: string, v: string, j: nat)
    requires p != "" && HeaderAt(SetHeader(lines, p, v), p, j)
    ensures HeaderAt(lines, p, j) && FirstLine(lines, p).Some?
    ensures SetHeader(lines, p, v)[j] == p + v <==> FirstLine(lines, p) == Some(j) || lines[j] == p + v
  {
    hide Contains, EditLine, FirstLine;
    forall i | 0 <= i < |lines| ensures p <= SetHeader(lines, p, v)[i] <==> p <= lines[i] { BeginsAtZero(lines[i], p, v); }
    BegunFound(lines, p);
    FirstIn(lines, p, FirstLine(lines, p).value);
    BeginsAtZero(lines[j], p, v);
  }

  /** The Content-Length header (section 3.3.2 of RFC 7230) of what is sent on is the length of its payload exactly if it is the first line with such text when it is edited, or says so already. */
  lemma LengthSetLines(lines: seq<string>, payload: string, a: string, j: nat)
    requires Request(lines) && Begun(lines, LENGTH) && Address(a) && HeaderAt(NextLines(lines, payload, a), LENGTH, j)
    ensures var mid, d := HostLines(lines, payload, a), LENGTH + Decimal(|NextPayload(lines, payload, a)|);
            j < |mid| && (NextLines(lines, payload, a)[j] == d <==> FirstLine(mid, LENGTH) == Some(j) || mid[j] == d)
  {
    hide Begun, FirstLine, SetHeader, HostLines, ConnectionLines, ConnectionPayload, HeaderAt;
    LengthLine(lines, payload, a);
    SetsExactly(HostLines(lines, payload, a), LENGTH, Decimal(|ConnectionPayload(lines, payload)|), j);
    HeaderIn(HostLines(lines, payload, a), LENGTH, j);
  }

  lemma HeaderIn(lines: seq<string>, p: string, j: nat)
    requires HeaderAt(lines, p, j)
    ensures j < |lines|
  {}

  /** An address has no space, and a header name ends with its only one. */
  lemma HostLine(a: string, p: string)
    requires ' ' !in a && |p| > 6 && p[|p| - 1] == ' '
    ensures !Contains(HOST + a, p)
  {
    var s := HOST + a;
    forall j: nat ensures !At(s, p, j) {
      if j + |p| <= |s| { assert s[j + |p| - 1] == a[j + |p| - 7] && a[j + |p| - 7] in a; }
      NotAt(s, p, j, |p| - 1);
    }
  }

  /** The last edit neither makes nor unmakes a Host header, nor sets one. */
  lemma LengthEditsHost(l: string, v: string, a: string)
    requires Address(a)
    ensures HOST <= EditLine(l, LENGTH, v) <==> HOST <= l
    ensures EditLine(l, LENGTH, v) == HOST + a <==> l == HOST + a
  {
    hide Find;
    FixedNames();
    HostLine(a, LENGTH);
    if Find(l, LENGTH, 0).Some? {
      var o := Find(l, LENGTH, 0).value;
      FoundAt(l, LENGTH, o);
      assert Contains(l, LENGTH);
      var l' := EditLine(l, LENGTH, v);
      assert l'[..6] == l[..6];
      assert l'[o..o + 16] == l[o..o + 16] && At(l', LENGTH, o) && Contains(l', LENGTH);
    }
  }

  /** Likewise the Host header (section 5.4 of RFC 7230) names the next hop. */
  lemma HostSetLines(lines: seq<string>, payload: string, a: string, j: nat)
    requires Request(lines) && Address(a) && HeaderAt(NextLines(lines, payload, a), HOST, j)
    ensures var lines1 := ConnectionLines(lines, payload);
            j < |lines1| && (NextLines(lines, payload, a)[j] == HOST + a <==> FirstLine(lines1, HOST) == Some(j) || lines1[j] == HOST + a)
  {
    hide Begun, FirstLine, EditLine, ConnectionLines, ConnectionPayload, Contains;
    var mid, d := HostLines(lines, payload, a), Decimal(|ConnectionPayload(lines, payload)|);
    forall i | 0 <= i < |mid| ensures (HOST <= NextLines(lines, payload, a)[i] <==> HOST <= mid[i]) && (NextLines(lines, payload, a)[i] == HOST + a <==> mid[i] == HOST + a) {
      LengthEditsHost(mid[i], d, a);
    }
    SetsExactly(ConnectionLines(lines, payload), HOST, a, j);
  }

  // ---------------------------------------------------------------- framed messages

  /** The first text of a Content-Length header is followed by the length of the payload. */
  ghost predicate Framed(lines: seq<string>, payload: string, l: nat, o: nat) {
    && LinesOk(lines) && FirstLine(lines, LENGTH) == Some(l) && Find(lines[l], LENGTH, 0) == Some(o)
    && lines[l] == lines[l][..o] + LENGTH + Decimal(|payload|)
  }

  lemma EditedThere(l: string, p: string, v: string, o: nat)
    requires Find(l, p, 0) == Some(o)
    ensures Find(EditLine(l, p, v), p, 0) == Some(o) && EditLine(l, p, v) == EditLine(l, p, v)[..o] + p + v
  {
    hide Find;
    FoundAt(l, p, o);
    var l' := EditLine(l, p, v);
    assert l' == l[..o + |p|] + v && l[..o + |p|] == l[..o] + p;
    SamePrefix(l, l', p, 0, o);
  }

  lemma EditedFirst(lines: seq<string>, p: string, v: string, k: nat)
    requires FirstLine(lines, p) == Some(k)
    ensures FirstLine(SetHeader(lines, p, v), p) == Some(k)
    ensures k < |lines| && Find(SetHeader(lines, p, v)[k], p, 0).Some?
    ensures var l, o := SetHeader(lines, p, v)[k], Find(SetHeader(lines, p, v)[k], p, 0).value; o <= |l| && l == l[..o] + p + v
  {
    hide Contains, EditLine;
    FirstIn(lines, p, k);
    var o := Find(lines[k], p, 0).value;
    EditedThere(lines[k], p, v, o);
    var lines' := SetHeader(lines, p, v);
    FindContains(lines'[k], p);
    FirstLineIs(lines', p, k);
  }

  lemma {:induction false} FirstLineIs(lines: seq<string>, p: string, k: nat)
    requires k < |lines| && Contains(lines[k], p) && forall i | 0 <= i < k :: !Contains(lines[i], p)
    ensures FirstLine(lines, p) == Some(k)
  {
    hide Contains;
  }

  lemma DecimalPlain(n: nat)
    ensures Plain(Decimal(n)) && ' ' !in Decimal(n)
  {}

  lemma NextOk(lines: seq<string>, payload: string, a: string)
    requires Request(lines) && Address(a)
    ensures LinesOk(HostLines(lines, payload, a)) && LinesOk(NextLines(lines, payload, a))
  {
    hide SetHeader, ConnectionLines, ConnectionPayload, Begun;
    FixedNames();
    ConnectionOk(lines, payload);
    EditedOk(ConnectionLines(lines, payload), "", HOST, a);
    DecimalPlain(|ConnectionPayload(lines, payload)|);
    EditedOk(HostLines(lines, payload, a), "", LENGTH, Decimal(|ConnectionPayload(lines, payload)|));
  }

  /** Whatever is sent on is framed for a receiver that takes the first such text for the header, as do_recv does. */
  lemma NextHopFramed(lines: seq<string>, payload: string, a: string) returns (l: nat, o: nat)
    requires Request(lines) && Begun(lines, LENGTH) && Address(a)
    ensures Framed(NextLines(lines, payload, a), NextPayload(lines, payload, a), l, o)
  {
    hide SetHeader, ConnectionLines, ConnectionPayload, Begun, HostLines, FirstLine, Find;
    NextOk(lines, payload, a);
    LengthLine(lines, payload, a);
    var mid, d := HostLines(lines, payload, a), Decimal(|ConnectionPayload(lines, payload)|);
    l := FirstLine(mid, LENGTH).value;
    EditedFirst(mid, LENGTH, d, l);
    o := Find(SetHeader(mid, LENGTH, d)[l], LENGTH, 0).value;
  }

  // ---------------------------------------------------------------- what update_headers leaves alone

  predicate Spaced(p: string) { p != "" && p[|p| - 1] == ' ' }

  /** After the first such text its line says v. */
  ghost predicate SaysLine(lines: seq<string>, p: string, v: string) {
    FirstLine(lines, p).Some? && EditLine(lines[FirstLine(lines, p).value], p, v) == lines[FirstLine(lines, p).value]
  }

  /** Connection: Close in a header line, or in the payload if no line has the name. */
  ghost predicate SaysClose(lines: seq<string>, payload: string) {
    if FirstLine(lines, CONNECTION).Some? then SaysLine(lines, CONNECTION, "Close")
    else Find(payload, CONNECTION, 0).Some? && Says(payload, CONNECTION, "Close")
  }

  ghost predicate Settled(lines: seq<string>, payload: string, a: string) {
    SaysClose(lines, payload) && SaysLine(lines, HOST, a) && SaysLine(lines, LENGTH, Decimal(|payload|))
  }

  predicate NoSpaceFrom(l: string, n: int) { forall i | 0 <= i < |l| && i >= n :: l[i] != ' ' }

  /** x is e, or has been cut before the space at n - 1. */
  predicate CutBefore(x: string, e: string, n: int) { x == e || NoSpaceFrom(x, n - 1) }

  lemma EditEnds(l: string, p: string, v: string, o: nat)
    requires Find(l, p, 0) == Some(o) && Spaced(p) && ' ' !in v
    ensures o + |p| <= |l| && l[o + |p| - 1] == ' ' && NoSpaceFrom(EditLine(l, p, v), o + |p|)
    ensures l[o..o + |p|] == p && o + |p| <= |EditLine(l, p, v)| && (|p| > 3 ==> EditLine(l, p, v)[o + |p| - 3] == p[|p| - 3])
  {
    hide Find;
    FoundAt(l, p, o);
    assert l[o + |p| - 1] == l[o..o + |p|][|p| - 1];
    assert |p| > 3 ==> l[o + |p| - 3] == l[o..o + |p|][|p| - 3];
  }

  /** A later edit, of a name with another ending, cuts the line earlier or is none. */
  lemma EditCuts(x: string, e: string, n: nat, q: string, w: string)
    requires CutBefore(x, e, n) && NoSpaceFrom(e, n) && 3 <= n <= |e| && Spaced(q) && |q| > 3 && ' ' !in w && e[n - 3] != q[|q| - 3]
    ensures CutBefore(EditLine(x, q, w), e, n)
  {
    hide Find;
    if Find(x, q, 0).Some? {
      var o := Find(x, q, 0).value;
      EditEnds(x, q, w, o);
      assert x[o + |q| - 3] == x[o..o + |q|][|q| - 3];
    }
  }

  /** What is cut off cannot come back. */
  lemma NotUndone(l: string, p: string, v: string, o: nat, x: string)
    requires Find(l, p, 0) == Some(o) && Spaced(p) && ' ' !in v && CutBefore(x, EditLine(l, p, v), o + |p|) && x == l
    ensures EditLine(l, p, v) == l
  {
    hide Find, EditLine;
    EditEnds(l, p, v, o);
  }

  lemma LineEdit(lines: seq<string>, p: string, v: string, i: nat)
    requires i < |lines|
    ensures SetHeader(lines, p, v)[i] == lines[i] || SetHeader(lines, p, v)[i] == EditLine(lines[i], p, v)
  {}

  /** If the edits after that of p give the lines back, that of p has done nothing. */
  lemma StillCut(lines: seq<string>, p: string, v: string, q: string, w: string, i: nat, e: string, n: nat)
    requires i < |lines| && CutBefore(lines[i], e, n) && NoSpaceFrom(e, n) && 3 <= n <= |e| && Spaced(q) && |q| > 3 && ' ' !in w && e[n - 3] != q[|q| - 3]
    ensures CutBefore(SetHeader(lines, q, w)[i], e, n)
  {
    hide EditLine, CutBefore, NoSpaceFrom;
    LineEdit(lines, q, w, i);
    EditCuts(lines[i], e, n, q, w);
  }

  lemma SameLines(lines: seq<string>, p: string, v: string)
    ensures SaysLine(lines, p, v) || FirstLine(lines, p) == None ==> SetHeader(lines, p, v) == lines
    ensures SetHeader(lines, p, v) == lines && FirstLine(lines, p).Some? ==> SaysLine(lines, p, v)
  {
    hide FirstLine, EditLine;
  }

  /** The edit of p in line k, seen after the others. */
  lemma EditSeen(lines: seq<string>, p: string, v: string, k: nat)
    requires FirstLine(lines, p) == Some(k) && Spaced(p) && |p| > 3 && ' ' !in v
    ensures k < |lines| && Find(lines[k], p, 0).Some?
    ensures var e, n := EditLine(lines[k], p, v), Find(lines[k], p, 0).value + |p|;
            && SetHeader(lines, p, v)[k] == e && NoSpaceFrom(e, n) && 3 <= n <= |e| && e[n - 3] == p[|p| - 3]
  {
    hide EditLine, Find, FirstLine, SetHeader, NoSpaceFrom;
    FirstIn(lines, p, k);
    SetAt(lines, p, v, k);
    EditEnds(lines[k], p, v, Find(lines[k], p, 0).value);
  }

  lemma SetAt(lines: seq<string>, p: string, v: string, k: nat)
    requires FirstLine(lines, p) == Some(k)
    ensures k < |lines| && SetHeader(lines, p, v)[k] == EditLine(lines[k], p, v)
  {
    hide FirstLine, EditLine, Contains;
  }

  lemma HostUndone(lines: seq<string>, a: string, d: string)
    requires FirstLine(lines, HOST).Some? && ' ' !in a && ' ' !in d && SetHeader(SetHeader(lines, HOST, a), LENGTH, d) == lines
    ensures SetHeader(lines, HOST, a) == lines
  {
    hide Find, EditLine, SetHeader, FirstLine, CutBefore, NoSpaceFrom;
    FixedNames();
    var k := FirstLine(lines, HOST).value;
    EditSeen(lines, HOST, a, k);
    var e, o := EditLine(lines[k], HOST, a), Find(lines[k], HOST, 0).value;
    CutItself(e, o + 6);
    StillCut(SetHeader(lines, HOST, a), HOST, a, LENGTH, d, k, e, o + 6);
    NotUndone(lines[k], HOST, a, o, lines[k]);
    NothingSet(lines, HOST, a, k);
  }

  lemma CutItself(e: string, n: int)
    ensures CutBefore(e, e, n)
  {}

  lemma NothingSet(lines: seq<string>, p: string, v: string, k: nat)
    requires FirstLine(lines, p) == Some(k) && k < |lines| && EditLine(lines[k], p, v) == lines[k]
    ensures SetHeader(lines, p, v) == lines
  {}

  lemma ConnectionUndone(lines: seq<string>, a: string, d: string)
    requires FirstLine(lines, CONNECTION).Some? && ' ' !in a && ' ' !in d
    requires SetHeader(SetHeader(SetHeader(lines, CONNECTION, "Close"), HOST, a), LENGTH, d) == lines
    ensures SetHeader(lines, CONNECTION, "Close") == lines
  {
    hide Find, EditLine, SetHeader, FirstLine, CutBefore, NoSpaceFrom;
    FixedNames();
    var k := FirstLine(lines, CONNECTION).value;
    EditSeen(lines, CONNECTION, "Close", k);
    var e, o := EditLine(lines[k], CONNECTION, "Close"), Find(lines[k], CONNECTION, 0).value;
    var lines1 := SetHeader(lines, CONNECTION, "Close");
    CutItself(e, o + 12);
    StillCut(lines1, CONNECTION, "Close", HOST, a, k, e, o + 12);
    StillCut(SetHeader(lines1, HOST, a), CONNECTION, "Close", LENGTH, d, k, e, o + 12);
    NotUndone(lines[k], CONNECTION, "Close", o, lines[k]);
    NothingSet(lines, CONNECTION, "Close", k);
  }

  lemma IfSettled(lines: seq<string>, payload: string, a: string)
    requires Request(lines) && Begun(lines, LENGTH) && Address(a) && Settled(lines, payload, a)
    ensures NextLines(lines, payload, a) == lines && NextPayload(lines, payload, a) == payload
  {
    hide Find, SetHeader, FirstLine, Begun, Overwritten, Says, SaysLine;
    LengthLine(lines, payload, a);
    SaysExactly(payload, CONNECTION, "Close");
    SaysFirst(lines, CONNECTION, "Close");
    SameLines(lines, CONNECTION, "Close");
    SameLines(lines, HOST, a);
    SameLines(lines, LENGTH, Decimal(|payload|));
  }

  lemma SaysFirst(lines: seq<string>, p: string, v: string)
    ensures SaysLine(lines, p, v) ==> FirstLine(lines, p).Some?
  {}

  lemma OnlyIfSettled(lines: seq<string>, payload: string, a: string)
    requires Request(lines) && Begun(lines, LENGTH) && Address(a) && NextLines(lines, payload, a) == lines && NextPayload(lines, payload, a) == payload
    ensures Settled(lines, payload, a)
  {
    hide Find, SetHeader, FirstLine, Begun, Overwritten, Says, SaysLine;
    LengthLine(lines, payload, a);
    SaysExactly(payload, CONNECTION, "Close");
    DecimalPlain(|payload|);
    BegunFound(lines, HOST);
    BegunFound(lines, LENGTH);
    SameCount(lines, payload, a);
    SameLines(lines, CONNECTION, "Close");
    if FirstLine(lines, CONNECTION).Some? { ConnectionUndone(lines, a, Decimal(|payload|)); }
    SameLines(lines, HOST, a);
    HostUndone(lines, a, Decimal(|payload|));
    SameLines(lines, LENGTH, Decimal(|payload|));
  }

  /** The edits leave lines and payload alone exactly if they already say what they will say. */
  lemma SettledExactly(lines: seq<string>, payload: string, a: string)
    requires Request(lines) && Begun(lines, LENGTH) && Address(a)
    ensures NextLines(lines, payload, a) == lines && NextPayload(lines, payload, a) == payload <==> Settled(lines, payload, a)
  {
    hide Request, Begun, NextLines, NextPayload, Settled;
    if Settled(lines, payload, a) { IfSettled(lines, payload, a); }
    if NextLines(lines, payload, a) == lines && NextPayload(lines, payload, a) == payload { OnlyIfSettled(lines, payload, a); }
  }

  /** An inserted line is one line more. */
  lemma SameCount(lines: seq<string>, payload: string, a: string)
    requires Request(lines) && |NextLines(lines, payload, a)| == |lines|
    ensures Occurs(lines, payload, CONNECTION)
  {
    hide Find, FirstLine, Begun;
    BegunFound(lines, HOST);
  }

  // ---- the same for the text

  predicate SomeLines(lines: seq<string>) { lines == [] || LinesOk(lines) }

  /** A message has one reading. */
  lemma {:induction false} SameHead(lines: seq<string>, payload: string, lines': seq<string>, payload': string)
    requires SomeLines(lines) && SomeLines(lines') && Text(lines, payload) == Text(lines', payload')
    ensures lines == lines' && payload == payload'
  {
    hide Text, Head, Find;
    if lines == [] || lines' == [] {
      NoLines(lines, payload);
      NoLines(lines', payload');
    } else {
      SameFirst(lines, payload, lines', payload');
      SameHead(lines[1..], payload, lines'[1..], payload');
      assert lines == [lines[0]] + lines[1..] && lines' == [lines'[0]] + lines'[1..];
    }
  }

  lemma SameFirst(lines: seq<string>, payload: string, lines': seq<string>, payload': string)
    requires LinesOk(lines) && LinesOk(lines') && Text(lines, payload) == Text(lines', payload')
    ensures lines[0] == lines'[0] && Text(lines[1..], payload) == Text(lines'[1..], payload') && SomeLines(lines[1..]) && SomeLines(lines'[1..])
  {
    hide Text, Head, Find;
    FirstText(lines, payload);
    FirstText(lines', payload');
  }

  lemma FirstText(lines: seq<string>, payload: string)
    requires LinesOk(lines)
    ensures lines != []
    ensures var t := Text(lines, payload);
            && Find(t, CRLF, 0) == Some(|lines[0]|) && |lines[0]| + 2 <= |t|
            && lines[0] == t[..|lines[0]|] && Text(lines[1..], payload) == t[|lines[0]| + 2..]
  {
    hide Find, Plain;
    FindLineEnd(lines, payload, 0, 0);
    AfterFirst(lines, payload);
  }

  lemma AfterFirst(lines: seq<string>, payload: string)
    requires lines != []
    ensures var t := Text(lines, payload);
            |lines[0]| + 2 <= |t| && lines[0] == t[..|lines[0]|] && Text(lines[1..], payload) == t[|lines[0]| + 2..]
  {
    assert Text(lines, payload) == lines[0] + CRLF + Text(lines[1..], payload);
  }

  /** Only a message without lines begins with a line end. */
  lemma NoLines(lines: seq<string>, payload: string)
    requires SomeLines(lines)
    ensures Text(lines, payload) != "" && (Text(lines, payload)[0] == '\r' <==> lines == [])
    ensures lines == [] ==> |Text(lines, payload)| >= 2 && Text(lines, payload)[2..] == payload
  {
    if lines != [] { FirstPlain(lines, payload); }
  }

  lemma FirstPlain(lines: seq<string>, payload: string)
    requires LinesOk(lines)
    ensures Text(lines, payload)[0] != '\r'
  {
    assert Text(lines, payload) == lines[0] + CRLF + Text(lines[1..], payload);
    assert Text(lines, payload)[0] == lines[0][0] && lines[0][0] in lines[0];
  }

  /** update_headers leaves a request alone exactly if it already says Close, the next hop, and the length of its payload. */
  lemma LeftAloneExactly(lines: seq<string>, payload: string, a: string)
    requires Request(lines) && Begun(lines, LENGTH) && Address(a) && Roomy(lines, payload, a)
    ensures UpdatedHeaders(Text(lines, payload), Some(a)) == Some(Text(lines, payload)) <==> Settled(lines, payload, a)
  {
    hide UpdatedHeaders, Text, Begun, NextLines, NextPayload, Settled;
    UpdatedRequest(lines, payload, a);
    NextOk(lines, payload, a);
    if UpdatedHeaders(Text(lines, payload), Some(a)) == Some(Text(lines, payload)) {
      SameHead(NextLines(lines, payload, a), NextPayload(lines, payload, a), lines, payload);
    }
    SettledExactly(lines, payload, a);
  }

  lemma SaysAfter(lines: seq<string>, p: string, v: string)
    requires FirstLine(lines, p).Some?
    ensures SaysLine(SetHeader(lines, p, v), p, v)
  {
    hide FirstLine, Find;
    var k := FirstLine(lines, p).value;
    EditedFirst(lines, p, v, k);
    var l := SetHeader(lines, p, v)[k];
    var o := Find(l, p, 0).value;
    assert l[..o + |p|] == l[..o] + p;
  }

  lemma NextBegun(lines: seq<string>, payload: string, a: string)
    requires Request(lines) && Begun(lines, LENGTH) && Address(a)
    ensures Request(NextLines(lines, payload, a)) && Begun(NextLines(lines, payload, a), LENGTH)
  {
    hide Begun, SetHeader, ConnectionLines, ConnectionPayload, Unlike;
    var lines1, d := ConnectionLines(lines, payload), Decimal(|ConnectionPayload(lines, payload)|);
    NamesUnlike();
    NextOk(lines, payload, a);
    ConnectionOk(lines, payload);
    BegunAfter(lines1, HOST, a);
    StillBegun(lines1, HOST, a, LENGTH);
    BegunAfter(HostLines(lines, payload, a), LENGTH, d);
    StillBegun(HostLines(lines, payload, a), LENGTH, d, HOST);
  }

  lemma BegunAfter(lines: seq<string>, p: string, v: string)
    requires Begun(lines, p) && p != ""
    ensures Begun(SetHeader(lines, p, v), p)
  {
    hide EditLine, FirstLine;
    var i :| 0 <= i < |lines| && p <= lines[i];
    BeginsAtZero(lines[i], p, v);
    assert p <= SetHeader(lines, p, v)[i];
  }

  /**
    Doing it again changes nothing exactly if no edit has cut off what an earlier one had set: what was
    sent on says Close after its first Connection text and the address after its first Host text.
   */
  lemma IdempotentLines(lines: seq<string>, payload: string, a: string)
    requires Request(lines) && Begun(lines, LENGTH) && Address(a) && Roomy(lines, payload, a)
    requires Roomy(NextLines(lines, payload, a), NextPayload(lines, payload, a), a)
    ensures var m, out, pl := UpdatedHeaders(Text(lines, payload), Some(a)), NextLines(lines, payload, a), NextPayload(lines, payload, a);
            m.Some? && (UpdatedHeaders(m.value, Some(a)) == m <==> SaysClose(out, pl) && SaysLine(out, HOST, a))
  {
    hide UpdatedHeaders, Text, Begun, SaysClose, SaysLine, SetHeader, SetPayload, ConnectionLines, ConnectionPayload, HostLines;
    var out, pl := NextLines(lines, payload, a), NextPayload(lines, payload, a);
    UpdatedRequest(lines, payload, a);
    NextBegun(lines, payload, a);
    LengthLine(lines, payload, a);
    SaysAfter(HostLines(lines, payload, a), LENGTH, Decimal(|pl|));
    LeftAloneExactly(out, pl, a);
  }

  // ---------------------------------------------------------------- messages for which it goes wrong

  /** A line without some character of the name does not contain it. */
  lemma CharMissing(line: string, p: string, i: nat)
    requires i < |p| && p[i] !in line
    ensures !Contains(line, p)
  {
    forall j: nat ensures !At(line, p, j) { NotAt(line, p, j, i); }
  }

  lemma CloseLine()
    ensures !Contains(CLOSE, HOST) && !Contains(CLOSE, LENGTH)
  {
    hide Contains;
    CharMissing(CLOSE, HOST, 0);
    CharMissing(CLOSE, LENGTH, 11);
  }

  lemma FoundIn(x: string, p: string, v: string, w: string)
    requires p != "" && p[0] !in x
    ensures Find(x + p + v, p, 0) == Some(|x|) && Contains(x + p + v, p) && EditLine(x + p + v, p, w) == x + p + w
  {
    hide Find;
    var l := x + p + v;
    assert l[|x|..|x| + |p|] == p;
    forall j: nat | j < |x| ensures !At(l, p, j) {
      assert l[j] == x[j];
      NotAt(l, p, j, 0);
    }
    FindIs(l, p, 0, |x|);
    FindContains(l, p);
    assert l[..|x| + |p|] == x + p;
  }

  /** Setting the header that stands in line k, after x. */
  lemma SetThere(lines: seq<string>, k: nat, x: string, p: string, v: string, w: string)
    requires k < |lines| && lines[k] == x + p + v && p != "" && p[0] !in x && forall i | 0 <= i < k :: !Contains(lines[i], p)
    ensures FirstLine(lines, p) == Some(k) && SetHeader(lines, p, w) == lines[k := x + p + w]
  {
    hide Contains;
    FoundIn(x, p, v, w);
    FirstLineIs(lines, p, k);
  }

  /** The three edits, one after the other, of a request with all three names among its lines. */
  lemma ThreeEdits(lines: seq<string>, payload: string, a: string, lines1: seq<string>, lines2: seq<string>, out: seq<string>)
    requires Request(lines) && Address(a) && Roomy(lines, payload, a) && FirstLine(lines, CONNECTION).Some? && FirstLine(lines2, LENGTH).Some?
    requires SetHeader(lines, CONNECTION, "Close") == lines1 && SetHeader(lines1, HOST, a) == lines2 && SetHeader(lines2, LENGTH, Decimal(|payload|)) == out
    ensures UpdatedHeaders(Text(lines, payload), Some(a)) == Some(Text(out, payload))
  {
    hide Text, Find, FirstLine, SetHeader, UpdatedHeaders, Begun;
    UpdatedRequest(lines, payload, a);
  }

  function Four(k: string, l: string, m: string, n: string): seq<string> { [k, l, m, n] }

  lemma FourIs(k: string, l: string, m: string, n: string, v: string)
    ensures var s := Four(k, l, m, n); |s| == 4 && s[0] == k && s[1] == l && s[2] == m && s[3] == n
    ensures Four(k, l, m, n)[0 := v] == Four(v, l, m, n) && Four(k, l, m, n)[1 := v] == Four(k, v, m, n)
    ensures Four(k, l, m, n)[2 := v] == Four(k, l, v, n) && Four(k, l, m, n)[3 := v] == Four(k, l, m, v)
  {}

  lemma FourOk(k: string, h: string, u: string, w: string)
    requires k != "" && Plain(k) && Plain(h) && Plain(u) && Plain(w)
    ensures Request(Four(k, HOST + h, CONNECTION + u, LENGTH + w))
  {
    var lines := Four(k, HOST + h, CONNECTION + u, LENGTH + w);
    assert HOST <= lines[1];
  }

  /** Setting the header that begins line k. */
  lemma SetFirst(lines: seq<string>, k: nat, p: string, v: string, w: string)
    requires k < |lines| && lines[k] == p + v && p != "" && forall i | 0 <= i < k :: !Contains(lines[i], p)
    ensures FirstLine(lines, p) == Some(k) && SetHeader(lines, p, w) == lines[k := p + w]
  {
    hide Contains, FirstLine, SetHeader;
    assert "" + p + v == p + v && "" + p + w == p + w;
    SetThere(lines, k, "", p, v, w);
  }

  /** Another header with the text of Content-Length comes first: it is set, and the Content-Length header is not. */
  lemma OtherLengthSet(x: string, v: string, h: string, u: string, w: string, payload: string, a: string)
    requires var k := x + LENGTH + v; 'C' !in x && !Contains(k, CONNECTION) && !Contains(k, HOST) && Plain(k) && k != ""
    requires Plain(h) && Plain(u) && Plain(w) && !Contains(HOST + h, CONNECTION) && Address(a)
    requires Roomy(Four(x + LENGTH + v, HOST + h, CONNECTION + u, LENGTH + w), payload, a)
    ensures UpdatedHeaders(Text(Four(x + LENGTH + v, HOST + h, CONNECTION + u, LENGTH + w), payload), Some(a))
         == Some(Text(Four(x + LENGTH + Decimal(|payload|), HOST + a, CONNECTION + "Close", LENGTH + w), payload))
  {
    hide Contains, Find, FirstLine, EditLine, Text, SetHeader, UpdatedHeaders, Roomy, Decimal, Address, Four, Plain;
    var k, l, m, n, d, close := x + LENGTH + v, HOST + h, CONNECTION + u, LENGTH + w, Decimal(|payload|), CONNECTION + "Close";
    FourIs(k, l, m, n, close);
    FourIs(k, l, close, n, HOST + a);
    FourIs(k, HOST + a, close, n, x + LENGTH + d);
    SetFirst(Four(k, l, m, n), 2, CONNECTION, u, "Close");
    SetFirst(Four(k, l, close, n), 1, HOST, h, a);
    SetThere(Four(k, HOST + a, close, n), 0, x, LENGTH, v, d);
    FourOk(k, h, u, w);
    ThreeEdits(Four(k, l, m, n), payload, a, Four(k, l, close, n), Four(k, HOST + a, close, n), Four(x + LENGTH + d, HOST + a, close, n));
  }

  /** Another header with the text of Host comes first: it is set, and the Host header is not. */
  lemma OtherHostSet(x: string, v: string, h: string, u: string, w: string, payload: string, a: string)
    requires var k := x + HOST + v; 'H' !in x && !Contains(k, CONNECTION) && !Contains(k, LENGTH) && Plain(k) && k != "" && !Contains(x + HOST + a, LENGTH)
    requires Plain(h) && Plain(u) && Plain(w) && !Contains(HOST + h, CONNECTION) && !Contains(HOST + h, LENGTH) && Address(a)
    requires Roomy(Four(x + HOST + v, HOST + h, CONNECTION + u, LENGTH + w), payload, a)
    ensures UpdatedHeaders(Text(Four(x + HOST + v, HOST + h, CONNECTION + u, LENGTH + w), payload), Some(a))
         == Some(Text(Four(x + HOST + a, HOST + h, CONNECTION + "Close", LENGTH + Decimal(|payload|)), payload))
  {
    hide Contains, Find, FirstLine, EditLine, Text, SetHeader, UpdatedHeaders, Roomy, Decimal, Address, Four, Plain;
    var k, l, m, n, d, close := x + HOST + v, HOST + h, CONNECTION + u, LENGTH + w, Decimal(|payload|), CONNECTION + "Close";
    FourIs(k, l, m, n, close);
    FourIs(k, l, close, n, x + HOST + a);
    FourIs(x + HOST + a, l, close, n, LENGTH + d);
    CloseNoLength();
    SetFirst(Four(k, l, m, n), 2, CONNECTION, u, "Close");
    SetThere(Four(k, l, close, n), 0, x, HOST, v, a);
    SetFirst(Four(x + HOST + a, l, close, n), 3, LENGTH, w, d);
    FourOk(k, h, u, w);
    ThreeEdits(Four(k, l, m, n), payload, a, Four(k, l, close, n), Four(x + HOST + a, l, close, n), Four(x + HOST + a, l, close, LENGTH + d));
  }

  lemma CloseNoLength()
    ensures !Contains(CONNECTION + "Close", LENGTH)
  {
    hide Contains;
    FixedNames();
    CloseLine();
  }

  lemma NoneInLength()
    ensures !Contains("X-" + LENGTH + "9", CONNECTION) && !Contains("X-" + LENGTH + "9", HOST)
  {
    hide Contains;
    var k := "X-" + LENGTH + "9";
    assert CONNECTION[7] == 'i' && HOST[0] == 'H';
    assert 'i' !in LENGTH && 'H' !in LENGTH;
    CharMissing(k, CONNECTION, 7);
    CharMissing(k, HOST, 0);
  }

  /** X-Content-Length: 9 before Content-Length: 9, for a payload of two characters. */
  lemma LengthNotAlwaysSet()
    ensures UpdatedHeaders(Text(["X-" + LENGTH + "9", HOST + "b", CONNECTION + "up", LENGTH + "9"], "hi"), Some("c"))
         == Some(Text(["X-" + LENGTH + "2", HOST + "c", CONNECTION + "Close", LENGTH + "9"], "hi"))
  {
    hide Contains, Find, Text, UpdatedHeaders;
    var k := "X-" + LENGTH + "9";
    NoneInLength();
    NamesMissing("", "b");
    assert "" + HOST + "b" == HOST + "b" && Decimal(2) == "2";
    RoomyFour(k, "b", "up", "9");
    OtherLengthSet("X-", "9", "b", "up", "9", "hi", "c");
  }

  /** X-Forwarded-Host: a before Host: b. */
  lemma HostNotAlwaysSet()
    ensures UpdatedHeaders(Text(["X-Forwarded-" + HOST + "a", HOST + "b", CONNECTION + "up", LENGTH + "2"], "hi"), Some("c"))
         == Some(Text(["X-Forwarded-" + HOST + "c", HOST + "b", CONNECTION + "Close", LENGTH + "2"], "hi"))
  {
    hide Contains, Find, Text, UpdatedHeaders;
    var k := "X-Forwarded-" + HOST + "a";
    NamesMissing("X-Forwarded-", "a");
    NamesMissing("X-Forwarded-", "c");
    NamesMissing("", "b");
    assert "" + HOST + "b" == HOST + "b" && Decimal(2) == "2";
    RoomyFour(k, "b", "up", "2");
    OtherHostSet("X-Forwarded-", "a", "b", "up", "2", "hi", "c");
  }

  lemma RoomyFour(k: string, h: string, u: string, w: string)
    requires |k| + |h| + |u| + |w| < 100
    ensures Roomy(Four(k, HOST + h, CONNECTION + u, LENGTH + w), "hi", "c")
  {
    FixedNames();
    HeadSize(Four(k, HOST + h, CONNECTION + u, LENGTH + w), 150);
  }

  lemma {:induction false} HeadSize(lines: seq<string>, n: nat)
    requires forall i | 0 <= i < |lines| :: |lines[i]| < n
    ensures |Head(lines)| <= (n + 2) * |lines|
  {
    if lines != [] {
      HeadSize(lines[1..], n);
      MulSucc(n + 2, |lines| - 1);
    }
  }

  lemma MulSucc(n: nat, m: nat)
    ensures n * (m + 1) == n * m + n
  {}

  /** Without a Connection header, but with such text in the payload, the payload is changed on the way. */
  lemma PayloadNotAlwaysKept()
    ensures UpdatedHeaders(Text([HOST + "b", LENGTH + "14"], CONNECTION + "up"), Some("c"))
         == Some(Text([HOST + "c", LENGTH + "17"], CONNECTION + "Close"))
  {
    hide Contains, Find, Text, UpdatedHeaders, FirstLine, SetHeader, EditLine, Overwritten;
    FixedNames();
    CharMissing(HOST + "b", CONNECTION, 0);
    CharMissing(LENGTH + "14", CONNECTION, 7);
    CharMissing(HOST + "c", LENGTH, 0);
    OverwrittenUp();
    assert Decimal(17) == "17";
    PairUpdated(HOST + "b", LENGTH + "14", CONNECTION + "up");
  }

  lemma OverwrittenUp()
    ensures Find(CONNECTION + "up", CONNECTION, 0).Some? && Overwritten(CONNECTION + "up", CONNECTION, "Close") == CONNECTION + "Close"
  {
    FixedNames();
    var p := CONNECTION + "up";
    assert At(p, CONNECTION, 0);
    FindIs(p, CONNECTION, 0, 0);
    forall j: nat ensures !At(p, CRLF, j) { NotAt(p, CRLF, j, 0); }
    FindNone(p, CRLF, 12);
  }

  lemma PairUpdated(k: string, l: string, payload: string)
    requires k == HOST + "b" && l == LENGTH + "14" && !Contains(k, CONNECTION) && !Contains(l, CONNECTION) && !Contains(HOST + "c", LENGTH)
    requires Find(payload, CONNECTION, 0).Some? && Overwritten(payload, CONNECTION, "Close") == CONNECTION + "Close" && |payload| < 100 && Decimal(17) == "17"
    ensures UpdatedHeaders(Text([k, l], payload), Some("c")) == Some(Text([HOST + "c", LENGTH + "17"], CONNECTION + "Close"))
  {
    hide Contains, Find, Text, UpdatedHeaders, FirstLine, SetHeader, EditLine, Overwritten, Decimal, LinesOk, Begun, Roomy;
    FixedNames();
    var lines, lines2 := [k, l], [HOST + "c", l];
    PairOk(k, l, payload);
    SetFirst(lines, 0, HOST, "b", "c");
    SetFirst(lines2, 1, LENGTH, "14", "17");
    assert lines[0 := HOST + "c"] == lines2 && lines2[1 := LENGTH + "17"] == [HOST + "c", LENGTH + "17"];
    assert NoLine(lines, CONNECTION);
    SameLines(lines, CONNECTION, "Close");
    UpdatedRequest(lines, payload, "c");
  }

  lemma PairOk(k: string, l: string, payload: string)
    requires k == HOST + "b" && l == LENGTH + "14" && |payload| < 100
    ensures Request([k, l]) && Roomy([k, l], payload, "c")
  {
    FixedNames();
    HeadSize([k, l], 150);
    TextLength([k, l], payload);
    assert HOST <= [k, l][0];
  }

  function Three(l: string, m: string, n: string): seq<string> { [l, m, n] }

  lemma ThreeIs(l: string, m: string, n: string, v: string)
    ensures var s := Three(l, m, n); |s| == 3 && s[0] == l && s[1] == m && s[2] == n
    ensures Three(l, m, n)[0 := v] == Three(v, m, n) && Three(l, m, n)[1 := v] == Three(l, v, n) && Three(l, m, n)[2 := v] == Three(l, m, v)
  {}

  /** A line with the texts of Host and Connection in it, in this order: the second edit cuts off what the first has set. */
  lemma CutOff(x: string, u: string, h: string, w: string, payload: string, a: string)
    requires 'H' !in x && 'C' !in x && 'C' !in h && 'C' !in a && Plain(x) && Plain(u) && Plain(h) && Plain(w) && Address(a)
    requires Roomy(Three(x + HOST + CONNECTION + u, HOST + h, LENGTH + w), payload, a)
    ensures var lines, out := Three(x + HOST + CONNECTION + u, HOST + h, LENGTH + w), Three(x + HOST + a, HOST + h, LENGTH + Decimal(|payload|));
            Request(lines) && Begun(lines, LENGTH) && FirstLine(lines, CONNECTION).Some? && NextLines(lines, payload, a) == out && FirstLine(out, CONNECTION) == None
  {
    hide Contains, Find, FirstLine, EditLine, SetHeader, Decimal, Three, Plain, Roomy, SetPayload, Address, NextLines, Begun;
    var close, d := CONNECTION + "Close", Decimal(|payload|);
    var k, l, n := x + HOST + CONNECTION + u, HOST + h, LENGTH + w;
    var k1, k2 := x + HOST + close, x + HOST + a;
    SetsFirst(k, k1, l, n, x + HOST, u);
    SetsSecond(k1, k2, l, n, x, close, a);
    NamesMissing(x, a);
    NamesMissing("", h);
    assert "" + HOST + h == l;
    SetsThird(k2, l, w, d);
    NoConnectionLeft(k2, l, |payload|);
    KPlain(x, u);
    ThreeOk(k, h, w);
    NextEdits(Three(k, l, n), payload, a, Three(k1, l, n), Three(k2, l, n), Three(k2, l, LENGTH + d));
  }

  lemma SetsFirst(k: string, k1: string, l: string, n: string, x: string, u: string)
    requires k == x + CONNECTION + u && k1 == x + (CONNECTION + "Close") && 'C' !in x
    ensures FirstLine(Three(k, l, n), CONNECTION) == Some(0) && SetHeader(Three(k, l, n), CONNECTION, "Close") == Three(k1, l, n)
  {
    hide Contains, FirstLine, SetHeader, Three;
    FixedNames();
    assert k1 == x + CONNECTION + "Close";
    ThreeIs(k, l, n, k1);
    SetThere(Three(k, l, n), 0, x, CONNECTION, u, "Close");
  }

  lemma SetsSecond(k1: string, k2: string, l: string, n: string, x: string, v: string, a: string)
    requires k1 == x + HOST + v && k2 == x + HOST + a && 'H' !in x
    ensures SetHeader(Three(k1, l, n), HOST, a) == Three(k2, l, n)
  {
    hide Contains, FirstLine, SetHeader, Three;
    FixedNames();
    ThreeIs(k1, l, n, k2);
    SetThere(Three(k1, l, n), 0, x, HOST, v, a);
  }

  lemma SetsThird(k2: string, l: string, w: string, d: string)
    requires !Contains(k2, LENGTH) && !Contains(l, LENGTH)
    ensures SetHeader(Three(k2, l, LENGTH + w), LENGTH, d) == Three(k2, l, LENGTH + d)
  {
    hide Contains, FirstLine, SetHeader, Three;
    FixedNames();
    ThreeIs(k2, l, LENGTH + w, LENGTH + d);
    SetFirst(Three(k2, l, LENGTH + w), 2, LENGTH, w, d);
  }

  lemma NoConnectionLeft(k2: string, l: string, n: nat)
    requires !Contains(k2, CONNECTION) && !Contains(l, CONNECTION)
    ensures FirstLine(Three(k2, l, LENGTH + Decimal(n)), CONNECTION) == None
  {
    hide Contains, FirstLine, Decimal;
    LengthNoConnection(n);
    assert NoLine(Three(k2, l, LENGTH + Decimal(n)), CONNECTION);
  }

  lemma NextEdits(lines: seq<string>, payload: string, a: string, lines1: seq<string>, lines2: seq<string>, out: seq<string>)
    requires FirstLine(lines, CONNECTION).Some? && SetHeader(lines, CONNECTION, "Close") == lines1
    requires SetHeader(lines1, HOST, a) == lines2 && SetHeader(lines2, LENGTH, Decimal(|payload|)) == out
    ensures NextLines(lines, payload, a) == out
  {
    hide FirstLine, SetHeader, Find;
  }

  lemma NamesMissing(x: string, a: string)
    requires 'C' !in x && 'C' !in a
    ensures !Contains(x + HOST + a, LENGTH) && !Contains(x + HOST + a, CONNECTION) && 'C' !in x + HOST
  {
    hide Contains;
    assert 'C' !in HOST;
    CharMissing(x + HOST + a, LENGTH, 0);
    CharMissing(x + HOST + a, CONNECTION, 0);
  }

  lemma KPlain(x: string, u: string)
    requires Plain(x) && Plain(u)
    ensures Plain(x + HOST + CONNECTION + u) && x + HOST + CONNECTION + u != ""
  {}

  lemma LengthNoConnection(n: nat)
    ensures !Contains(LENGTH + Decimal(n), CONNECTION)
  {
    hide Contains;
    var s := LENGTH + Decimal(n);
    forall j | 0 <= j < |s| ensures s[j] != 'i' {
      if j >= 16 { assert s[j] == Decimal(n)[j - 16]; } else { assert s[j] == LENGTH[j]; }
    }
    CharMissing(s, CONNECTION, 7);
  }

  lemma ThreeOk(k: string, h: string, w: string)
    requires k != "" && Plain(k) && Plain(h) && Plain(w)
    ensures Request(Three(k, HOST + h, LENGTH + w)) && Begun(Three(k, HOST + h, LENGTH + w), LENGTH)
  {
    var lines := Three(k, HOST + h, LENGTH + w);
    assert HOST <= lines[1] && LENGTH <= lines[2];
  }

  /** A request that a second update_headers changes again. */
  lemma NotAlwaysIdempotent()
    ensures var m := UpdatedHeaders(Text(["A: " + HOST + CONNECTION + "up", HOST + "b", LENGTH + "2"], "hi"), Some("c"));
            m.Some? && UpdatedHeaders(m.value, Some("c")) != m
  {
    hide Contains, Find, Text, UpdatedHeaders, FirstLine, NextLines, NextPayload, Begun, Settled, Decimal;
    var lines := Three("A: " + HOST + CONNECTION + "up", HOST + "b", LENGTH + "2");
    SmallThree();
    CutOff("A: ", "up", "b", "2", "hi", "c");
    HiStays(lines);
    IdempotentLines(lines, "hi", "c");
  }

  lemma SmallThree()
    ensures Roomy(Three("A: " + HOST + CONNECTION + "up", HOST + "b", LENGTH + "2"), "hi", "c")
    ensures Roomy(Three("A: " + HOST + "c", HOST + "b", LENGTH + Decimal(2)), "hi", "c")
  {
    FixedNames();
    assert Decimal(2) == "2";
    HeadSize(Three("A: " + HOST + CONNECTION + "up", HOST + "b", LENGTH + "2"), 150);
    HeadSize(Three("A: " + HOST + "c", HOST + "b", LENGTH + "2"), 150);
  }

  /** The payload "hi" stays, and says nothing of a connection. */
  lemma HiStays(lines: seq<string>)
    requires Request(lines) && Begun(lines, LENGTH) && FirstLine(lines, CONNECTION).Some?
    ensures NextPayload(lines, "hi", "c") == "hi" && Find("hi", CONNECTION, 0) == None
  {
    hide FirstLine, Begun;
    PayloadKept(lines, "hi", "c");
    FindNone("hi", CONNECTION, 0);
  }
}
