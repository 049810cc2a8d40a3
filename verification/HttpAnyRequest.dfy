/**
  update_headers (Enclave.cpp) on requests of any kind, with or without a Host header: the position of a
  name that is not found is npos, and npos + 6 is 5.
*/
module HttpAnyRequest {
  import opened Options
  import opened Words
  import opened Strings
  import opened HttpText
  import opened HttpFraming

  /** The Connection header is set, or inserted after the line that the search for the Host header leads to. */
  function ConnectionSet(lines: seq<string>, payload: string): (seq<string>, string)
    requires LinesOk(lines)
  {
    if Occurs(lines, payload, CONNECTION) then (SetHeader(lines, CONNECTION, "Close"), SetPayload(lines, payload, CONNECTION, "Close"))
    else
      match FirstLine(lines, HOST)
      case Some(h) => (After(lines, h, CLOSE), payload)
      case None =>
        match Find(payload, HOST, 0)
        case None => (After(lines, 0, CLOSE), payload)
        case Some(i) =>
          match Find(payload, CRLF, i + 6)
          case Some(e) => assert At(payload, CRLF, e); (lines, payload[..e + 2] + (CLOSE + CRLF) + payload[e + 2..])
          case None => ([lines[0][..1] + CLOSE, lines[0][1..]] + lines[1..], payload)
  }

  /** The Host header is set; without any, what follows the first five characters of the request line is overwritten. */
  function HostSet(lines: seq<string>, payload: string, a: string): (seq<string>, string)
    requires lines != [] && |lines[0]| >= 5
  {
    if Occurs(lines, payload, HOST) then (SetHeader(lines, HOST, a), SetPayload(lines, payload, HOST, a))
    else (lines[0 := lines[0][..5] + a], payload)
  }

  function LengthSet(lines: seq<string>, payload: string): (seq<string>, string) {
    (SetHeader(lines, LENGTH, Decimal(|payload|)), SetPayload(lines, payload, LENGTH, Decimal(|payload|)))
  }

  lemma CloseLine()
    ensures CLOSE + CRLF == "Connection: Close\r\n" && |CLOSE| == 17 && Plain(CLOSE) && Plain("Close")
  {}

  // ---------------------------------------------------------------- the Connection header

  /** The text is nowhere: the search goes on from place 5, in the request line. */
  lemma InsertAfterFirst(lines: seq<string>, payload: string)
    requires LinesOk(lines) && |lines[0]| >= 5 && !Occurs(lines, payload, CONNECTION) && !Occurs(lines, payload, HOST) && Small(Text(lines, payload))
    ensures SetConnection(Text(lines, payload)) == Some(Text(After(lines, 0, CLOSE), payload))
  {
    hide Text, Find, Contains, FirstLine, Plain;
    FixedNames();
    CloseLine();
    NotFound(lines, payload, CONNECTION);
    NotFound(lines, payload, HOST);
    assert Plus(NPOS, 6) == 5 && Offset(lines, 0) == 0;
    FindLineEnd(lines, payload, 0, 5);
    InsertedSize(lines, payload, 0, CLOSE);
    PlusSmall(|lines[0]|, 2);
    InsertLine(lines, payload, 0, CLOSE);
  }

  /** It is in the payload only: the line goes into the payload, or if there is no line end after it to place 1. */
  lemma InsertInPayload(lines: seq<string>, payload: string, i: nat)
    requires LinesOk(lines) && |lines[0]| >= 5 && !Occurs(lines, payload, CONNECTION) && Small(Text(lines, payload))
    requires FirstLine(lines, HOST) == None && Find(payload, HOST, 0) == Some(i)
    ensures SetConnection(Text(lines, payload)) == Some(Text(ConnectionSet(lines, payload).0, ConnectionSet(lines, payload).1))
  {
    hide Text, Find, Contains, FirstLine, Plain, Head, At, Insert, Plus, Occurs;
    FixedNames();
    CloseLine();
    NotFound(lines, payload, CONNECTION);
    FindInPayload(lines, payload, HOST);
    FoundAt(payload, HOST, i);
    TextSplit(lines, payload);
    var a := Head(lines) + CRLF;
    PlusSmall(|a| + i, 6);
    FindShift(a, payload, CRLF, i + 6);
    match Find(payload, CRLF, i + 6) {
      case Some(e) =>
        EndFits(payload, i + 6, e);
        PlusSmall(|a| + e, 2);
        PutInPayload(a, payload, e + 2, CLOSE + CRLF);
        TextSplit(lines, payload[..e + 2] + (CLOSE + CRLF) + payload[e + 2..]);
      case None =>
        NextAfterNone();
        PutAtOne(lines, payload, CLOSE);
    }
  }

  lemma EndFits(s: string, from: nat, e: nat)
    requires Find(s, CRLF, from) == Some(e)
    ensures e + 2 <= |s|
  {
    hide Find;
    assert At(s, CRLF, e);
  }

  lemma NextAfterNone()
    ensures Plus(NPOS, 2) == 1
  {}

  lemma PutInPayload(a: string, payload: string, n: nat, v: string)
    requires n <= |payload|
    ensures Insert(a + payload, |a| + n, v) == Some(a + (payload[..n] + v + payload[n..]))
  {
    assert a + payload == (a + payload[..n]) + payload[n..];
    InsertMiddle(a + payload[..n], payload[n..], v);
    assert (a + payload[..n]) + v + payload[n..] == a + (payload[..n] + v + payload[n..]);
  }

  lemma PutAtOne(lines: seq<string>, payload: string, l: string)
    requires lines != [] && |lines[0]| >= 1
    ensures Insert(Text(lines, payload), 1, l + CRLF) == Some(Text([lines[0][..1] + l, lines[0][1..]] + lines[1..], payload))
  {
    hide Insert;
    var x, y, rest := lines[0][..1], lines[0][1..], lines[1..];
    var z := y + CRLF + Head(rest) + CRLF + payload;
    assert lines[0] == x + y;
    assert Text(lines, payload) == x + z;
    InsertMiddle(x, z, l + CRLF);
    TwoLines(x + l, y, rest);
    Regrouped(x, l, CRLF, y, Head(rest), payload);
  }

  lemma Regrouped(x: string, l: string, c: string, y: string, h: string, payload: string)
    ensures x + (l + c) + (y + c + h + c + payload) == (x + l) + c + (y + c + h) + c + payload
  {}

  lemma TwoLines(x: string, y: string, rest: seq<string>)
    ensures Head([x, y] + rest) == x + CRLF + (y + CRLF + Head(rest))
  {
    assert ([x, y] + rest)[1..] == [y] + rest && ([y] + rest)[1..] == rest;
  }

  lemma ConnectionSetText(lines: seq<string>, payload: string)
    requires LinesOk(lines) && |lines[0]| >= 5 && Small(Text(lines, payload))
    ensures SetConnection(Text(lines, payload)) == Some(Text(ConnectionSet(lines, payload).0, ConnectionSet(lines, payload).1))
  {
    hide Text, Find, Contains, FirstLine, SetValue, SetHeader, SetPayload, SetConnection, LinesOk;
    if Occurs(lines, payload, CONNECTION) {
      SetPresent(lines, payload);
    } else if FirstLine(lines, HOST).Some? {
      InsertConnection(lines, payload);
    } else {
      match Find(payload, HOST, 0) {
        case None => InsertAfterFirst(lines, payload);
        case Some(i) => InsertInPayload(lines, payload, i);
      }
    }
  }

  lemma SetPresent(lines: seq<string>, payload: string)
    requires LinesOk(lines) && Occurs(lines, payload, CONNECTION) && Small(Text(lines, payload))
    ensures SetConnection(Text(lines, payload)) == Some(Text(SetHeader(lines, CONNECTION, "Close"), SetPayload(lines, payload, CONNECTION, "Close")))
  {
    hide Text, Find, Contains, FirstLine, SetHeader, SetPayload, SetValue;
    FixedNames();
    SetValueText(lines, payload, CONNECTION, "Close");
  }

  lemma EditedLong(l: string, p: string, v: string)
    requires |l| >= 5 && |p| >= 5
    ensures |EditLine(l, p, v)| >= 5
  {
    hide Find;
    if Find(l, p, 0).Some? { FoundAt(l, p, Find(l, p, 0).value); }
  }

  lemma FirstLong(lines: seq<string>, p: string, v: string)
    requires lines != [] && |lines[0]| >= 5 && |p| >= 5
    ensures |SetHeader(lines, p, v)[0]| >= 5
  {
    hide FirstLine, EditLine;
    EditedLong(lines[0], p, v);
  }

  /** The lines are still lines, the first is still long enough, and the text grows by no more than the new line. */
  lemma ConnectionSetOk(lines: seq<string>, payload: string)
    requires LinesOk(lines) && |lines[0]| >= 5
    ensures var (lines1, payload1) := ConnectionSet(lines, payload);
            LinesOk(lines1) && |lines1[0]| >= 5 && |Text(lines1, payload1)| <= |Text(lines, payload)| + 19
  {
    hide Text, Find, Contains, FirstLine, SetHeader, Plain;
    FixedNames();
    CloseLine();
    var (lines1, payload1) := ConnectionSet(lines, payload);
    TextLength(lines, payload);
    TextLength(lines, payload1);
    if Occurs(lines, payload, CONNECTION) {
      OverwrittenSize(lines, payload, CONNECTION, "Close");
      EditedOk(lines, payload1, CONNECTION, "Close");
      FirstLong(lines, CONNECTION, "Close");
    } else if FirstLine(lines, HOST).Some? || Find(payload, HOST, 0) == None {
      var h := match FirstLine(lines, HOST) case Some(k) => k case None => 0;
      InsertedSize(lines, payload, h, CLOSE);
      InsertedOk(lines, h, CLOSE);
      AfterAt(lines, h, CLOSE, 0);
    } else if Find(payload, CRLF, Find(payload, HOST, 0).value + 6).Some? {
    } else {
      AtOneOk(lines, payload);
    }
  }

  lemma AtOneOk(lines: seq<string>, payload: string)
    requires LinesOk(lines) && |lines[0]| >= 5
    ensures var lines' := [lines[0][..1] + CLOSE, lines[0][1..]] + lines[1..];
            LinesOk(lines') && |lines'[0]| >= 5 && |Text(lines', payload)| == |Text(lines, payload)| + 19
  {
    var lines' := [lines[0][..1] + CLOSE, lines[0][1..]] + lines[1..];
    PutAtOne(lines, payload, CLOSE);
    forall m | 0 <= m < |lines'| ensures lines'[m] != "" && Plain(lines'[m]) {
      if m > 1 { assert lines'[m] == lines[m - 1]; }
    }
  }

  // ---------------------------------------------------------------- the Host header

  lemma HostSetText(lines: seq<string>, payload: string, a: string)
    requires LinesOk(lines) && |lines[0]| >= 5 && Small(Text(lines, payload))
    ensures SetValue(Text(lines, payload), HOST, a) == Some(Text(HostSet(lines, payload, a).0, HostSet(lines, payload, a).1))
  {
    hide Text, Find, Contains, FirstLine, Replace, Plain;
    FixedNames();
    if Occurs(lines, payload, HOST) {
      SetValueText(lines, payload, HOST, a);
    } else {
      NotFound(lines, payload, HOST);
      assert Plus(NPOS, 6) == 5 && Offset(lines, 0) == 0;
      FindLineEnd(lines, payload, 0, 5);
      DivModUnique(|lines[0]| - 5, WORD, 0, |lines[0]| - 5);
      ReplaceTail(lines, payload, 0, 5, a);
    }
  }

  lemma HostSetOk(lines: seq<string>, payload: string, a: string)
    requires LinesOk(lines) && |lines[0]| >= 5 && Plain(a)
    ensures var (lines1, payload1) := HostSet(lines, payload, a);
            LinesOk(lines1) && |Text(lines1, payload1)| <= |Text(lines, payload)| + |a|
  {
    hide Text, Find, Contains, FirstLine, EditLine, Overwritten;
    FixedNames();
    var payload1 := HostSet(lines, payload, a).1;
    TextLength(lines, payload);
    TextLength(lines, payload1);
    if Occurs(lines, payload, HOST) {
      OverwrittenSize(lines, payload, HOST, a);
      EditedOk(lines, payload1, HOST, a);
      if FirstLine(lines, HOST) == None { assert SetHeader(lines, HOST, a) == lines; }
    } else {
      EditedSize(lines, payload, 0, lines[0][..5] + a);
    }
  }

  // ---------------------------------------------------------------- the whole

  /**
    update_headers on every request whose first line has at least five characters: the edits of the
    Connection, the Host and the Content-Length header, each where its name is first found, and for a Host
    header that is not there in the request line, behind its fifth character.
   */
  lemma UpdatedAlways(lines: seq<string>, payload: string, a: string)
    requires LinesOk(lines) && |lines[0]| >= 5 && Plain(a) && Roomy(lines, payload, a)
    ensures var (lines1, payload1) := ConnectionSet(lines, payload);
            && LinesOk(lines1) && |lines1[0]| >= 5
            && var (lines2, payload2) := HostSet(lines1, payload1, a);
            && var (lines3, payload3) := LengthSet(lines2, payload2);
            UpdatedHeaders(Text(lines, payload), Some(a)) == Some(Text(lines3, payload3))
  {
    hide Text, Find, SetConnection, SetValue, SetLength, SetHeader, SetPayload, ConnectionSet, HostSet, Plain;
    ConnectionSetText(lines, payload);
    ConnectionSetOk(lines, payload);
    var (lines1, payload1) := ConnectionSet(lines, payload);
    HostSetText(lines1, payload1, a);
    HostSetOk(lines1, payload1, a);
    var (lines2, payload2) := HostSet(lines1, payload1, a);
    SetLengthText(lines2, payload2);
  }

  lemma CloseHasNone()
    ensures !Contains(CLOSE, HOST) && !Contains(CLOSE, LENGTH)
  {
    forall j: nat ensures !At(CLOSE, HOST, j) { NotAt(CLOSE, HOST, j, if j == 6 then 0 else 5); }
    forall j: nat ensures !At(CLOSE, LENGTH, j) { NotAt(CLOSE, LENGTH, j, if j == 0 then 3 else if j == 1 then 0 else 15); }
  }

  lemma NoneAfter(lines: seq<string>, k: nat, l: string, p: string)
    requires k < |lines| && NoLine(lines, p) && !Contains(l, p)
    ensures FirstLine(After(lines, k, l), p) == None
  {
    hide Contains;
    forall i | 0 <= i < |lines| + 1 ensures !Contains(After(lines, k, l)[i], p) { AfterAt(lines, k, l, if i <= |lines| then i else 0); }
  }

  /** An address has no spaces, so that no name ends in it. */
  lemma NoneInTarget(lines: seq<string>, a: string)
    requires lines != [] && |lines[0]| >= 5 && NoLine(lines, LENGTH) && ' ' !in a
    ensures FirstLine(lines[0 := lines[0][..5] + a], LENGTH) == None
  {
    hide Contains;
    FixedNames();
    var l := lines[0][..5] + a;
    forall j: nat ensures !At(l, LENGTH, j) {
      if j + 15 < |l| { assert l[j + 15] == a[j + 10] && a[j + 10] in a; }
      NotAt(l, LENGTH, j, 15);
    }
    NowhereIn(l, LENGTH);
  }

  lemma NowhereIn(l: string, p: string)
    requires forall j: nat :: !At(l, p, j)
    ensures !Contains(l, p)
  {}

  /**
    A request without the text of a Host, a Connection or a Content-Length header: what follows the first
    five characters of its request line is lost, and the address stands there instead.
   */
  lemma TargetOverwritten(lines: seq<string>, payload: string, a: string)
    requires LinesOk(lines) && |lines[0]| >= 5 && Address(a) && Roomy(lines, payload, a)
    requires !Occurs(lines, payload, HOST) && !Occurs(lines, payload, CONNECTION) && !Occurs(lines, payload, LENGTH)
    ensures UpdatedHeaders(Text(lines, payload), Some(a)) == Some(Text([lines[0][..5] + a, CLOSE] + lines[1..], payload))
  {
    hide Text, UpdatedHeaders, Find, FirstLine, NoLine, Plain;
    UpdatedAlways(lines, payload, a);
    CloseHasNone();
    NoneAfter(lines, 0, CLOSE, HOST);
    NoneAfter(lines, 0, CLOSE, LENGTH);
    AfterAt(lines, 0, CLOSE, 0);
    NoneInTarget(After(lines, 0, CLOSE), a);
    assert After(lines, 0, CLOSE)[0 := lines[0][..5] + a] == [lines[0][..5] + a, CLOSE] + lines[1..];
  }

  // ---------------------------------------------------------------- any text

  /** What follows the first empty line, in characters; 0 without one. */
  function LengthThere(msg: string): string {
    match Find(msg, BLANK, 0) case Some(b) => assert At(msg, BLANK, b); Decimal(|msg| - b - 4) case None => "0"
  }

  function ConnectionEdit(msg: string): Option<string> {
    if Find(msg, CONNECTION, 0).Some? then Some(Overwritten(msg, CONNECTION, "Close"))
    else
      match Find(msg, CRLF, match Find(msg, HOST, 0) case Some(h) => h + 6 case None => 5)
      case Some(e) => assert At(msg, CRLF, e); Some(msg[..e + 2] + (CLOSE + CRLF) + msg[e + 2..])
      case None => if msg == "" then None else Some(msg[..1] + (CLOSE + CRLF) + msg[1..])
  }

  function HostEdit(msg: string, a: string): Option<string> {
    if Find(msg, HOST, 0).Some? then Some(Overwritten(msg, HOST, a))
    else if |msg| < 5 then None
    else Some(msg[..5] + a + msg[EndOfLine(msg, 5)..])
  }

  lemma SetValueAny(msg: string, name: string, v: string)
    requires Small(msg) && 0 < |name| < 64 && Find(msg, name, 0).Some?
    ensures FindPos(msg, name, 0) != NPOS && SetValue(msg, name, v) == Some(Overwritten(msg, name, v))
  {
    hide Find, Replace, GetHdrLgt, Overwritten, At;
    var i := Find(msg, name, 0).value;
    FoundAt(msg, name, i);
    PlusSmall(i, |name|);
    assert "" + msg == msg && "" + Overwritten(msg, name, v) == Overwritten(msg, name, v);
    OverwriteRest("", msg, name, v, i);
  }

  lemma NotAny(msg: string, name: string)
    requires Small(msg) && name != "" && Find(msg, name, 0) == None
    ensures FindPos(msg, name, 0) == NPOS
  {}

  lemma LengthOf(msg: string)
    requires Small(msg)
    ensures ContentLength(msg) == LengthThere(msg)
  {
    hide Find, Decimal;
    match Find(msg, BLANK, 0) {
      case Some(b) =>
        assert At(msg, BLANK, b);
        PlusSmall(b, 4);
        NoDigits();
      case None =>
    }
  }

  lemma NoDigits()
    ensures Decimal(0) == "0"
  {}

  /** A response, whatever its text: only the length is set, and to 0 if there is no empty line. */
  lemma ResponseAny(msg: string)
    requires Small(msg)
    ensures UpdatedHeaders(msg, None) == SetLength(msg) == Some(Overwritten(msg, LENGTH, LengthThere(msg)))
  {
    hide Find, SetValue, ContentLength, LengthThere;
    FixedNames();
    LengthOf(msg);
    if Find(msg, LENGTH, 0).Some? { SetValueAny(msg, LENGTH, LengthThere(msg)); } else { NotAny(msg, LENGTH); }
  }

  lemma ConnectionAny(msg: string)
    requires Small(msg)
    ensures SetConnection(msg) == ConnectionEdit(msg)
  {
    hide Find, SetValue, Overwritten, At;
    FixedNames();
    CloseLine();
    if Find(msg, CONNECTION, 0).Some? {
      SetValueAny(msg, CONNECTION, "Close");
    } else {
      NotAny(msg, CONNECTION);
      HostFrom(msg);
      InsertedAny(msg, match Find(msg, HOST, 0) case Some(h) => h + 6 case None => 5);
    }
  }

  lemma HostFrom(msg: string)
    requires Small(msg)
    ensures Plus(FindPos(msg, HOST, 0), 6) == match Find(msg, HOST, 0) case Some(h) => h + 6 case None => 5
  {
    hide Find;
    FixedNames();
    match Find(msg, HOST, 0) {
      case Some(h) => FoundAt(msg, HOST, h); PlusSmall(h, 6);
      case None => assert Plus(NPOS, 6) == 5;
    }
  }

  lemma InsertedAny(msg: string, from: nat)
    requires Small(msg)
    ensures match Find(msg, CRLF, from)
            case Some(e) => e + 2 <= |msg| && Insert(msg, Plus(FindPos(msg, CRLF, from), 2), CLOSE + CRLF) == Some(msg[..e + 2] + (CLOSE + CRLF) + msg[e + 2..])
            case None => Insert(msg, Plus(FindPos(msg, CRLF, from), 2), CLOSE + CRLF) == if msg == "" then None else Some(msg[..1] + (CLOSE + CRLF) + msg[1..])
  {
    hide Find;
    match Find(msg, CRLF, from) {
      case Some(e) => EndFits(msg, from, e); PlusSmall(e, 2);
      case None => NextAfterNone();
    }
  }

  lemma HostAny(msg: string, a: string)
    requires Small(msg)
    ensures SetValue(msg, HOST, a) == HostEdit(msg, a)
  {
    hide Find, Overwritten, At, EndOfLine, Replace;
    FixedNames();
    if Find(msg, HOST, 0).Some? {
      SetValueAny(msg, HOST, a);
    } else {
      NotAny(msg, HOST);
      HostFrom(msg);
      FromFive(msg, a);
    }
  }

  lemma FromFive(msg: string, a: string)
    requires Small(msg)
    ensures Replace(msg, 5, GetHdrLgt(msg, 5), a) == if |msg| < 5 then None else Some(msg[..5] + a + msg[EndOfLine(msg, 5)..])
  {
    hide Find, At, EndOfLine, GetHdrLgt;
    if |msg| >= 5 {
      assert "" + msg == msg && "" + (msg[..5] + a + msg[EndOfLine(msg, 5)..]) == msg[..5] + a + msg[EndOfLine(msg, 5)..];
      RestOfLine("", msg, 5);
      ReplaceUpTo("", msg, 5, EndOfLine(msg, 5), GetHdrLgt(msg, 5), a);
    }
  }

  lemma OverwrittenFits(msg: string, name: string, v: string)
    ensures |Overwritten(msg, name, v)| <= |msg| + |v|
  {
    hide Find;
    if Find(msg, name, 0).Some? { FoundAt(msg, name, Find(msg, name, 0).value); }
  }

  lemma EditsFit(msg: string, a: string)
    ensures ConnectionEdit(msg).Some? ==> |ConnectionEdit(msg).value| <= |msg| + 19
    ensures HostEdit(msg, a).Some? ==> |HostEdit(msg, a).value| <= |msg| + |a|
  {
    hide Find, Overwritten, EndOfLine;
    CloseLine();
    OverwrittenFits(msg, CONNECTION, "Close");
    OverwrittenFits(msg, HOST, a);
  }

  /**
    A request, whatever its text.  update_headers throws exactly if the text is empty or has, when the Host
    header is to be set, neither such text nor five characters.
   */
  lemma RequestAny(msg: string, a: string)
    requires |msg| + |a| < WORD - 256
    ensures UpdatedHeaders(msg, Some(a)) ==
              match ConnectionEdit(msg)
              case None => None
              case Some(m) =>
                match HostEdit(m, a)
                case None => None
                case Some(m') => Some(Overwritten(m', LENGTH, LengthThere(m')))
  {
    hide Find, SetConnection, SetValue, SetLength, ConnectionEdit, HostEdit, Overwritten, LengthThere;
    ConnectionAny(msg);
    EditsFit(msg, a);
    if ConnectionEdit(msg).Some? {
      var m := ConnectionEdit(msg).value;
      HostAny(m, a);
      EditsFit(m, a);
      if HostEdit(m, a).Some? { ResponseAny(HostEdit(m, a).value); }
    }
  }
}
