/**
  Carrying a message over a socket: do_send and do_recv of common_socket.cpp, and the whole hop.

  TCP is a stream that arrives in chunks; a chunk of 0 stands for the end of the stream or an error.
*/
module HttpTransfer {
  import opened Options
  import opened Words
  import opened Strings
  import opened HttpText
  import opened HttpFraming

  const MSG_LENGTH := 4096

  // ---------------------------------------------------------------- receiving

  /** The loop condition of do_recv, on what has arrived; None when std::stoi throws. */
  function More(buffstr: string): Option<bool>
    requires |buffstr| > 16
  {
    var total := |buffstr|;
    var cl, rn := Find(buffstr, LENGTH, 0), Find(buffstr, BLANK, 0);
    if cl == None then Some(Substr(buffstr, total - 4, total) != Some(BLANK))
    else if rn == None then Some(true)
    else
      match Substr(buffstr, cl.value + 16, FindPos(buffstr, CRLF, cl.value))
      case None => None
      case Some(digits) =>
        match Stoi(digits)
        case None => None
        case Some(n) => Some(total < n + rn.value + 4)
  }

  /** How much recv yields: at most the rest of the chunk, of the stream and of the buffer. */
  function Received(stream: string, chunk: nat, total: nat): nat
    requires total <= |stream| && total <= MSG_LENGTH
  {
    var most := if chunk < |stream| - total then chunk else |stream| - total;
    if most < MSG_LENGTH - total then most else MSG_LENGTH - total
  }

  /** How do_recv ends: std::stoi throws, it returns a size, or it has filled the buffer and writes the final 0 behind it. */
  datatype Outcome = Throws | Returns(size: nat) | Overruns

  /** What do_recv comes to after `total` characters, for the chunks still to come. */
  function Recv(stream: string, chunks: seq<nat>, total: nat): Outcome
    requires total <= |stream| && total <= MSG_LENGTH
    decreases MSG_LENGTH - total
  {
    var recvd := if chunks == [] then 0 else Received(stream, chunks[0], total);
    if recvd > 0 && total + recvd > 16 then
      match More(stream[..total + recvd])
      case None => Throws
      case Some(true) => Recv(stream, chunks[1..], total + recvd)
      case Some(false) => if total + recvd < MSG_LENGTH then Returns(total + recvd) else Overruns
    else Returns(0)
  }

  /** do_recv: every round either ends it or adds to the buffer, which is finite. */
  method DoRecv(stream: string, chunks: seq<nat>) returns (r: Outcome, buffer: string)
    ensures r == Recv(stream, chunks, 0)
    ensures r.Returns? && r.size > 0 ==> r.size <= |stream| && buffer == stream[..r.size]
  {
    hide More;
    var total, i := 0, 0;
    buffer := "";
    assert chunks[0..] == chunks;
    while true
      invariant total <= |stream| && total <= MSG_LENGTH && i <= |chunks| && buffer == stream[..total]
      invariant Recv(stream, chunks, 0) == Recv(stream, chunks[i..], total)
      decreases MSG_LENGTH - total
    {
      var recvd := if i == |chunks| then 0 else Received(stream, chunks[i], total);
      buffer := buffer + stream[total..total + recvd];
      total := total + recvd;
      if !(recvd > 0 && total > 16) { return Returns(0), buffer; }
      assert buffer == stream[..total];
      assert chunks[i..][1..] == chunks[i + 1..];
      match More(buffer) {
        case None => return Throws, buffer;
        case Some(more) => if !more { return if total < MSG_LENGTH then Returns(total) else Overruns, buffer; }
      }
      i := i + 1;
    }
  }

  function Sum(chunks: seq<nat>): nat { if chunks == [] then 0 else chunks[0] + Sum(chunks[1..]) }

  /** The stream m arrives in these chunks. */
  predicate ChunksOf(chunks: seq<nat>, m: nat) { Sum(chunks) == m && forall i | 0 <= i < |chunks| :: chunks[i] > 0 }

  /** What is found in the beginning of a text is what is found in the text, as far as it is complete. */
  lemma FindInPrefix(s: string, p: string, t: nat)
    requires t <= |s| && p != ""
    ensures Find(s[..t], p, 0) == match Find(s, p, 0) case None => None case Some(i) => if i + |p| <= t then Some(i) else None
  {
    hide Find;
    forall j: nat ensures At(s[..t], p, j) <==> j + |p| <= t && At(s, p, j) {
      if j + |p| <= t { assert s[..t][j..j + |p|] == s[j..j + |p|]; }
    }
    match Find(s, p, 0) {
      case None => FindNone(s[..t], p, 0);
      case Some(i) => if i + |p| <= t { FindIs(s[..t], p, 0, i); } else { FindNone(s[..t], p, 0); }
    }
  }

  /** The length text stands first in line l, at o, with w after it. */
  ghost predicate WithLength(lines: seq<string>, l: nat, o: nat, w: string) {
    LinesOk(lines) && FirstLine(lines, LENGTH) == Some(l) && Find(lines[l], LENGTH, 0) == Some(o) && lines[l] == lines[l][..o] + LENGTH + w
  }

  /** Where the length stands in what has arrived, once the header is complete. */
  lemma LengthPlace(lines: seq<string>, payload: string, l: nat, o: nat, w: string, t: nat)
    requires WithLength(lines, l, o, w) && |Head(lines)| + 2 <= t <= |Text(lines, payload)|
    ensures var s, q := Text(lines, payload)[..t], Offset(lines, l) + o;
            && Find(s, LENGTH, 0) == Some(q) && Find(s, BLANK, 0) == Some(|Head(lines)| - 2)
            && FindPos(s, CRLF, q) == q + 16 + |w| && q + 18 + |w| <= t
  {
    hide Find, Head, Text, Offset, Contains, FirstLine, LinesOk, At;
    FixedNames();
    var m, q := Text(lines, payload), Offset(lines, l) + o;
    FindFirst(lines, payload, LENGTH, l, o);
    FindBlank(lines, payload);
    FindLineEnd(lines, payload, l, q);
    LineBeforeBlank(lines, l);
    FindInPrefix(m, LENGTH, t);
    FindInPrefix(m, BLANK, t);
    CrlfInPrefix(m, q, q + 16 + |w|, t);
  }

  /** The text around the length. */
  lemma AroundLength(lines: seq<string>, payload: string, l: nat, o: nat, w: string)
    requires WithLength(lines, l, o, w)
    ensures l < |lines| && o <= |lines[l]|
    ensures var a, z := Head(lines[..l]) + lines[l][..o], CRLF + Head(lines[l + 1..]) + CRLF + payload;
            |a| == Offset(lines, l) + o && Text(lines, payload) == a + (LENGTH + w) + z
  {
    hide Find, Head, Text, Contains, FirstLine, LinesOk, At;
    AroundLine(lines, payload, l);
    FoundAt(lines[l], LENGTH, o);
    Regroup(Head(lines[..l]), lines[l][..o], LENGTH, w, CRLF, Head(lines[l + 1..]), CRLF, payload);
  }

  lemma Regroup(a: string, x: string, p: string, d: string, c: string, h: string, e: string, z: string)
    ensures a + (x + p + d) + c + (h + e + z) == (a + x) + (p + d) + (c + h + e + z)
  {}

  lemma FramedHas(lines: seq<string>, payload: string, l: nat, o: nat)
    requires Framed(lines, payload, l, o)
    ensures WithLength(lines, l, o, Decimal(|payload|))
  {}

  /** The number that do_recv reads once the header is complete. */
  lemma LengthIsRead(lines: seq<string>, payload: string, l: nat, o: nat, t: nat)
    requires Framed(lines, payload, l, o) && |Head(lines)| + 2 <= t <= |Text(lines, payload)| && |payload| < 0x8000_0000
    ensures var s, q := Text(lines, payload)[..t], Offset(lines, l) + o;
            && Find(s, LENGTH, 0) == Some(q) && Find(s, BLANK, 0) == Some(|Head(lines)| - 2)
            && Substr(s, q + 16, FindPos(s, CRLF, q)).Some? && Stoi(Substr(s, q + 16, FindPos(s, CRLF, q)).value) == Some(|payload|)
  {
    hide Find, FindPos, Head, Stoi, Decimal, Text, Offset, Framed, Substr;
    FixedNames();
    FramedHas(lines, payload, l, o);
    LengthPlace(lines, payload, l, o, Decimal(|payload|), t);
    AroundLength(lines, payload, l, o, Decimal(|payload|));
    var a, z := Head(lines[..l]) + lines[l][..o], CRLF + Head(lines[l + 1..]) + CRLF + payload;
    var rest := DigitsThere(Text(lines, payload), t, Offset(lines, l) + o, Decimal(|payload|), a, z);
    StoiDecimal(|payload|, rest);
  }

  lemma Middle(a: string, d: string, z: string, t: nat)
    requires |a| + |d| < t <= |a + d + z|
    ensures (a + d + z)[..t][|a|..][..|d|] == d && (a + d + z)[..t][|a|..][|d|] == z[0]
  {}

  lemma SubstrOf(s: string, pos: nat, len: nat, n: nat)
    requires pos <= |s| && n <= len && n <= |s| - pos
    ensures Substr(s, pos, len) == Some(s[pos..][..n] + s[pos..][n..if len < |s| - pos then len else |s| - pos])
  {
    var w := s[pos..];
    var e := if len < |w| then len else |w|;
    assert w[..n] + w[n..e] == w[..e];
    assert w[..|w|] == w;
    if len < |w| { assert s[pos..pos + len] == w[..len]; }
  }

  /** The digits, and a line end after them. */
  lemma DigitsThere(m: string, t: nat, q: nat, d: string, a: string, z: string) returns (rest: string)
    requires m == a + (LENGTH + d) + z && |a| == q && q + 16 + |d| + 2 <= t <= |m| && d != "" && |z| >= 2 && z[0] == '\r'
    requires |LENGTH| == 16
    ensures rest != "" && !IsDigit(rest[0]) && Substr(m[..t], q + 16, q + 16 + |d|) == Some(d + rest)
  {
    hide Substr;
    var w := m[..t][q + 16..];
    var n := if q + 16 + |d| < |w| then q + 16 + |d| else |w|;
    assert m == (a + LENGTH) + d + z;
    Middle(a + LENGTH, d, z, t);
    SubstrOf(m[..t], q + 16, q + 16 + |d|, |d|);
    rest := w[|d|..n];
    assert rest[0] == w[|d|] && !IsDigit(rest[0]);
    assert Substr(m[..t], q + 16, q + 16 + |d|) == Some(d + rest);
  }

  lemma CrlfInPrefix(m: string, q: nat, e: nat, t: nat)
    requires Find(m, CRLF, q) == Some(e) && e + 2 <= t <= |m|
    ensures FindPos(m[..t], CRLF, q) == e
  {
    hide Find;
    assert m[..t][e..e + 2] == m[e..e + 2];
    forall j: nat | q <= j < e ensures !At(m[..t], CRLF, j) { assert !At(m, CRLF, j) && m[..t][j..j + 2] == m[j..j + 2]; }
    FindIs(m[..t], CRLF, q, e);
  }

  lemma LineBeforeBlank(lines: seq<string>, l: nat)
    requires l < |lines|
    ensures Offset(lines, l) + |lines[l]| + 2 <= |Head(lines)|
  {
    HeadSplit(lines, l);
  }

  /** Until the whole message is there do_recv wants more, and then no more. */
  lemma MoreUntilWhole(lines: seq<string>, payload: string, l: nat, o: nat, t: nat)
    requires Framed(lines, payload, l, o) && 16 < t <= |Text(lines, payload)| && |Text(lines, payload)| < 0x8000_0000
    ensures More(Text(lines, payload)[..t]) == Some(t < |Text(lines, payload)|)
  {
    hide Find, FindPos, Head, Stoi, Decimal, Text, Framed, Substr, Offset;
    FixedNames();
    TextLength(lines, payload);
    if |Head(lines)| + 2 <= t {
      LengthIsRead(lines, payload, l, o, t);
    } else {
      FramedLines(lines, payload, l, o);
      FindBlank(lines, payload);
      FindInPrefix(Text(lines, payload), BLANK, t);
      NoBlankAtEnd(Text(lines, payload)[..t]);
    }
  }

  lemma FramedLines(lines: seq<string>, payload: string, l: nat, o: nat)
    requires Framed(lines, payload, l, o)
    ensures LinesOk(lines)
  {}

  lemma NoBlankAtEnd(s: string)
    requires |s| > 16 && Find(s, BLANK, 0) == None
    ensures Substr(s, |s| - 4, |s|) != Some(BLANK)
  {
    assert s[|s| - 4..] == s[|s| - 4..|s| - 4 + 4];
    assert !At(s, BLANK, |s| - 4);
  }

  lemma RestOfChunks(chunks: seq<nat>, m: nat)
    requires ChunksOf(chunks, m) && (chunks != [] || m > 0)
    ensures chunks != [] && 0 < chunks[0] <= m && ChunksOf(chunks[1..], m - chunks[0])
  {
    forall i | 0 <= i < |chunks[1..]| ensures chunks[1..][i] > 0 { assert chunks[1..][i] == chunks[i + 1]; }
  }

  /** How it ends when n characters of a framed message m arrive, more than 16 of them at first: with the message, or with 0. */
  function Delivered(n: nat, m: nat): Outcome { if n < m || m > MSG_LENGTH then Returns(0) else if m < MSG_LENGTH then Returns(m) else Overruns }

  lemma {:induction false} RecvFrom(lines: seq<string>, payload: string, l: nat, o: nat, n: nat, chunks: seq<nat>, total: nat)
    requires Framed(lines, payload, l, o) && |Text(lines, payload)| < 0x8000_0000 && n <= |Text(lines, payload)|
    requires 16 < total <= n && total <= MSG_LENGTH && total < |Text(lines, payload)| && (ChunksOf(chunks, n - total) || total == MSG_LENGTH)
    ensures Recv(Text(lines, payload)[..n], chunks, total) == Delivered(n, |Text(lines, payload)|)
    decreases |chunks|
  {
    hide Text, More, Recv, ChunksOf, Framed;
    var m := Text(lines, payload);
    if total < MSG_LENGTH && total < n {
      RestOfChunks(chunks, n - total);
      var t := total + Received(m[..n], chunks[0], total);
      PrefixTwice(m, n, t);
      MoreUntilWhole(lines, payload, l, o, t);
      RecvOnce(m[..n], chunks, total);
      if t < |m| { RecvFrom(lines, payload, l, o, n, chunks[1..], t); }
    } else {
      RecvNothing(m[..n], chunks, total);
    }
  }

  lemma PrefixTwice(m: string, n: nat, t: nat)
    requires t <= n <= |m|
    ensures m[..n][..t] == m[..t]
  {}

  /** One more round, in which something arrives. */
  lemma RecvOnce(s: string, chunks: seq<nat>, total: nat)
    requires total < |s| && total < MSG_LENGTH && chunks != [] && chunks[0] > 0
    ensures var t := total + Received(s, chunks[0], total);
            && total < t <= |s| && t <= MSG_LENGTH && (total + chunks[0] <= |s| && t < MSG_LENGTH ==> t == total + chunks[0])
            && (t > 16 && More(s[..t]) == Some(true) ==> Recv(s, chunks, total) == Recv(s, chunks[1..], t))
            && (t > 16 && More(s[..t]) == Some(false) ==> Recv(s, chunks, total) == if t < MSG_LENGTH then Returns(t) else Overruns)
  {
    hide More;
  }

  /** The last round: the buffer is full, or nothing is left. */
  lemma RecvNothing(s: string, chunks: seq<nat>, total: nat)
    requires total <= |s| && total <= MSG_LENGTH && (total == MSG_LENGTH || total == |s|)
    ensures Recv(s, chunks, total) == Returns(0)
  {}

  /**
    However n characters of a framed message arrive, the whole message or what was sent of it: do_recv
    returns it exactly if it is whole, fits the buffer and its first chunk has more than 16 characters; a
    message that just fills the buffer is overrun by the final 0; otherwise it returns 0, and what has
    come is dropped.
   */
  lemma RecvExact(lines: seq<string>, payload: string, l: nat, o: nat, n: nat, chunks: seq<nat>)
    requires Framed(lines, payload, l, o) && |Text(lines, payload)| < 0x8000_0000 && n <= |Text(lines, payload)| && ChunksOf(chunks, n)
    ensures Recv(Text(lines, payload)[..n], chunks, 0) == if chunks != [] && chunks[0] > 16 then Delivered(n, |Text(lines, payload)|) else Returns(0)
  {
    hide Text, More, ChunksOf, Framed;
    var m := Text(lines, payload);
    if chunks != [] {
      RestOfChunks(chunks, n);
      if chunks[0] > 16 {
        hide Recv;
        var t := Received(m[..n], chunks[0], 0);
        PrefixTwice(m, n, t);
        MoreUntilWhole(lines, payload, l, o, t);
        RecvOnce(m[..n], chunks, 0);
        if t < |m| { RecvFrom(lines, payload, l, o, n, chunks[1..], t); }
      }
    }
  }

  /** A message whose first 16 characters arrive alone is dropped. */
  lemma ShortChunkDropped()
    ensures var m := Text([LENGTH + "2"], "hi"); |m| == 23 && ChunksOf([16, 7], |m|) && Recv(m, [16, 7], 0) == Returns(0)
  {
    FixedNames();
    OneLine(LENGTH + "2", "hi");
    assert [16, 7][1..] == [7] && [7][1..] == [];
    assert Sum([7]) == 7 && Sum([16, 7]) == 23;
  }

  /** A message of 4096 characters makes do_recv write behind its buffer. */
  lemma FullBufferOverruns(payload: string)
    requires |payload| == 4072
    ensures var m := Text([LENGTH + "4072"], payload); |m| == MSG_LENGTH && Recv(m, [4096], 0) == Overruns
  {
    hide Find, Recv;
    FixedNames();
    var lines := [LENGTH + "4072"];
    assert Decimal(4) == "4" && Decimal(40) == "40" && Decimal(407) == "407" && Decimal(4072) == "4072";
    OneLine(LENGTH + "4072", payload);
    assert Text(lines, payload)[..4096] == Text(lines, payload);
    FramedOne("4072", payload);
    assert [4096][1..] == [] && Sum([4096]) == 4096;
    RecvExact(lines, payload, 0, 0, 4096, [4096]);
  }

  lemma OneLine(l: string, payload: string)
    ensures |Text([l], payload)| == |l| + 4 + |payload|
  {
    assert Head([l]) == l + CRLF + Head([]);
  }

  lemma FramedOne(d: string, payload: string)
    requires d == Decimal(|payload|)
    ensures Framed([LENGTH + d], payload, 0, 0)
  {
    hide Find, Contains, Decimal, Plain;
    FixedNames();
    DecimalPlain(|payload|);
    LengthPlain(d);
    FoundIn("", LENGTH, d, d);
    assert "" + LENGTH + d == LENGTH + d;
    FramedLine(LENGTH + d, d, payload);
  }

  lemma FramedLine(l: string, d: string, payload: string)
    requires l == LENGTH + d && d == Decimal(|payload|) && Plain(l) && Find(l, LENGTH, 0) == Some(0) && Contains(l, LENGTH) && l != ""
    ensures Framed([l], payload, 0, 0)
  {
    hide Find, Contains, Decimal, Plain, FirstLine;
    FirstLineIs([l], LENGTH, 0);
    FromStart(LENGTH, d);
  }

  lemma FromStart(p: string, d: string)
    ensures (p + d)[..0] + p + d == p + d
  {}

  lemma LengthPlain(d: string)
    requires Plain(d)
    ensures Plain(LENGTH + d)
  {}

  // ---------------------------------------------------------------- sending

  /** How much of a message of this size has been sent when the calls yield these results, up to an error or the end. */
  function Sent(size: nat, results: seq<int>, total: nat): (n: nat)
    requires total <= size
    ensures total <= n <= size
  {
    if total == size || results == [] || !(0 < results[0] <= size - total) then total
    else Sent(size, results[1..], total + results[0])
  }

  /** The first k calls each send something, no more than is left. */
  predicate GoesOut(size: nat, results: seq<int>, k: nat) {
    k <= |results| && (forall i | 0 <= i < k :: results[i] > 0) && Total(results[..k]) <= size
  }

  function Total(results: seq<int>): int { if results == [] then 0 else results[0] + Total(results[1..]) }

  /** What is sent is as much as the longest run of calls without a failure sends. */
  lemma {:induction false} SentMost(size: nat, results: seq<int>, total: nat)
    requires total <= size
    ensures forall k: nat | GoesOut(size - total, results, k) :: total + Total(results[..k]) <= Sent(size, results, total)
    ensures exists k: nat :: GoesOut(size - total, results, k) && Sent(size, results, total) == total + Total(results[..k])
  {
    assert results[..0] == [] && GoesOut(size - total, results, 0);
    if results != [] {
      var rest, left := results[1..], size - total;
      forall k: nat | 0 < k <= |results| ensures Total(results[..k]) == results[0] + Total(rest[..k - 1]) {
        assert results[..k][1..] == rest[..k - 1];
      }
      forall k: nat | 0 < k && GoesOut(left, results, k) ensures 0 < results[0] <= left && GoesOut(left - results[0], rest, k - 1) {
        TotalGrows(rest[..k - 1]);
      }
      if total < size && 0 < results[0] <= size - total {
        SentMost(size, rest, total + results[0]);
        var k: nat :| GoesOut(size - total - results[0], rest, k) && Sent(size, rest, total + results[0]) == total + results[0] + Total(rest[..k]);
        assert GoesOut(size - total, results, k + 1);
      }
    }
  }

  lemma {:induction false} TotalGrows(results: seq<int>)
    requires forall i | 0 <= i < |results| :: results[i] > 0
    ensures Total(results) >= 0
  {
    if results != [] { TotalGrows(results[1..]); }
  }

  /** What do_send returns. */
  function SendResult(size: nat, results: seq<int>): int { if Sent(size, results, 0) == size then size else Sent(size, results, 0) - 1 }

  /** Three of five characters go out, then send fails: do_send says two. */
  lemma SendErrorMiscounts()
    ensures Sent(5, [3, -1], 0) == 3 && SendResult(5, [3, -1]) == 2
  {
    assert [3, -1][1..] == [-1];
  }

  /** do_send; `results` is what the calls of send yield, of which the last one is an error unless all is sent. */
  method DoSend(buffer: string, results: seq<int>) returns (r: int, wire: string)
    requires forall i | 0 <= i < |results| :: results[i] == -1 || results[i] > 0
    ensures wire == buffer[..Sent(|buffer|, results, 0)]
    ensures r == SendResult(|buffer|, results)
  {
    var total, sent, i := 0, 0, 0;
    wire := "";
    assert results[0..] == results;
    while total < |buffer| && sent >= 0
      invariant i <= |results| && total <= |buffer| && (sent < 0 ==> 0 <= total + 1 < |buffer|)
      invariant sent >= 0 ==> 0 <= total && wire == buffer[..total] && Sent(|buffer|, results, 0) == Sent(|buffer|, results[i..], total)
      invariant sent < 0 ==> wire == buffer[..total + 1] && Sent(|buffer|, results, 0) == total + 1
      decreases if sent >= 0 then 1 else 0, |buffer| - total
    {
      sent := if i < |results| && results[i] <= |buffer| - total then results[i] else -1;
      if sent > 0 {
        wire := wire + buffer[total..total + sent];
        assert results[i..][1..] == results[i + 1..];
        i := i + 1;
      }
      total := total + sent;
    }
    r := total;
  }

  // ---------------------------------------------------------------- one hop

  /**
    From one proxy to the next: the request is edited, do_send puts what `results` allow on the wire, and
    that arrives in some chunks.  It is received exactly as it was edited if and only if all of it was
    sent, it is shorter than the buffer, and its first chunk has more than 16 characters; otherwise the
    next proxy gets nothing, or overruns its buffer.
   */
  lemma HopDelivers(lines: seq<string>, payload: string, a: string, results: seq<int>, chunks: seq<nat>)
    requires Request(lines) && Begun(lines, LENGTH) && Address(a) && Roomy(lines, payload, a)
    ensures UpdatedHeaders(Text(lines, payload), Some(a)).Some?
    ensures var m := UpdatedHeaders(Text(lines, payload), Some(a)).value;
            var n := Sent(|m|, results, 0);
            |m| < 0x8000_0000 && ChunksOf(chunks, n) ==>
              && (Recv(m[..n], chunks, 0) == Returns(|m|) <==> n == |m| < MSG_LENGTH && chunks != [] && chunks[0] > 16)
              && (Recv(m[..n], chunks, 0) == Overruns <==> n == |m| == MSG_LENGTH && chunks != [] && chunks[0] > 16)
              && (Recv(m[..n], chunks, 0) in {Returns(0), Returns(|m|), Overruns})
  {
    hide UpdatedHeaders, Text, Recv, Begun, NextLines, NextPayload, Framed, Find;
    UpdatedRequest(lines, payload, a);
    var l, o := NextHopFramed(lines, payload, a);
    var out, pl := NextLines(lines, payload, a), NextPayload(lines, payload, a);
    TextLength(out, pl);
    var m := Text(out, pl);
    var n := Sent(|m|, results, 0);
    if |m| < 0x8000_0000 && ChunksOf(chunks, n) { RecvExact(out, pl, l, o, n, chunks); }
  }
}
