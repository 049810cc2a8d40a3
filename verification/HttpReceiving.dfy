/**
  What do_recv of common_socket.cpp makes of any stream, in whatever chunks it arrives: with a declared
  length, with none, and with one that is no number.
*/
module HttpReceiving {
  import opened Options
  import opened Words
  import opened Strings
  import opened HttpText
  import opened HttpFraming
  import opened HttpTransfer

  // ---------------------------------------------------------------- when more is wanted

  predicate EndsEmpty(s: string) { |s| >= 4 && s[|s| - 4..] == BLANK }

  /** The text from q to the end of its line, or of all that is there. */
  function LineText(s: string, q: nat): string
    requires q <= |s|
  {
    match Find(s, CRLF, q) case Some(e) => s[q..e] case None => s[q..]
  }

  lemma {:induction false} SkipSpacesThen(w: string, rest: string)
    requires !AllSpaces(w)
    ensures SkipSpaces(w) != "" && SkipSpaces(w + rest) == SkipSpaces(w) + rest
  {
    assert (w + rest)[1..] == w[1..] + rest;
    if IsSpace(w[0]) {
      assert forall i | 0 < i < |w| :: w[i] == w[1..][i - 1];
      SkipSpacesThen(w[1..], rest);
    }
  }

  lemma {:induction false} DigitsThen(u: string, rest: string)
    requires rest != "" ==> !IsDigit(rest[0])
    ensures Digits(u + rest) == Digits(u)
  {
    if u == "" {
      assert u + rest == rest;
    } else {
      assert (u + rest)[1..] == u[1..] + rest;
      DigitsThen(u[1..], rest);
    }
  }

  /** std::stoi reads no further than its line. */
  lemma StoiLine(w: string, rest: string)
    requires !AllSpaces(w) && (rest != "" ==> !IsDigit(rest[0]))
    ensures Stoi(w + rest) == Stoi(w)
  {
    hide SkipSpaces, Digits, Value;
    SkipSpacesThen(w, rest);
    var t := SkipSpaces(w);
    var u := if t[0] == '-' || t[0] == '+' then t[1..] else t;
    assert (t + rest)[1..] == t[1..] + rest;
    DigitsThen(u, rest);
    assert (u + rest)[..Digits(u)] == u[..Digits(u)];
  }

  lemma NoLineEndIn(s: string, q: nat)
    requires At(s, LENGTH, q)
    ensures q + 16 <= |s| && Find(s, CRLF, q) == Find(s, CRLF, q + 16)
  {
    hide Find;
    FixedNames();
    forall j: nat | q <= j < q + 16 ensures !At(s, CRLF, j) {
      assert s[j] == LENGTH[j - q] && LENGTH[j - q] in LENGTH;
      NotAt(s, CRLF, j, 0);
    }
    match Find(s, CRLF, q) {
      case Some(e) => FindIs(s, CRLF, q + 16, e);
      case None => FindNone(s, CRLF, q + 16);
    }
  }

  /** The text that std::stoi is given: the line, and what follows it. */
  lemma NumberText(s: string, q: nat) returns (rest: string)
    requires At(s, LENGTH, q) && |s| < NPOS
    ensures q + 16 <= |s| && Substr(s, q + 16, FindPos(s, CRLF, q)) == Some(LineText(s, q + 16) + rest)
    ensures rest != "" ==> !IsDigit(rest[0])
  {
    hide Find;
    NoLineEndIn(s, q);
    match Find(s, CRLF, q) {
      case Some(e) =>
        SubstrOf(s, q + 16, e, e - (q + 16));
        assert s[q + 16..][..e - (q + 16)] == s[q + 16..e];
        rest := s[q + 16..][e - (q + 16)..if e < |s| - (q + 16) then e else |s| - (q + 16)];
        assert s[e..e + 2][0] == s[e];
      case None =>
        rest := "";
        assert s[q + 16..] + rest == s[q + 16..];
    }
  }

  /** The text behind the length text, as long as the place of its line end, or to the end. */
  function Beyond(s: string): string
    requires Find(s, LENGTH, 0).Some?
  {
    assert At(s, LENGTH, Find(s, LENGTH, 0).value) && |LENGTH| == 16;
    var rest := s[Find(s, LENGTH, 0).value + 16..];
    match Find(s, CRLF, Find(s, LENGTH, 0).value + 16) case Some(e) => if e < |rest| then rest[..e] else rest case None => rest
  }

  lemma BeyondIs(s: string, q: nat)
    requires Find(s, LENGTH, 0) == Some(q) && |s| < NPOS
    ensures Substr(s, q + 16, FindPos(s, CRLF, q)) == Some(Beyond(s))
  {
    hide Find, Substr, At;
    FixedNames();
    FoundAt(s, LENGTH, q);
    NoLineEndIn(s, q);
    SubstrIs(s, q + 16, FindPos(s, CRLF, q));
  }

  lemma SubstrIs(s: string, pos: nat, len: nat)
    requires pos <= |s|
    ensures Substr(s, pos, len) == Some(if len < |s[pos..]| then s[pos..][..len] else s[pos..])
  {
    if len < |s| - pos { assert s[pos..pos + len] == s[pos..][..len]; }
  }

  /**
    When do_recv goes on: without the length text, unless the last four characters are an empty line; with
    it, until an empty line is there; then until as much has come as the number on its line says, or, if
    that line is blank, the number that follows it.
   */
  lemma MoreExactly(s: string)
    requires 16 < |s| < NPOS
    ensures Find(s, LENGTH, 0) == None ==> More(s) == Some(!EndsEmpty(s))
    ensures Find(s, LENGTH, 0).Some? && Find(s, BLANK, 0) == None ==> More(s) == Some(true)
    ensures Find(s, LENGTH, 0).Some? && Find(s, BLANK, 0).Some? && !AllSpaces(Declared(s)) ==>
              More(s) == match Stoi(Declared(s)) case None => None case Some(n) => Some(|s| < n + Find(s, BLANK, 0).value + 4)
    ensures Find(s, LENGTH, 0).Some? && Find(s, BLANK, 0).Some? && AllSpaces(Declared(s)) ==>
              More(s) == match Stoi(Beyond(s)) case None => None case Some(n) => Some(|s| < n + Find(s, BLANK, 0).value + 4)
  {
    hide Find, Stoi, FindPos, LineText, AllSpaces, Beyond;
    match Find(s, LENGTH, 0) {
      case None =>
      case Some(q) =>
        FixedNames();
        var rest := NumberText(s, q);
        if !AllSpaces(Declared(s)) { StoiLine(Declared(s), rest); } else { BeyondIs(s, q); }
    }
  }

  /** What stands on its line behind the length text. */
  function Declared(s: string): string
    requires Find(s, LENGTH, 0).Some?
  {
    assert At(s, LENGTH, Find(s, LENGTH, 0).value) && |LENGTH| == 16;
    LineText(s, Find(s, LENGTH, 0).value + 16)
  }

  // ---------------------------------------------------------------- any stream

  /** How much is there after k chunks. */
  function Arrived(chunks: seq<nat>, k: nat): (t: nat)
    requires k <= |chunks|
    ensures t <= MSG_LENGTH
  {
    if Sum(chunks[..k]) < MSG_LENGTH then Sum(chunks[..k]) else MSG_LENGTH
  }

  lemma {:induction false} SumSplit(chunks: seq<nat>, k: nat)
    requires k <= |chunks|
    ensures Sum(chunks) == Sum(chunks[..k]) + Sum(chunks[k..])
  {
    if k > 0 {
      SumSplit(chunks[1..], k - 1);
      assert chunks[..k][1..] == chunks[1..][..k - 1] && chunks[1..][k - 1..] == chunks[k..];
    } else {
      assert chunks[0..] == chunks;
    }
  }

  lemma SumNext(chunks: seq<nat>, k: nat)
    requires k < |chunks|
    ensures Sum(chunks[..k + 1]) == Sum(chunks[..k]) + chunks[k] && Sum(chunks[..k + 1]) <= Sum(chunks)
  {
    SumSplit(chunks[..k + 1], k);
    SumSplit(chunks, k + 1);
    assert chunks[..k + 1][..k] == chunks[..k] && chunks[..k + 1][k..] == [chunks[k]];
    assert [chunks[k]][1..] == [] && Sum([chunks[k]]) == chunks[k];
  }

  lemma ArrivedAll(chunks: seq<nat>, k: nat)
    requires k <= |chunks|
    ensures Arrived(chunks, k) <= Sum(chunks)
  {
    SumSplit(chunks, k);
  }

  /** With this much do_recv goes on. */
  predicate Wants(s: string) { |s| > 16 && More(s) == Some(true) }

  /** After chunk k, and not before, do_recv does not go on. */
  ghost predicate Stops(s: string, chunks: seq<nat>, k: nat)
    requires ChunksOf(chunks, |s|)
  {
    1 <= k <= |chunks| && !WantsAt(s, chunks, k) && forall j | 1 <= j < k :: WantsAt(s, chunks, j)
  }

  predicate WantsAt(s: string, chunks: seq<nat>, k: nat)
    requires ChunksOf(chunks, |s|) && k <= |chunks|
  {
    ArrivedAll(chunks, k);
    Wants(s[..Arrived(chunks, k)])
  }

  /** How it ends there. */
  function Ending(s: string): Outcome {
    if |s| <= 16 then Returns(0)
    else
      match More(s)
      case None => Throws
      case Some(_) => if |s| < MSG_LENGTH then Returns(|s|) else Overruns
  }

  lemma ReceivedNext(s: string, chunks: seq<nat>, i: nat)
    requires ChunksOf(chunks, |s|) && i < |chunks| && Arrived(chunks, i) < MSG_LENGTH
    ensures Arrived(chunks, i) < |s| && Arrived(chunks, i) + Received(s, chunks[i], Arrived(chunks, i)) == Arrived(chunks, i + 1) > Arrived(chunks, i)
  {
    SumNext(chunks, i);
  }

  lemma {:induction false} RecvStopsFrom(s: string, chunks: seq<nat>, k: nat, i: nat)
    requires ChunksOf(chunks, |s|) && Stops(s, chunks, k) && i < k
    ensures Arrived(chunks, i) <= |s| && Arrived(chunks, k) <= |s|
    ensures Recv(s, chunks[i..], Arrived(chunks, i)) == Ending(s[..Arrived(chunks, k)])
    decreases k - i
  {
    hide More, ChunksOf, Arrived;
    ArrivedAll(chunks, i);
    ArrivedAll(chunks, k);
    RoomBefore(s, chunks, k, i);
    ReceivedNext(s, chunks, i);
    assert chunks[i..][0] == chunks[i] && chunks[i..][1..] == chunks[i + 1..];
    if i + 1 < k {
      assert WantsAt(s, chunks, i + 1);
      RecvStopsFrom(s, chunks, k, i + 1);
    }
  }

  /** The buffer is not full before the chunk with which it stops. */
  lemma RoomBefore(s: string, chunks: seq<nat>, k: nat, i: nat)
    requires ChunksOf(chunks, |s|) && Stops(s, chunks, k) && i < k
    ensures Arrived(chunks, i) < MSG_LENGTH
  {
    hide More;
    assert Arrived(chunks, i) == Arrived(chunks, k) ==> (WantsAt(s, chunks, i) <==> WantsAt(s, chunks, k));
    if Arrived(chunks, i) == MSG_LENGTH { FullStays(chunks, i, k); }
  }

  lemma FullStays(chunks: seq<nat>, i: nat, k: nat)
    requires i <= k <= |chunks| && Arrived(chunks, i) == MSG_LENGTH
    ensures Arrived(chunks, k) == MSG_LENGTH && i > 0
  {
    SumSplit(chunks[..k], i);
    assert chunks[..k][..i] == chunks[..i];
    assert Sum(chunks[..0]) == 0;
  }

  lemma {:induction false} RecvNeverStops(s: string, chunks: seq<nat>, i: nat)
    requires ChunksOf(chunks, |s|) && i <= |chunks| && forall j | 1 <= j <= |chunks| :: WantsAt(s, chunks, j)
    ensures Arrived(chunks, i) <= |s| && Recv(s, chunks[i..], Arrived(chunks, i)) == Returns(0)
    decreases |chunks| - i
  {
    hide More, ChunksOf, Arrived;
    ArrivedAll(chunks, i);
    if Arrived(chunks, i) == MSG_LENGTH || i == |chunks| {
      AllArrived(s, chunks, i);
      RecvNothing(s, chunks[i..], Arrived(chunks, i));
    } else {
      ReceivedNext(s, chunks, i);
      assert chunks[i..][0] == chunks[i] && chunks[i..][1..] == chunks[i + 1..];
      assert WantsAt(s, chunks, i + 1);
      RecvNeverStops(s, chunks, i + 1);
    }
  }

  lemma AllArrived(s: string, chunks: seq<nat>, i: nat)
    requires ChunksOf(chunks, |s|) && i <= |chunks| && (Arrived(chunks, i) == MSG_LENGTH || i == |chunks|)
    ensures Arrived(chunks, i) <= |s| && (Arrived(chunks, i) == MSG_LENGTH || Arrived(chunks, i) == |s|)
  {
    assert chunks[..|chunks|] == chunks;
    ArrivedAll(chunks, i);
  }

  lemma NothingYet(s: string, chunks: seq<nat>)
    ensures Arrived(chunks, 0) == 0 && chunks[0..] == chunks
  {
    assert chunks[..0] == [];
  }

  /**
    Any stream, in any chunks: do_recv looks at what is there after each chunk and ends after the first with
    which it does not want more. If it always wants more it returns 0.
   */
  lemma RecvStops(s: string, chunks: seq<nat>)
    requires ChunksOf(chunks, |s|)
    ensures forall k | Stops(s, chunks, k) :: Arrived(chunks, k) <= |s| && Recv(s, chunks, 0) == Ending(s[..Arrived(chunks, k)])
    ensures (forall k: nat :: !Stops(s, chunks, k)) ==> Recv(s, chunks, 0) == Returns(0)
  {
    hide More, Recv, ChunksOf, Arrived, WantsAt;
    NothingYet(s, chunks);
    forall k | Stops(s, chunks, k) ensures Arrived(chunks, k) <= |s| && Recv(s, chunks, 0) == Ending(s[..Arrived(chunks, k)]) { RecvStopsFrom(s, chunks, k, 0); }
    if forall k: nat :: !Stops(s, chunks, k) {
      NeverStops(s, chunks, |chunks|);
      RecvNeverStops(s, chunks, 0);
    }
  }

  lemma {:induction false} NeverStops(s: string, chunks: seq<nat>, n: nat)
    requires ChunksOf(chunks, |s|) && n <= |chunks| && forall k: nat :: !Stops(s, chunks, k)
    ensures forall j | 1 <= j <= n :: WantsAt(s, chunks, j)
  {
    hide ChunksOf, WantsAt;
    if n > 0 {
      NeverStops(s, chunks, n - 1);
      assert !Stops(s, chunks, n);
    }
  }

  // ---------------------------------------------------------------- without a length

  /** What has come after chunk k ends in an empty line, and did not after an earlier one. */
  ghost predicate EmptyLineAfter(s: string, chunks: seq<nat>, k: nat)
    requires ChunksOf(chunks, |s|)
  {
    1 <= k <= |chunks| && EndsEmptyAt(s, chunks, k) && forall j | 1 <= j < k :: !EndsEmptyAt(s, chunks, j)
  }

  predicate EndsEmptyAt(s: string, chunks: seq<nat>, k: nat)
    requires ChunksOf(chunks, |s|) && k <= |chunks|
  {
    ArrivedAll(chunks, k);
    EndsEmpty(s[..Arrived(chunks, k)])
  }

  lemma WantsEmptyLine(s: string, t: nat)
    requires Find(s, LENGTH, 0) == None && 16 < t <= |s| && t <= MSG_LENGTH
    ensures Wants(s[..t]) <==> !EndsEmpty(s[..t])
    ensures More(s[..t]).Some?
  {
    hide Find, More;
    FixedNames();
    FindInPrefix(s, LENGTH, t);
    MoreExactly(s[..t]);
  }

  lemma FirstChunk(chunks: seq<nat>, m: nat, k: nat)
    requires ChunksOf(chunks, m) && 1 <= k <= |chunks| && chunks[0] > 16
    ensures 16 < Arrived(chunks, k) <= m
  {
    SumSplit(chunks[..k], 1);
    assert chunks[..k][..1] == [chunks[0]];
    assert [chunks[0]][1..] == [] && Sum([chunks[0]]) == chunks[0];
    ArrivedAll(chunks, k);
  }

  lemma ShortFirstChunk(s: string, chunks: seq<nat>)
    requires ChunksOf(chunks, |s|) && (chunks == [] || chunks[0] <= 16)
    ensures Recv(s, chunks, 0) == Returns(0)
  {}

  /**
    A stream without a declared length: do_recv returns after the first chunk with which what has come ends
    in an empty line, whatever is still to follow; if there is none it returns 0.
   */
  lemma RecvUndeclared(s: string, chunks: seq<nat>)
    requires ChunksOf(chunks, |s|) && Find(s, LENGTH, 0) == None
    ensures chunks == [] || chunks[0] <= 16 ==> Recv(s, chunks, 0) == Returns(0)
    ensures chunks != [] && chunks[0] > 16 ==>
              && (forall k | EmptyLineAfter(s, chunks, k) ::
                    Recv(s, chunks, 0) == if Arrived(chunks, k) < MSG_LENGTH then Returns(Arrived(chunks, k)) else Overruns)
              && ((forall k: nat :: !EmptyLineAfter(s, chunks, k)) ==> Recv(s, chunks, 0) == Returns(0))
  {
    hide More, Recv, ChunksOf, Arrived, Find, Wants, EndsEmpty;
    if chunks == [] || chunks[0] <= 16 {
      ShortFirstChunk(s, chunks);
    } else {
      forall k | 1 <= k <= |chunks| ensures WantsAt(s, chunks, k) <==> !EndsEmptyAt(s, chunks, k) { WantsUndeclared(s, chunks, k); }
      forall k: nat ensures Stops(s, chunks, k) <==> EmptyLineAfter(s, chunks, k) {}
      RecvStops(s, chunks);
      forall k | EmptyLineAfter(s, chunks, k) ensures Recv(s, chunks, 0) == if Arrived(chunks, k) < MSG_LENGTH then Returns(Arrived(chunks, k)) else Overruns {
        FirstChunk(chunks, |s|, k);
        WantsEmptyLine(s, Arrived(chunks, k));
      }
    }
  }

  lemma WantsUndeclared(s: string, chunks: seq<nat>, k: nat)
    requires ChunksOf(chunks, |s|) && Find(s, LENGTH, 0) == None && 1 <= k <= |chunks| && chunks[0] > 16
    ensures WantsAt(s, chunks, k) <==> !EndsEmptyAt(s, chunks, k)
  {
    hide More, ChunksOf, Arrived, Find, Wants, EndsEmpty;
    FirstChunk(chunks, |s|, k);
    WantsEmptyLine(s, Arrived(chunks, k));
  }

  /** A header without a length and without a payload: only the whole of it ends in an empty line. */
  lemma EmptyLineLast(lines: seq<string>, t: nat)
    requires LinesOk(lines) && t <= |Text(lines, "")|
    ensures EndsEmpty(Text(lines, "")[..t]) <==> t == |Text(lines, "")|
  {
    hide Find, LinesOk, Head;
    var m := Text(lines, "");
    FindBlank(lines, "");
    if t >= 4 {
      assert m[..t][t - 4..] == m[t - 4..t];
      assert At(m, BLANK, t - 4) <==> EndsEmpty(m[..t]);
    }
  }

  /**
    However n characters of a message without payload and without a declared length arrive: do_recv returns
    it exactly if it is whole, shorter than the buffer and its first chunk has more than 16 characters.
   */
  lemma HeaderOnlyExact(lines: seq<string>, n: nat, chunks: seq<nat>)
    requires LinesOk(lines) && NoLine(lines, LENGTH) && n <= |Text(lines, "")| && ChunksOf(chunks, n)
    ensures Recv(Text(lines, "")[..n], chunks, 0) == if chunks != [] && chunks[0] > 16 then Delivered(n, |Text(lines, "")|) else Returns(0)
  {
    hide More, Recv, ChunksOf, Arrived, Find, EndsEmpty, LinesOk, NoLine, Text;
    var m := Text(lines, "");
    var s := m[..n];
    FixedNames();
    FindInPayload(lines, "", LENGTH);
    assert Find("", LENGTH, 0) == None by { FindNone("", LENGTH, 0); }
    FindInPrefix(m, LENGTH, n);
    RecvUndeclared(s, chunks);
    if chunks != [] && chunks[0] > 16 {
      forall k | 1 <= k <= |chunks| ensures EndsEmptyAt(s, chunks, k) <==> Arrived(chunks, k) == |m| {
        FirstChunk(chunks, n, k);
        PrefixTwice(m, n, Arrived(chunks, k));
        EmptyLineLast(lines, Arrived(chunks, k));
      }
      LastChunk(s, chunks, n, |m|);
    }
  }

  /** If only all of m ends in an empty line, the end is with the chunk that fills the message, or the buffer. */
  lemma LastChunk(s: string, chunks: seq<nat>, n: nat, m: nat)
    requires ChunksOf(chunks, |s|) && |s| == n <= m && chunks != [] && chunks[0] > 16
    requires forall k | 1 <= k <= |chunks| :: EndsEmptyAt(s, chunks, k) <==> Arrived(chunks, k) == m
    ensures n < m || m > MSG_LENGTH ==> forall k: nat :: !EmptyLineAfter(s, chunks, k)
    ensures n == m <= MSG_LENGTH ==> exists k :: EmptyLineAfter(s, chunks, k) && Arrived(chunks, k) == m
  {
    hide EndsEmptyAt;
    forall k: nat | 1 <= k <= |chunks| ensures Arrived(chunks, k) <= n { ArrivedAll(chunks, k); }
    if n == m <= MSG_LENGTH {
      assert chunks[..|chunks|] == chunks;
      assert EndsEmptyAt(s, chunks, |chunks|);
      FirstEmptyLine(s, chunks, |chunks|);
    }
  }

  lemma {:induction false} FirstEmptyLine(s: string, chunks: seq<nat>, k: nat)
    requires ChunksOf(chunks, |s|) && 1 <= k <= |chunks| && EndsEmptyAt(s, chunks, k)
    ensures exists j :: EmptyLineAfter(s, chunks, j)
  {
    hide EndsEmptyAt, ChunksOf;
    if j: nat :| 1 <= j < k && EndsEmptyAt(s, chunks, j) {
      FirstEmptyLine(s, chunks, j);
    } else {
      assert EmptyLineAfter(s, chunks, k);
    }
  }

  // ---------------------------------------------------------------- with a length

  /** Once the header is there the number on its line decides, whatever the payload is; before that more is wanted. */
  lemma MoreDeclared(lines: seq<string>, payload: string, l: nat, o: nat, w: string, t: nat)
    requires WithLength(lines, l, o, w) && !AllSpaces(w) && 16 < t <= |Text(lines, payload)| && t <= MSG_LENGTH
    ensures t < |Head(lines)| + 2 ==> More(Text(lines, payload)[..t]) == Some(true)
    ensures |Head(lines)| + 2 <= t ==>
              More(Text(lines, payload)[..t]) == match Stoi(w) case None => None case Some(n) => Some(t < |Head(lines)| + 2 + n)
  {
    hide Find, FindPos, Head, Stoi, Text, Offset, More, LinesOk, FirstLine, AllSpaces, At, EndsEmpty;
    var s := Text(lines, payload)[..t];
    FindBlank(lines, payload);
    FindInPrefix(Text(lines, payload), BLANK, t);
    MoreExactly(s);
    if t < |Head(lines)| + 2 {
      NoEmptyEnd(s);
    } else {
      LengthPlace(lines, payload, l, o, w, t);
      DeclaredIs(lines, payload, l, o, w, t);
    }
  }

  lemma NoEmptyEnd(s: string)
    requires |s| > 16 && Find(s, BLANK, 0) == None
    ensures !EndsEmpty(s)
  {
    hide Find;
    assert !At(s, BLANK, |s| - 4);
    assert s[|s| - 4..] == s[|s| - 4..|s| - 4 + 4];
  }

  lemma DeclaredIs(lines: seq<string>, payload: string, l: nat, o: nat, w: string, t: nat)
    requires WithLength(lines, l, o, w) && |Head(lines)| + 2 <= t <= |Text(lines, payload)| && t <= MSG_LENGTH
    ensures Find(Text(lines, payload)[..t], LENGTH, 0).Some? && Declared(Text(lines, payload)[..t]) == w
  {
    hide Find, Head, Text, Offset, LinesOk, FirstLine;
    FixedNames();
    LengthPlace(lines, payload, l, o, w, t);
    AroundLength(lines, payload, l, o, w);
    var s, q := Text(lines, payload)[..t], Offset(lines, l) + o;
    NoLineEndIn(s, q);
    var a, z := Head(lines[..l]) + lines[l][..o], CRLF + Head(lines[l + 1..]) + CRLF + payload;
    assert Text(lines, payload) == (a + LENGTH) + w + z;
    Middle(a + LENGTH, w, z, t);
    assert s[q + 16..][..|w|] == s[q + 16..q + 16 + |w|];
  }

  /** How much do_recv waits for when the number is n: the header, and the payload it announces. */
  function Awaited(lines: seq<string>, n: Option<int>): nat {
    |Head(lines)| + 2 + match n case None => 0 case Some(m) => if m > 0 then m else 0
  }

  /** With chunk k at least that much has come, and not before. */
  predicate Reaches(chunks: seq<nat>, k: nat, t: nat) {
    1 <= k <= |chunks| && Arrived(chunks, k) >= t && forall j | 1 <= j < k :: Arrived(chunks, j) < t
  }

  /**
    A declared length, right or wrong: do_recv returns what has come with the chunk that completes the
    header and as many characters as the length says.  A length that is no number makes it throw when the
    header is complete.
   */
  lemma RecvDeclared(lines: seq<string>, payload: string, l: nat, o: nat, w: string, chunks: seq<nat>)
    requires WithLength(lines, l, o, w) && !AllSpaces(w) && ChunksOf(chunks, |Text(lines, payload)|) && chunks[0] > 16
    ensures var s, n := Text(lines, payload), Stoi(w);
            && (forall k | Reaches(chunks, k, Awaited(lines, n)) ::
                  Recv(s, chunks, 0) == if n == None then Throws else if Arrived(chunks, k) < MSG_LENGTH then Returns(Arrived(chunks, k)) else Overruns)
            && ((forall k: nat :: !Reaches(chunks, k, Awaited(lines, n))) ==> Recv(s, chunks, 0) == Returns(0))
  {
    hide More, Recv, ChunksOf, Arrived, Head, Text, WithLength, AllSpaces, Stoi;
    var s, t := Text(lines, payload), Awaited(lines, Stoi(w));
    forall k | 1 <= k <= |chunks| ensures WantsAt(s, chunks, k) <==> Arrived(chunks, k) < t {
      FirstChunk(chunks, |s|, k);
      MoreDeclared(lines, payload, l, o, w, Arrived(chunks, k));
    }
    forall k: nat ensures Stops(s, chunks, k) <==> Reaches(chunks, k, t) {}
    RecvStops(s, chunks);
    forall k | Reaches(chunks, k, t)
      ensures Recv(s, chunks, 0) == if Stoi(w) == None then Throws else if Arrived(chunks, k) < MSG_LENGTH then Returns(Arrived(chunks, k)) else Overruns
    {
      FirstChunk(chunks, |s|, k);
      MoreDeclared(lines, payload, l, o, w, Arrived(chunks, k));
    }
  }
}
