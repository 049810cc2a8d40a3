/**
  The JSON field editor of the enclave (Enclave.cpp): json_get_id_value reads the text of a field,
  json_change_id_value overwrites it. Both search for the field's name, the next colon and the next
  comma (or else brace), with positions that are machine words.
*/
module JsonFields {
  import opened Options
  import opened Words
  import opened Strings
  import opened HttpText
  import opened HttpFraming

  const ESCAPED_QUOTE := "\\\""
  const QUOTE := "\""

  /** The length that get_encoding_escape reports: a search result counts as true unless it is 0. */
  function WrapLength(json: string): nat {
    if FindPos(json, ESCAPED_QUOTE, 0) != 0 then 2 else if FindPos(json, QUOTE, 0) != 0 then 1 else 0
  }

  /** Where the payload starts; the whole text counts when there is none. */
  function PayloadStart(msg: string): (p: nat)
    ensures p <= |msg|
  {
    var p := GetPldPos(msg);
    if p == NPOS || p >= |msg| then 0 else p
  }

  /** extract_pld */
  function ExtractPld(msg: string): (r: string)
    ensures r == msg[PayloadStart(msg)..]
  {
    var p := GetPldPos(msg);
    if p != NPOS && p < |msg| then (match Substr(msg, p, |msg|) case Some(t) => t case None => msg) else msg
  }

  /** The three positions that both operations compute. */
  datatype Place = Place(id: nat, v: nat, end: nat) {
    predicate Complete() { id != NPOS && v != NPOS && end != NPOS }
  }

  function SkipSpace(json: string, colon: nat): nat {
    var next := Plus(colon, 1);
    if next < |json| && json[next] == ' ' then next else colon
  }

  function FieldEnd(json: string, v: nat): nat {
    var comma := FindPos(json, ",", v);
    if comma == NPOS then FindPos(json, "}", v) else comma
  }

  function FindPlace(json: string, id: string, start: nat): Place {
    var posID := FindPos(json, id, start);
    var posV := SkipSpace(json, FindPos(json, ":", Plus(posID, |id|)));
    Place(posID, posV, FieldEnd(json, posV))
  }

  /** A difference of sizes is a size_t. */
  function Wrapped(n: int): nat { n % WORD }

  /** A size_t as a 32-bit int. */
  function ToInt(x: nat): int { (x + 0x8000_0000) % 0x1_0000_0000 - 0x8000_0000 }

  /** What json_get_id_value returns: nothing, or a C string and its reported length; Fault is a copy of a negative length. */
  datatype Reading = Missing | Found(text: string, length: int) | Fault

  /** copy_string, as the C string that callers see. */
  function Copied(s: string, length: int): Reading {
    if length < 0 then Fault else Found(if length < |s| then s[..length] else s, length)
  }

  function Picked(json: string, place: Place): Reading {
    if !place.Complete() then Missing
    else
      var from := Plus(place.v, WrapLength(json));
      var length := ToInt(Wrapped(place.end - from));
      match Substr(json, from, Wrapped(length - 1))
      case None => Fault
      case Some(t) => Copied(t, length)
  }

  function Value(msg: string, id: string, start: nat): Reading {
    Picked(ExtractPld(msg), FindPlace(ExtractPld(msg), id, start))
  }

  function Edited(json: string, place: Place, v: string): Option<string> {
    if !place.Complete() then Some(json)
    else
      var from := Plus(place.v, WrapLength(json));
      Replace(json, from, Wrapped(place.end - from - 1), v)
  }

  function Changed(msg: string, id: string, v: string, start: nat): Option<string> {
    var p := PayloadStart(msg);
    match Edited(msg[p..], FindPlace(msg[p..], id, start), v)
    case None => None
    case Some(json) => Replace(msg, p, |msg| - p, json)
  }

  /** json_get_id_value; `start` is moved to the end of the field. */
  method JsonGetIdValue(msg: string, id: string, start: nat) returns (r: Reading, start': nat)
    ensures r == Value(msg, id, start) && start' == FindPlace(ExtractPld(msg), id, start).end
  {
    hide Find, FindPos, Plus, Substr;
    var json := ExtractPld(msg);
    var posID := FindPos(json, id, start);
    var posV: int := FindPos(json, ":", Plus(posID, |id|));
    if Plus(posV, 1) < |json| && json[Plus(posV, 1)] == ' ' { posV := Plus(posV, 1); }
    var posEnd: int := FindPos(json, ",", posV);
    if posEnd == NPOS { posEnd := FindPos(json, "}", posV); }
    start' := posEnd;
    if posID != NPOS && posV != NPOS && posEnd != NPOS {
      posV := Plus(posV, WrapLength(json));
      var vlen := ToInt(Wrapped(posEnd - posV));
      match Substr(json, posV, Wrapped(vlen - 1)) {
        case None => r := Fault;
        case Some(t) => r := Copied(t, vlen);
      }
    } else {
      r := Missing;
    }
  }

  /** json_change_id_value; None when a string operation throws. */
  method JsonChangeIdValue(msg: string, id: string, v: string, start: nat) returns (r: Option<string>)
    ensures r == Changed(msg, id, v, start)
  {
    hide Find, FindPos, Plus, WrapLength, GetPldPos, Replace;
    var pldPos := GetPldPos(msg);
    if pldPos == NPOS || pldPos >= |msg| { pldPos := 0; }
    var json := msg[pldPos..];
    var posID := FindPos(json, id, start);
    var posV: int := FindPos(json, ":", Plus(posID, |id|));
    if Plus(posV, 1) < |json| && json[Plus(posV, 1)] == ' ' { posV := Plus(posV, 1); }
    var posEnd: int := FindPos(json, ",", posV);
    if posEnd == NPOS { posEnd := FindPos(json, "}", posV); }
    if posID != NPOS && posV != NPOS && posEnd != NPOS {
      posV := Plus(posV, WrapLength(json));
      var edited := Replace(json, posV, Wrapped(posEnd - posV - 1), v);
      if edited == None { return None; }
      json := edited.value;
      r := Replace(msg, pldPos, |msg| - pldPos, json);
    } else {
      ReplaceSame(msg, pldPos);
      r := Some(msg);
    }
  }

  lemma ReplaceSame(msg: string, p: nat)
    requires p <= |msg|
    ensures Replace(msg, p, |msg| - p, msg[p..]) == Some(msg)
  {
    assert msg[..p] + msg[p..] + msg[|msg|..] == msg;
  }

  // ---------------------------------------------------------------- where a field is

  /** A text whose length an int can count, with room for the new value. */
  predicate Counted(s: string, v: string) { |s| + |v| + 8 < 0x8000_0000 }

  /** The first match of the name is at i, and the next colon at c. */
  predicate KeyAt(json: string, id: string, start: nat, i: nat, c: nat) {
    Find(json, id, start) == Some(i) && Find(json, ":", i + |id|) == Some(c)
  }

  predicate SpaceAfter(json: string, c: nat) { c + 1 < |json| && json[c + 1] == ' ' }

  /** The colon, or the space after it. */
  function ValueAt(json: string, c: nat): nat { if SpaceAfter(json, c) then c + 1 else c }

  /** The field ends at e: the first comma, or without commas the first brace. */
  predicate EndsAt(json: string, q: nat, e: nat) {
    FirstChar(json, ',', q, e) || (NoChar(json, ',', q) && FirstChar(json, '}', q, e))
  }

  predicate Endless(json: string, q: nat) { NoChar(json, ',', q) && NoChar(json, '}', q) }

  lemma FieldEndIs(json: string, q: nat)
    requires |json| < NPOS
    ensures forall e: nat :: EndsAt(json, q, e) ==> FieldEnd(json, q) == e
    ensures Endless(json, q) ==> FieldEnd(json, q) == NPOS
  {
    hide Find;
    FindNoChar(json, ',', q);
    FindNoChar(json, '}', q);
    forall e: nat ensures Find(json, ",", q) == Some(e) <==> FirstChar(json, ',', q, e) { FindChar(json, ',', q, e); }
    forall e: nat ensures Find(json, "}", q) == Some(e) <==> FirstChar(json, '}', q, e) { FindChar(json, '}', q, e); }
  }

  lemma PlaceIs(json: string, id: string, start: nat, i: nat, c: nat)
    requires |json| < NPOS && KeyAt(json, id, start, i, c)
    ensures i + |id| <= c < |json| && json[c] == ':'
    ensures FindPlace(json, id, start) == Place(i, ValueAt(json, c), FieldEnd(json, ValueAt(json, c)))
  {
    hide Find, FieldEnd;
    FindChar(json, ':', i + |id|, c);
    assert At(json, id, i);
    PlusSmall(i, |id|);
    PlusSmall(c, 1);
  }

  lemma WrapIs(json: string)
    ensures WrapLength(json) == if At(json, ESCAPED_QUOTE, 0) then 1 else 2
  {
    hide Find;
    assert At(json, ESCAPED_QUOTE, 0) ==> json[..2][0] == '\\';
    assert At(json, QUOTE, 0) ==> json[..1][0] == '\"';
    if At(json, ESCAPED_QUOTE, 0) { FindIs(json, ESCAPED_QUOTE, 0, 0); }
  }

  /** Where the text starts that is read and overwritten. */
  function SpanStart(json: string, c: nat): nat { ValueAt(json, c) + WrapLength(json) }

  lemma SpanIs(json: string, id: string, start: nat, i: nat, c: nat, e: nat)
    requires |json| < NPOS && KeyAt(json, id, start, i, c) && EndsAt(json, ValueAt(json, c), e)
    ensures 2 <= SpanStart(json, c) <= e + 1 <= |json| && c <= ValueAt(json, c) < SpanStart(json, c) <= ValueAt(json, c) + 2
    ensures json[ValueAt(json, c)] in ": " && json[e] in ",}" && ValueAt(json, c) < e
  {
    hide Find;
    PlaceIs(json, id, start, i, c);
    WrapIs(json);
    if At(json, ESCAPED_QUOTE, 0) { assert json[..2] == ESCAPED_QUOTE; assert json[0] == '\\' && json[1] == '\"'; }
  }

  // ---------------------------------------------------------------- what an edit does

  lemma WrappedIs(n: int)
    requires -WORD <= n < WORD
    ensures Wrapped(n) == if n < 0 then n + WORD else n
  {
    if n < 0 { DivModUnique(n, WORD, -1, n + WORD); } else { DivModUnique(n, WORD, 0, n); }
  }

  lemma ToIntIs(n: int)
    requires -0x8000_0000 <= n < 0x8000_0000
    ensures ToInt(Wrapped(n)) == n
  {
    WrappedIs(n);
  }

  /** The edit: with e past the start of the span, the text up to one character before e is replaced; otherwise all the rest is. */
  function EditedText(json: string, s: nat, e: nat, v: string): string
    requires s <= e + 1 <= |json|
  {
    if s < e then json[..s] + v + json[e - 1..] else json[..s] + v
  }

  lemma EditedIs(json: string, id: string, start: nat, i: nat, c: nat, e: nat, v: string)
    requires Counted(json, v) && KeyAt(json, id, start, i, c) && EndsAt(json, ValueAt(json, c), e)
    ensures SpanStart(json, c) <= e + 1 <= |json|
    ensures Edited(json, FindPlace(json, id, start), v) == Some(EditedText(json, SpanStart(json, c), e, v))
  {
    hide Find, ValueAt, EndsAt, KeyAt, WrapLength, Edited, EditedText;
    PlaceIs(json, id, start, i, c);
    FieldEndIs(json, ValueAt(json, c));
    SpanIs(json, id, start, i, c, e);
    EditedPlace(json, FindPlace(json, id, start), SpanStart(json, c), e, v);
  }

  lemma EditedPlace(json: string, place: Place, s: nat, e: nat, v: string)
    requires Counted(json, v) && place.id != NPOS && place.end == e && s == place.v + WrapLength(json) && s <= e + 1 <= |json|
    ensures Edited(json, place, v) == Some(EditedText(json, s, e, v))
  {
    hide Wrapped, Plus, WrapLength;
    WrapIs(json);
    PlusSmall(place.v, WrapLength(json));
    WrappedIs(e - s - 1);
    assert json[..s] + v + json[|json|..] == json[..s] + v;
  }

  /** What is read when the span starts at s and the field ends at e. */
  lemma PickedIs(json: string, place: Place, s: nat, e: nat)
    requires |json| + 8 < 0x8000_0000 && place.id != NPOS && place.end == e && s == place.v + WrapLength(json) && s <= e + 1 <= |json|
    ensures Picked(json, place) == if s < e then Found(json[s..e - 1], e - s) else if s == e then Found("", 0) else Fault
  {
    hide Find, ToInt, Wrapped, Plus, WrapLength;
    WrapIs(json);
    PlusSmall(place.v, WrapLength(json));
    ToIntIs(e - s);
    WrappedIs(e - s - 1);
  }

  // ---------------------------------------------------------------- reading after an edit

  /** The base64 alphabet (section 4 of RFC 4648), with its padding. */
  predicate Base64(v: string) {
    forall k | 0 <= k < |v| :: 'A' <= v[k] <= 'Z' || 'a' <= v[k] <= 'z' || '0' <= v[k] <= '9' || v[k] in "+/="
  }

  lemma EditedKey(json: string, id: string, start: nat, i: nat, c: nat, e: nat, v: string)
    requires Counted(json, v) && KeyAt(json, id, start, i, c) && EndsAt(json, ValueAt(json, c), e)
    ensures SpanStart(json, c) <= e + 1 <= |json|
    ensures var json' := EditedText(json, SpanStart(json, c), e, v); KeyAt(json', id, start, i, c) && WrapLength(json') == WrapLength(json)
  {
    hide Find, EndsAt, ValueAt, KeyAt, WrapLength, FindPlace;
    SpanIs(json, id, start, i, c, e);
    PlaceIs(json, id, start, i, c);
    var s := SpanStart(json, c);
    var json' := EditedText(json, s, e, v);
    assert json'[..s] == json[..s];
    SameKey(json, json', id, start, i, c, s);
    WrapIs(json);
    WrapIs(json');
    SameAt(json, json', ESCAPED_QUOTE, s, 0);
  }

  lemma SameKey(s: string, t: string, id: string, start: nat, i: nat, c: nat, n: nat)
    requires KeyAt(s, id, start, i, c) && i + |id| <= c < n <= |s| && n <= |t| && s[..n] == t[..n]
    ensures KeyAt(t, id, start, i, c)
  {
    hide Find;
    assert t[..i + |id|] == t[..n][..i + |id|] && s[..i + |id|] == s[..n][..i + |id|];
    assert t[..c + 1] == t[..n][..c + 1] && s[..c + 1] == s[..n][..c + 1];
    SamePrefix(s, t, id, start, i);
    SamePrefix(s, t, ":", i + |id|, c);
  }

  /** Only an empty value after an escaped name can bring a space next to the colon. */
  lemma EditedValueAt(json: string, id: string, start: nat, i: nat, c: nat, e: nat, v: string)
    requires Counted(json, v) && KeyAt(json, id, start, i, c) && EndsAt(json, ValueAt(json, c), e) && Base64(v)
    ensures SpanStart(json, c) <= e + 1 <= |json|
    ensures var s := SpanStart(json, c); var q' := ValueAt(EditedText(json, s, e, v), c);
            q' == ValueAt(json, c) || (v == "" && s < e && s == ValueAt(json, c) + 1 == q')
  {
    hide Find, EndsAt, KeyAt;
    SpanIs(json, id, start, i, c, e);
    PlaceIs(json, id, start, i, c);
    WrapIs(json);
    var s := SpanStart(json, c);
    var json' := EditedText(json, s, e, v);
    if c + 1 < s {
      assert json'[c + 1] == json[c + 1];
    } else if v != "" {
      assert json'[s] == v[0];
    }
  }

  lemma EditedEnd(json: string, q: nat, s: nat, e: nat, v: string, q': nat)
    requires EndsAt(json, q, e) && q < s <= q + 2 && s <= e + 1 && e < |json| && json[q] in ": " && Base64(v)
    requires q' == q || (v == "" && s < e && s == q + 1 == q')
    ensures var json' := EditedText(json, s, e, v);
            if s < e then EndsAt(json', q', s + |v| + 1) else EndsAt(json', q', s - 1) || Endless(json', q')
  {
    hide Base64, EditedText;
    var json' := EditedText(json, s, e, v);
    EditedAt(json, s, e, v);
    Base64Plain(v);
    forall j | q' <= j < s ensures json'[j] == json[j] {}
    assert s < e ==> json'[s + |v| + 1] == json[e];
  }

  lemma EditedAt(json: string, s: nat, e: nat, v: string)
    requires s <= e + 1 <= |json|
    ensures var json' := EditedText(json, s, e, v);
            && |json'| == s + |v| + (if s < e then |json| - (e - 1) else 0)
            && (forall j | 0 <= j < s :: json'[j] == json[j]) && (forall j | s <= j < s + |v| :: json'[j] == v[j - s])
            && (forall j | s + |v| <= j < |json'| :: json'[j] == json[e - 1 + (j - s - |v|)])
  {}

  lemma Base64Plain(v: string)
    requires Base64(v)
    ensures forall k | 0 <= k < |v| :: v[k] != ',' && v[k] != '}'
  {}

  lemma {:induction false} EditedJson(json: string, id: string, start: nat, i: nat, c: nat, e: nat, v: string)
    requires Counted(json, v) && KeyAt(json, id, start, i, c) && EndsAt(json, ValueAt(json, c), e) && Base64(v)
    ensures SpanStart(json, c) <= e + 1 <= |json|
    ensures var s := SpanStart(json, c); var json' := EditedText(json, s, e, v); var r := Picked(json', FindPlace(json', id, start));
            if s < e then r.Found? && r.text == v else !r.Found?
  {
    hide Find, EndsAt, KeyAt, Endless, ValueAt, WrapLength, FieldEnd, Picked, FindPlace;
    SpanIs(json, id, start, i, c, e);
    EditedKey(json, id, start, i, c, e, v);
    EditedValueAt(json, id, start, i, c, e, v);
    var s, q := SpanStart(json, c), ValueAt(json, c);
    var json' := EditedText(json, s, e, v);
    var q' := ValueAt(json', c);
    EditedEnd(json, q, s, e, v, q');
    PlaceIs(json', id, start, i, c);
    FieldEndIs(json', q');
    var place := FindPlace(json', id, start);
    if Endless(json', q') {
      NothingPicked(json', place);
    } else {
      PickedIs(json', place, q' + WrapLength(json'), place.end);
      if s < e { assert json'[s..s + |v|] == v; }
    }
  }

  lemma NothingPicked(json: string, place: Place)
    requires place.end == NPOS
    ensures Picked(json, place) == Missing
  {}

  // ---------------------------------------------------------------- the payload stays where it is

  predicate LineChar(ch: char) { ch == '\r' || ch == '\n' }

  lemma BlankChars(s: string, j: nat)
    requires At(s, BLANK, j)
    ensures j + 4 <= |s| && forall k | j <= k < j + 4 :: LineChar(s[k])
  {
    forall k | j <= k < j + 4 ensures s[k] == BLANK[k - j] { assert s[j..j + 4][k - j] == s[k]; }
  }

  lemma PayloadStartIs(msg: string)
    requires |msg| + 8 < WORD
    ensures PayloadStart(msg) == match Find(msg, BLANK, 0) case Some(b) => (if b + 4 < |msg| then b + 4 else 0) case None => 0
  {
    hide Find;
    match Find(msg, BLANK, 0) {
      case Some(b) =>
        assert At(msg, BLANK, b);
        PlusSmall(b, 4);
      case None =>
    }
  }

  /** An edit that leaves character q and a character past its end in place makes no new empty line, except at the end. */
  lemma NoNewBlank(json: string, q: nat, s: nat, tail: nat, v: string, j: nat)
    requires q < s <= q + 2 && s <= |json| && !LineChar(json[q]) && Base64(v)
    requires tail == |json| || (s <= tail < |json| - 1 && !LineChar(json[tail + 1]))
    requires forall k: nat | At(json, BLANK, k) :: k + 4 == |json|
    requires At(json[..s] + v + json[tail..], BLANK, j)
    ensures j + 4 == |json[..s] + v + json[tail..]|
  {
    var t := json[..s] + v + json[tail..];
    forall k | 0 <= k < |t| ensures t[k] == if k < s then json[k] else if k < s + |v| then v[k - s] else json[tail + (k - s - |v|)] {}
    assert !LineChar(t[q]);
    assert forall k | s <= k < s + |v| :: !LineChar(t[k]);
    assert (v != "" ==> !LineChar(t[s])) && (s <= j < s + |v| ==> !LineChar(t[j]));
    assert v == "" && tail < |json| ==> !LineChar(t[s + 1]);
    BlankChars(t, j);
    if j < q {
      assert t[j..j + 4] == json[j..j + 4];
      assert At(json, BLANK, j);
    } else if j >= s + |v| {
      var k := tail + (j - s - |v|);
      assert t[j..j + 4] == json[k..k + 4];
      assert At(json, BLANK, k);
    }
  }

  lemma StartKept(msg: string, q: nat, s: nat, tail: nat, v: string)
    requires |msg| + |v| + 8 < WORD && Base64(v) && q < s <= q + 2
    requires var json := ExtractPld(msg); s <= |json| && !LineChar(json[q]) && (tail == |json| || (s <= tail < |json| - 1 && !LineChar(json[tail + 1])))
    ensures var json := ExtractPld(msg); var json' := json[..s] + v + json[tail..];
            PayloadStart(msg[..PayloadStart(msg)] + json') == PayloadStart(msg) && ExtractPld(msg[..PayloadStart(msg)] + json') == json'
  {
    hide Find, At, ExtractPld, LineChar, Base64;
    PayloadStartIs(msg);
    var p, json := PayloadStart(msg), ExtractPld(msg);
    var json' := json[..s] + v + json[tail..];
    var msg' := msg[..p] + json';
    PayloadStartIs(msg');
    assert msg'[p..] == json';
    if p > 0 {
      assert msg'[..p] == msg[..p];
      SamePrefix(msg, msg', BLANK, 0, p - 4);
    } else {
      assert json == msg && msg' == json';
      forall k: nat | At(msg, BLANK, k) ensures k + 4 == |msg| { BlankFits(msg, k); }
      forall k: nat | At(msg', BLANK, k) ensures k + 4 == |msg'| { NoNewBlank(json, q, s, tail, v, k); }
    }
  }

  lemma BlankFits(s: string, k: nat)
    requires At(s, BLANK, k) && |s| + 8 < WORD && PayloadStart(s) == 0
    ensures k + 4 == |s|
  {
    PayloadStartIs(s);
  }

  // ---------------------------------------------------------------- the main results

  /** The text of the field has at least WrapLength characters, as any quoted text has. */
  predicate LongEnough(json: string, c: nat, e: nat) { e - ValueAt(json, c) - 1 >= WrapLength(json) }

  ghost predicate Field(msg: string, id: string, start: nat, i: nat, c: nat, e: nat) {
    KeyAt(ExtractPld(msg), id, start, i, c) && EndsAt(ExtractPld(msg), ValueAt(ExtractPld(msg), c), e)
  }

  lemma ChangedJson(msg: string, id: string, start: nat, i: nat, c: nat, e: nat, v: string)
    requires Counted(msg, v) && Field(msg, id, start, i, c, e)
    ensures var json := ExtractPld(msg); var s := SpanStart(json, c);
            s <= e + 1 <= |json| && Changed(msg, id, v, start) == Some(msg[..PayloadStart(msg)] + EditedText(json, s, e, v))
  {
    hide Find, KeyAt, EndsAt, ValueAt, Edited, FindPlace, SpanStart;
    var p, json := PayloadStart(msg), ExtractPld(msg);
    EditedIs(json, id, start, i, c, e, v);
    var json' := EditedText(json, SpanStart(json, c), e, v);
    assert msg[..p] + json' + msg[|msg|..] == msg[..p] + json';
  }

  /** What an edit makes of the whole message: only the span differs if the text is long enough, else everything after it is lost. */
  lemma ChangedExactly(msg: string, id: string, start: nat, i: nat, c: nat, e: nat, v: string)
    requires Counted(msg, v) && Field(msg, id, start, i, c, e)
    ensures var p, s := PayloadStart(msg), SpanStart(ExtractPld(msg), c);
            && s <= e + 1 && p + e < |msg|
            && Changed(msg, id, v, start) == Some(if s < e then msg[..p + s] + v + msg[p + e - 1..] else msg[..p + s] + v)
  {
    hide Find, KeyAt, EndsAt, ValueAt, Changed, PayloadStart, SpanStart, EditedText, ExtractPld;
    ChangedJson(msg, id, start, i, c, e, v);
    SpanFits(msg, id, start, i, c, e);
    EditedWhole(msg, PayloadStart(msg), SpanStart(ExtractPld(msg), c), e, v);
  }

  lemma SpanFits(msg: string, id: string, start: nat, i: nat, c: nat, e: nat)
    requires Counted(msg, "") && Field(msg, id, start, i, c, e)
    ensures e < |ExtractPld(msg)|
  {
    hide Find, PayloadStart;
    SpanIs(ExtractPld(msg), id, start, i, c, e);
  }

  lemma EditedWhole(msg: string, p: nat, s: nat, e: nat, v: string)
    requires p <= |msg| && s <= e + 1 <= |msg[p..]|
    ensures p + e < |msg|
    ensures msg[..p] + EditedText(msg[p..], s, e, v) == if s < e then msg[..p + s] + v + msg[p + e - 1..] else msg[..p + s] + v
  {
    var json := msg[p..];
    assert msg[..p + s] == msg[..p] + json[..s];
    if s < e {
      assert msg[p + e - 1..] == json[e - 1..];
      assert msg[..p] + (json[..s] + v + json[e - 1..]) == msg[..p] + json[..s] + v + json[e - 1..];
    } else {
      assert msg[..p] + (json[..s] + v) == msg[..p] + json[..s] + v;
    }
  }

  /** Reading after an edit returns the new value exactly when the old text was long enough. */
  lemma ReadBack(msg: string, id: string, start: nat, i: nat, c: nat, e: nat, v: string)
    requires Counted(msg, v) && Field(msg, id, start, i, c, e) && Base64(v)
    ensures Changed(msg, id, v, start).Some?
    ensures var r := Value(Changed(msg, id, v, start).value, id, start);
            (r.Found? && r.text == v) <==> LongEnough(ExtractPld(msg), c, e)
  {
    hide Find, KeyAt, EndsAt, ValueAt, FindPlace, Picked, PayloadStart, ExtractPld, WrapLength, Changed;
    var p, json := PayloadStart(msg), ExtractPld(msg);
    ChangedJson(msg, id, start, i, c, e, v);
    SpanIs(json, id, start, i, c, e);
    EditedJson(json, id, start, i, c, e, v);
    EditKeepsStart(msg, ValueAt(json, c), SpanStart(json, c), e, v);
  }

  /** What is read: the text up to one character before the end of the field, which drops the closing quote. */
  lemma ReadExactly(msg: string, id: string, start: nat, i: nat, c: nat, e: nat)
    requires Counted(msg, "") && Field(msg, id, start, i, c, e)
    ensures var json, s := ExtractPld(msg), SpanStart(ExtractPld(msg), c);
            s <= e + 1 <= |json| && Value(msg, id, start) == if s < e then Found(json[s..e - 1], e - s) else if s == e then Found("", 0) else Fault
  {
    hide Find, KeyAt, EndsAt, ValueAt, WrapLength, PayloadStart, Picked, FindPlace, FieldEnd;
    var json := ExtractPld(msg);
    SpanIs(json, id, start, i, c, e);
    PlaceIs(json, id, start, i, c);
    FieldEndIs(json, ValueAt(json, c));
    PickedIs(json, FindPlace(json, id, start), SpanStart(json, c), e);
  }

  lemma EditKeepsStart(msg: string, q: nat, s: nat, e: nat, v: string)
    requires |msg| + |v| + 8 < WORD && Base64(v) && q < s <= q + 2
    requires var json := ExtractPld(msg); s <= e + 1 <= |json| && json[q] in ": " && json[e] in ",}"
    ensures ExtractPld(msg[..PayloadStart(msg)] + EditedText(ExtractPld(msg), s, e, v)) == EditedText(ExtractPld(msg), s, e, v)
  {
    hide PayloadStart, ExtractPld, Base64;
    var json := ExtractPld(msg);
    var tail := if s < e then e - 1 else |json|;
    assert EditedText(json, s, e, v) == json[..s] + v + json[tail..];
    StartKept(msg, q, s, tail, v);
  }

  // ---------------------------------------------------------------- fields that are not complete

  /**
    The name is absent, or the colon after it, or the end of the field.  Without the colon the position after
    npos is 0, so that a space there is taken for the one after a colon, and the field begins with the text.
   */
  ghost predicate Incomplete(json: string, id: string, start: nat) {
    match Find(json, id, start)
    case None => true
    case Some(i) =>
      match Find(json, ":", i + |id|)
      case Some(c) => Endless(json, ValueAt(json, c))
      case None => json == "" || json[0] != ' ' || Endless(json, 0)
  }

  lemma CompleteExactly(json: string, id: string, start: nat)
    requires |json| + 8 < NPOS
    ensures FindPlace(json, id, start).Complete() <==> !Incomplete(json, id, start)
  {
    hide Find, FieldEnd;
    match Find(json, id, start) {
      case None =>
      case Some(i) =>
        assert At(json, id, i);
        PlusSmall(i, |id|);
        match Find(json, ":", i + |id|) {
          case Some(c) =>
            PlaceIs(json, id, start, i, c);
            EndThere(json, ValueAt(json, c));
          case None =>
            assert Plus(NPOS, 1) == 0;
            EndThere(json, 0);
            EndNowhere(json);
        }
    }
  }

  /** The end of the field is found exactly if there is a comma or a brace. */
  lemma EndThere(json: string, q: nat)
    requires |json| < NPOS
    ensures FieldEnd(json, q) != NPOS <==> !Endless(json, q)
  {
    hide Find;
    FindNoChar(json, ',', q);
    FindNoChar(json, '}', q);
  }

  lemma EndNowhere(json: string)
    requires |json| < NPOS
    ensures FieldEnd(json, NPOS) == NPOS
  {
    EndThere(json, NPOS);
  }

  /** json_get_id_value reads nothing exactly if the field is incomplete, and then json_change_id_value leaves the message alone. */
  lemma MissingExactly(msg: string, id: string, v: string, start: nat)
    requires Counted(msg, v)
    ensures Value(msg, id, start) == Missing <==> Incomplete(ExtractPld(msg), id, start)
    ensures Incomplete(ExtractPld(msg), id, start) ==> Changed(msg, id, v, start) == Some(msg)
  {
    hide FindPlace, PayloadStart, ExtractPld, Incomplete, Plus, WrapLength, ToInt, Wrapped;
    var json := ExtractPld(msg);
    CompleteExactly(json, id, start);
    ReplaceSame(msg, PayloadStart(msg));
  }

  /** Where the search of the next field goes on: after this one, or nowhere. */
  lemma StartMoves(msg: string, id: string, start: nat, i: nat, c: nat, e: nat)
    requires Counted(msg, "") && Field(msg, id, start, i, c, e)
    ensures FindPlace(ExtractPld(msg), id, start).end == e
  {
    hide Find, KeyAt, EndsAt, ValueAt, PayloadStart, FieldEnd;
    PlaceIs(ExtractPld(msg), id, start, i, c);
    FieldEndIs(ExtractPld(msg), ValueAt(ExtractPld(msg), c));
  }

  /** The payload begins with a space, and the name has no colon after it: the text from the third character on passes for the field. */
  lemma SpacedExactly(msg: string, id: string, v: string, start: nat, i: nat, e: nat)
    requires Counted(msg, v) && ExtractPld(msg) != "" && ExtractPld(msg)[0] == ' '
    requires Find(ExtractPld(msg), id, start) == Some(i) && Find(ExtractPld(msg), ":", i + |id|) == None && EndsAt(ExtractPld(msg), 0, e)
    ensures var json, p := ExtractPld(msg), PayloadStart(msg);
            && 1 <= e < |json| && p + e < |msg|
            && Value(msg, id, start) == (if e > 2 then Found(json[2..e - 1], e - 2) else if e == 2 then Found("", 0) else Fault)
            && Changed(msg, id, v, start) == Some(if e > 2 then msg[..p + 2] + v + msg[p + e - 1..] else msg[..p + 2] + v)
  {
    hide Find, PayloadStart, ExtractPld, Picked, Edited, WrapLength, EditedText, Replace, FindPlace;
    var json, p := ExtractPld(msg), PayloadStart(msg);
    SpacedPlace(json, id, start, i, e);
    var place := FindPlace(json, id, start);
    PickedIs(json, place, 2, e);
    EditedPlace(json, place, 2, e, v);
    SpacedText(msg, p, e, v);
  }

  lemma SpacedPlace(json: string, id: string, start: nat, i: nat, e: nat)
    requires |json| + 8 < NPOS && json != "" && json[0] == ' '
    requires Find(json, id, start) == Some(i) && Find(json, ":", i + |id|) == None && EndsAt(json, 0, e)
    ensures FindPlace(json, id, start) == Place(i, 0, e) && WrapLength(json) == 2 && 1 <= e < |json|
  {
    hide Find, FieldEnd;
    assert At(json, id, i);
    PlusSmall(i, |id|);
    assert Plus(NPOS, 1) == 0;
    FieldEndIs(json, 0);
    WrapIs(json);
    NotAt(json, ESCAPED_QUOTE, 0, 0);
  }

  lemma SpacedText(msg: string, p: nat, e: nat, v: string)
    requires p <= |msg| && 1 <= e < |msg[p..]|
    ensures Replace(msg, p, |msg| - p, EditedText(msg[p..], 2, e, v)) == Some(if e > 2 then msg[..p + 2] + v + msg[p + e - 1..] else msg[..p + 2] + v)
  {
    var json := msg[p..];
    var edited := EditedText(json, 2, e, v);
    assert msg[..p] + edited + msg[|msg|..] == msg[..p] + edited;
    assert msg[..p + 2] == msg[..p] + json[..2];
    if e > 2 {
      assert msg[p + e - 1..] == json[e - 1..];
      assert msg[..p] + (json[..2] + v + json[e - 1..]) == msg[..p] + json[..2] + v + json[e - 1..];
    } else {
      assert msg[..p] + (json[..2] + v) == msg[..p] + json[..2] + v;
    }
  }

  /** A name that is there only as a value, without a colon after it: nothing is read and nothing is changed. */
  lemma ValueIsNoName(v: string)
    requires |v| < 1000
    ensures Value("{\"item\":\"user\"}", "user", 0) == Missing && Changed("{\"item\":\"user\"}", "user", v, 0) == Some("{\"item\":\"user\"}")
  {
    hide Find, Value, Changed, Incomplete;
    NameIsValue("{\"item\":\"user\"}");
    MissingExactly("{\"item\":\"user\"}", "user", v, 0);
  }

  lemma NameIsValue(s: string)
    requires s == "{\"item\":\"user\"}"
    ensures Incomplete(ExtractPld(s), "user", 0) && Counted(s, "") && |s| == 15
  {
    hide Find, ExtractPld;
    NoHeader(s);
    assert s[9..13] == "user";
    forall j: nat | j < 9 ensures !At(s, "user", j) {
      NotAt(s, "user", j, if j == 4 then 1 else 0);
    }
    FindIs(s, "user", 0, 9);
    FindNoChar(s, ':', 13);
  }

  /** A quoted field whose name is followed by `mid` (its closing quote), a colon and perhaps a space. */
  function Flat(pre: string, id: string, mid: string, space: bool, text: string, sep: char, rest: string): string {
    pre + id + mid + ":" + (if space then " " else "") + "\"" + text + "\"" + [sep] + rest
  }

  predicate FlatOk(pre: string, id: string, mid: string, space: bool, text: string, sep: char, rest: string, start: nat) {
    && Find(Flat(pre, id, mid, space, text, sep, rest), id, start) == Some(|pre|)
    && !At(Flat(pre, id, mid, space, text, sep, rest), ESCAPED_QUOTE, 0)
    && ':' !in mid && ',' !in text && (sep == ',' || (sep == '}' && '}' !in text && ',' !in rest))
  }

  lemma FlatParts(pre: string, id: string, mid: string, space: bool, text: string, sep: char, rest: string)
    ensures var c, g := |pre| + |id| + |mid|, if space then 1 else 0; var s := c + g + 2; var e := s + |text| + 1;
            var json := Flat(pre, id, mid, space, text, sep, rest);
            && |json| == e + 1 + |rest| && json[c] == ':' && (space ==> json[c + 1] == ' ') && json[s - 1] == '"' && json[e] == sep
            && json[|pre| + |id|..c] == mid && json[s..e - 1] == text && json[e + 1..] == rest && json[e - 1] == '"'
            && json[..s] == pre + id + mid + ":" + (if space then " " else "") + "\"" && json[e - 1..] == "\"" + [sep] + rest
  {}

  lemma FlatKey(pre: string, id: string, mid: string, space: bool, text: string, sep: char, rest: string, start: nat)
    requires FlatOk(pre, id, mid, space, text, sep, rest, start)
    ensures KeyAt(Flat(pre, id, mid, space, text, sep, rest), id, start, |pre|, |pre| + |id| + |mid|)
  {
    hide Find, Flat;
    var json, c := Flat(pre, id, mid, space, text, sep, rest), |pre| + |id| + |mid|;
    FlatParts(pre, id, mid, space, text, sep, rest);
    forall j | |pre| + |id| <= j < c ensures json[j] != ':' { assert json[j] == mid[j - |pre| - |id|]; }
    FindChar(json, ':', |pre| + |id|, c);
  }

  lemma FlatEnd(pre: string, id: string, mid: string, space: bool, text: string, sep: char, rest: string, start: nat)
    requires FlatOk(pre, id, mid, space, text, sep, rest, start)
    ensures var json, c, g := Flat(pre, id, mid, space, text, sep, rest), |pre| + |id| + |mid|, if space then 1 else 0;
            EndsAt(json, ValueAt(json, c), c + g + |text| + 3) && SpanStart(json, c) == c + g + 2
  {
    hide Find, Flat, WrapLength;
    var json, c, g := Flat(pre, id, mid, space, text, sep, rest), |pre| + |id| + |mid|, if space then 1 else 0;
    var s := c + g + 2;
    var e := s + |text| + 1;
    FlatParts(pre, id, mid, space, text, sep, rest);
    WrapIs(json);
    forall j | s <= j < e - 1 ensures json[j] != ',' && (sep == '}' ==> json[j] != '}') { assert json[j] == text[j - s]; }
    forall j | e < j < |json| ensures json[j] in rest { assert json[j] == rest[j - e - 1]; }
  }

  lemma FlatRead(msg: string, pre: string, id: string, mid: string, space: bool, text: string, sep: char, rest: string, start: nat)
    requires FlatOk(pre, id, mid, space, text, sep, rest, start) && ExtractPld(msg) == Flat(pre, id, mid, space, text, sep, rest)
    requires Counted(msg, "")
    ensures Value(msg, id, start) == Found(text, |text| + 1)
  {
    hide Find, Flat, FlatOk, KeyAt, EndsAt, ValueAt, PayloadStart, SpanStart, Value, ExtractPld;
    var c, g := |pre| + |id| + |mid|, if space then 1 else 0;
    FlatKey(pre, id, mid, space, text, sep, rest, start);
    FlatEnd(pre, id, mid, space, text, sep, rest, start);
    ReadExactly(msg, id, start, |pre|, c, c + g + |text| + 3);
    FlatText(pre, id, mid, space, text, sep, rest);
  }

  lemma FlatText(pre: string, id: string, mid: string, space: bool, text: string, sep: char, rest: string)
    ensures var s := |pre| + |id| + |mid| + (if space then 3 else 2);
            |Flat(pre, id, mid, space, text, sep, rest)| > s + |text| && Flat(pre, id, mid, space, text, sep, rest)[s..s + |text|] == text
  {
    hide Flat;
    FlatParts(pre, id, mid, space, text, sep, rest);
  }

  /** Reading a quoted field gives its text; changing it leaves every other byte of the message, headers included, and is what is read next. */
  lemma FlatEdit(msg: string, pre: string, id: string, mid: string, space: bool, text: string, sep: char, rest: string, start: nat, v: string)
    requires FlatOk(pre, id, mid, space, text, sep, rest, start) && ExtractPld(msg) == Flat(pre, id, mid, space, text, sep, rest)
    requires Counted(msg, v) && Base64(v)
    ensures Value(msg, id, start) == Found(text, |text| + 1)
    ensures Changed(msg, id, v, start) == Some(msg[..PayloadStart(msg)] + Flat(pre, id, mid, space, v, sep, rest))
    ensures var r := Value(Changed(msg, id, v, start).value, id, start); r.Found? && r.text == v
  {
    hide Find, Flat, FlatOk, KeyAt, EndsAt, ValueAt, WrapLength, Value, Changed, PayloadStart, ExtractPld, Base64;
    var c, g := |pre| + |id| + |mid|, if space then 1 else 0;
    var s, e := c + g + 2, c + g + |text| + 3;
    FlatRead(msg, pre, id, mid, space, text, sep, rest, start);
    FlatKey(pre, id, mid, space, text, sep, rest, start);
    FlatEnd(pre, id, mid, space, text, sep, rest, start);
    ChangedJson(msg, id, start, |pre|, c, e, v);
    FlatParts(pre, id, mid, space, text, sep, rest);
    FlatSplit(pre, id, mid, space, v, sep, rest);
    ReadBack(msg, id, start, |pre|, c, e, v);
  }

  lemma FlatSplit(pre: string, id: string, mid: string, space: bool, text: string, sep: char, rest: string)
    ensures Flat(pre, id, mid, space, text, sep, rest) == (pre + id + mid + ":" + (if space then " " else "") + "\"") + text + ("\"" + [sep] + rest)
  {}

  const NUMBER := "{\"user\":7,\"item\":\"x\"}"
  const NUMBER_CHANGED := "{\"user\":7QQ=="

  /** A one-digit number is too short: changing it loses the rest of the message, and the field with it. */
  lemma NotAlwaysReadBack()
    ensures Changed(NUMBER, "user", "QQ==", 0) == Some(NUMBER_CHANGED) && Value(NUMBER_CHANGED, "user", 0) == Missing
  {
    hide Changed, Value, Find, At;
    NumberChanged();
    NumberLost();
  }

  lemma NumberChanged()
    ensures Changed(NUMBER, "user", "QQ==", 0) == Some(NUMBER_CHANGED)
  {
    hide Changed, EndsAt;
    NumberEnds();
    OneDigit(NUMBER, "QQ==");
    assert NUMBER[..9] + "QQ==" == NUMBER_CHANGED;
  }

  lemma NumberEnds()
    ensures |NUMBER| > 10 && NUMBER[..8] == "{\"user\":" && NUMBER[8] != ' ' && '\r' !in NUMBER && EndsAt(NUMBER, 7, 9)
  {}

  lemma OneDigit(s: string, v: string)
    requires |s| > 10 && s[..8] == "{\"user\":" && s[8] != ' ' && '\r' !in s && EndsAt(s, 7, 9) && Counted(s, v)
    ensures Changed(s, "user", v, 0) == Some(s[..9] + v)
  {
    hide Find, At, Changed, PayloadStart, ExtractPld, WrapLength, KeyAt, EndsAt;
    NoHeader(s);
    UserKey(s);
    ChangedExactly(s, "user", 0, 2, 7, 9, v);
    WrapIs(s);
  }

  lemma NumberLost()
    ensures Value(NUMBER_CHANGED, "user", 0) == Missing
  {
    hide Value, Find;
    NoEndLeft(NUMBER_CHANGED);
  }

  lemma NoEndLeft(s: string)
    requires |s| > 8 && s[..8] == "{\"user\":" && s[8] != ' ' && '\r' !in s && Endless(s, 7) && Counted(s, "")
    ensures Value(s, "user", 0) == Missing
  {
    hide Find, At, PayloadStart, ExtractPld, WrapLength, KeyAt, FieldEnd, FindPlace, Endless, Value, Changed;
    NoHeader(s);
    UserKey(s);
    KeyIncomplete(s, "user", 0, 2, 7);
    MissingExactly(s, "user", "", 0);
  }

  lemma KeyIncomplete(json: string, id: string, start: nat, i: nat, c: nat)
    requires KeyAt(json, id, start, i, c) && Endless(json, ValueAt(json, c))
    ensures Incomplete(json, id, start)
  {
    hide Find, Endless;
  }

  lemma NoHeader(s: string)
    requires '\r' !in s && |s| + 8 < WORD
    ensures PayloadStart(s) == 0 && ExtractPld(s) == s
  {
    hide Find;
    forall j: nat ensures !At(s, BLANK, j) { NotAt(s, BLANK, j, 0); }
    FindNone(s, BLANK, 0);
    PayloadStartIs(s);
  }

  lemma UserKey(s: string)
    requires |s| > 8 && s[..8] == "{\"user\":" && s[8] != ' '
    ensures KeyAt(s, "user", 0, 2, 7) && ValueAt(s, 7) == 7 && !At(s, ESCAPED_QUOTE, 0)
  {
    hide Find;
    var h := "{\"user\":";
    forall j | 0 <= j < 8 ensures s[j] == h[j] { assert s[..8][j] == s[j]; }
    assert s[2..6] == h[2..6];
    forall j: nat | j < 2 ensures !At(s, "user", j) { NotAt(s, "user", j, 0); }
    FindIs(s, "user", 0, 2);
    FindChar(s, ':', 6, 7);
    NotAt(s, ESCAPED_QUOTE, 0, 0);
  }
}
