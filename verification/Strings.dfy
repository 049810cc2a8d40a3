/** The std::string operations that the enclave's and the socket code use, on sequences of characters. */
module Strings {
  import opened Options
  import opened Words

  /** p occurs in s at i. */
  predicate At(s: string, p: string, i: nat) { i + |p| <= |s| && s[i..i + |p|] == p }

  /** s.find(p, from) */
  function Find(s: string, p: string, from: nat): (r: Option<nat>)
    ensures r.Some? ==> from <= r.value && At(s, p, r.value) && forall j: nat | from <= j < r.value :: !At(s, p, j)
    ensures r == None ==> forall j: nat | from <= j :: !At(s, p, j)
    decreases |s| - from
  {
    if from + |p| > |s| then None
    else if At(s, p, from) then Some(from)
    else if from < |s| then Find(s, p, from + 1)
    else None
  }

  lemma FindIs(s: string, p: string, from: nat, i: nat)
    requires from <= i && At(s, p, i) && forall j: nat | from <= j < i :: !At(s, p, j)
    ensures Find(s, p, from) == Some(i)
  {}

  lemma FindNone(s: string, p: string, from: nat)
    requires forall j: nat | from <= j :: !At(s, p, j)
    ensures Find(s, p, from) == None
  {}

  lemma AtFits(s: string, p: string, i: nat)
    requires At(s, p, i)
    ensures i + |p| <= |s|
  {}

  /** What is found in a prefix is found there whatever follows. */
  lemma SamePrefix(s: string, t: string, p: string, from: nat, i: nat)
    requires Find(s, p, from) == Some(i) && i + |p| <= |t| && s[..i + |p|] == t[..i + |p|]
    ensures Find(t, p, from) == Some(i)
  {
    hide Find, At;
    AtFits(s, p, i);
    forall j: nat | j <= i ensures At(t, p, j) <==> At(s, p, j) { SameAt(s, t, p, i + |p|, j); }
    FindIs(t, p, from, i);
  }

  lemma SameAt(s: string, t: string, p: string, n: nat, j: nat)
    requires n <= |s| && n <= |t| && s[..n] == t[..n] && j + |p| <= n
    ensures At(t, p, j) <==> At(s, p, j)
  {
    assert s[j..j + |p|] == s[..n][j..j + |p|] && t[j..j + |p|] == t[..n][j..j + |p|];
  }

  // ---- searching for one character

  predicate FirstChar(s: string, ch: char, from: nat, i: nat) { from <= i < |s| && s[i] == ch && forall j | from <= j < i :: s[j] != ch }

  predicate NoChar(s: string, ch: char, from: nat) { forall j | from <= j < |s| :: s[j] != ch }

  lemma AtChar(s: string, ch: char, j: nat)
    ensures At(s, [ch], j) <==> j < |s| && s[j] == ch
  {
    if j < |s| { assert s[j..j + 1] == [s[j]]; }
  }

  lemma FindChar(s: string, ch: char, from: nat, i: nat)
    ensures Find(s, [ch], from) == Some(i) <==> FirstChar(s, ch, from, i)
  {
    hide Find, At;
    forall j: nat ensures At(s, [ch], j) <==> j < |s| && s[j] == ch { AtChar(s, ch, j); }
    if FirstChar(s, ch, from, i) { FindIs(s, [ch], from, i); }
  }

  lemma FindNoChar(s: string, ch: char, from: nat)
    ensures Find(s, [ch], from) == None <==> NoChar(s, ch, from)
  {
    hide Find, At;
    forall j: nat ensures At(s, [ch], j) <==> j < |s| && s[j] == ch { AtChar(s, ch, j); }
    if NoChar(s, ch, from) { FindNone(s, [ch], from); }
  }

  ghost predicate Contains(s: string, p: string) { exists i: nat :: At(s, p, i) }

  lemma FindContains(s: string, p: string)
    ensures Find(s, p, 0).Some? <==> Contains(s, p)
  {}

  // ---------------------------------------------------------------- positions as machine words

  /** std::string::npos */
  const NPOS: nat := WORD - 1

  function FindPos(s: string, p: string, from: nat): nat { match Find(s, p, from) case Some(i) => i case None => NPOS }

  function Plus(x: nat, y: nat): nat { (x + y) % WORD }

  lemma PlusSmall(x: nat, y: nat)
    requires x + y < WORD
    ensures Plus(x, y) == x + y
  {}

  /** s.replace(pos, len, v); None when it throws. */
  function Replace(s: string, pos: nat, len: nat, v: string): Option<string> {
    if pos > |s| then None
    else Some(s[..pos] + v + s[if len < |s| - pos then pos + len else |s|..])
  }

  /** s.insert(pos, v); None when it throws. */
  function Insert(s: string, pos: nat, v: string): Option<string> {
    if pos > |s| then None else Some(s[..pos] + v + s[pos..])
  }

  /** s.substr(pos, len); None when it throws. */
  function Substr(s: string, pos: nat, len: nat): Option<string> {
    if pos > |s| then None else Some(if len < |s| - pos then s[pos..pos + len] else s[pos..])
  }

  // ---------------------------------------------------------------- numbers

  const DIGITS := "0123456789"

  predicate IsDigit(c: char) { '0' <= c <= '9' }

  function Digit(n: nat): (c: char)
    requires n < 10
    ensures IsDigit(c) && c as int - '0' as int == n
  {
    DIGITS[n]
  }

  /** std::to_string */
  function Decimal(n: nat): (s: string)
    ensures |s| > 0 && forall i | 0 <= i < |s| :: IsDigit(s[i])
  {
    if n < 10 then [Digit(n)] else Decimal(n / 10) + [Digit(n % 10)]
  }

  function Value(s: string): nat
    requires forall i | 0 <= i < |s| :: IsDigit(s[i])
  {
    if s == [] then 0 else assert IsDigit(s[|s| - 1]); 10 * Value(s[..|s| - 1]) + (s[|s| - 1] as int - '0' as int)
  }

  lemma {:induction false} DecimalValue(n: nat)
    ensures Value(Decimal(n)) == n
  {
    if n >= 10 {
      DecimalValue(n / 10);
      assert Decimal(n)[..|Decimal(n)| - 1] == Decimal(n / 10);
    }
  }

  /** How many digits s begins with. */
  function Digits(s: string): (n: nat)
    ensures n <= |s| && (forall i | 0 <= i < n :: IsDigit(s[i])) && (n < |s| ==> !IsDigit(s[n]))
  {
    if s == [] || !IsDigit(s[0]) then 0 else 1 + Digits(s[1..])
  }

  lemma {:induction false} DigitsExact(a: string, rest: string)
    requires (forall i | 0 <= i < |a| :: IsDigit(a[i])) && (rest != [] ==> !IsDigit(rest[0]))
    ensures Digits(a + rest) == |a|
  {
    if a == [] {
      assert a + rest == rest;
    } else {
      assert (a + rest)[1..] == a[1..] + rest;
      DigitsExact(a[1..], rest);
    }
  }

  predicate IsSpace(c: char) { c == ' ' || '\t' <= c <= '\r' }

  function SkipSpaces(s: string): string { if s != [] && IsSpace(s[0]) then SkipSpaces(s[1..]) else s }

  /** std::stoi; None when it throws. */
  function Stoi(s: string): Option<int> {
    var t := SkipSpaces(s);
    var negative := t != [] && t[0] == '-';
    var u := if t != [] && (t[0] == '-' || t[0] == '+') then t[1..] else t;
    var v: int := Value(u[..Digits(u)]);
    var n := if negative then -v else v;
    if Digits(u) == 0 || !(-0x8000_0000 <= n < 0x8000_0000) then None else Some(n)
  }

  /** A printed number is read back, whatever follows it, as long as that is no digit. */
  lemma StoiDecimal(n: nat, rest: string)
    requires n < 0x8000_0000 && (rest != [] ==> !IsDigit(rest[0]))
    ensures Stoi(Decimal(n) + rest) == Some(n)
  {
    var s := Decimal(n) + rest;
    assert s[0] == Decimal(n)[0];
    DigitsExact(Decimal(n), rest);
    assert s[..|Decimal(n)|] == Decimal(n);
    DecimalValue(n);
  }

  predicate AllSpaces(w: string) { forall i | 0 <= i < |w| :: IsSpace(w[i]) }

  predicate AllDigits(d: string) { forall i | 0 <= i < |d| :: IsDigit(d[i]) }

  lemma {:induction false} SkipSpacesAll(w: string, rest: string)
    requires AllSpaces(w) && (rest != "" ==> !IsSpace(rest[0]))
    ensures SkipSpaces(w + rest) == rest
  {
    if w == "" {
      assert w + rest == rest;
    } else {
      assert (w + rest)[1..] == w[1..] + rest;
      SkipSpacesAll(w[1..], rest);
    }
  }

  /** Leading spaces, an optional sign and digits make a number, if an int can hold it; whatever follows is not read. */
  lemma StoiExactly(spaces: string, sign: string, d: string, rest: string)
    requires AllSpaces(spaces) && sign in ["", "+", "-"] && AllDigits(d) && (rest != "" ==> !IsDigit(rest[0]))
    requires d != "" || sign != "" || rest == "" || !(IsSpace(rest[0]) || rest[0] == '+' || rest[0] == '-')
    ensures var v: int := Value(d);
            var n := if sign == "-" then -v else v;
            Stoi(spaces + (sign + (d + rest))) == if d != "" && -0x8000_0000 <= n < 0x8000_0000 then Some(n) else None
  {
    hide Value, Digits, SkipSpaces;
    var t, u := sign + (d + rest), d + rest;
    assert sign == "" ==> t == u;
    assert sign != "" ==> t[0] == sign[0] && t[1..] == u;
    SkipSpacesAll(spaces, t);
    DigitsExact(d, rest);
    assert u[..|d|] == d;
  }
}
