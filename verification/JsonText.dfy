/** Text as sequences of 16-bit code units, and how a string is quoted as JSON: the escapes of section 7
    of RFC 8259, with a surrogate that has no partner written as an escape too. */
module JsonText {
  import opened Wrappers

  type Unit = n: int | 0 <= n < 0x1_0000

  type Text = seq<Unit>

  const QUOTE: Unit := 0x22
  const BACKSLASH: Unit := 0x5c
  const LETTER_U: Unit := 0x75

  predicate IsLead(u: Unit) { 0xd800 <= u < 0xdc00 }
  predicate IsTrail(u: Unit) { 0xdc00 <= u < 0xe000 }

  /** The letter of a two-unit escape. */
  function ShortEscape(u: Unit): Option<Unit> {
    if u == 0x08 then Some(0x62)
    else if u == 0x09 then Some(0x74)
    else if u == 0x0a then Some(0x6e)
    else if u == 0x0c then Some(0x66)
    else if u == 0x0d then Some(0x72)
    else if u == QUOTE then Some(QUOTE)
    else if u == BACKSLASH then Some(BACKSLASH)
    else None
  }

  function HexDigit(d: int): Unit
    requires 0 <= d < 16
  {
    if d < 10 then 0x30 + d else 0x57 + d
  }

  function HexEscape(u: Unit): Text {
    [BACKSLASH, LETTER_U, HexDigit(u / 16 / 16 / 16), HexDigit(u / 16 / 16 % 16), HexDigit(u / 16 % 16), HexDigit(u % 16)]
  }

  predicate StartsPair(s: Text) {
    |s| > 1 && IsLead(s[0]) && IsTrail(s[1])
  }

  /** How the first unit is written, or the first two when they are a surrogate pair. */
  function Head(s: Text): Text
    requires s != []
  {
    if ShortEscape(s[0]).Some? then [BACKSLASH, ShortEscape(s[0]).value]
    else if s[0] < 0x20 then HexEscape(s[0])
    else if StartsPair(s) then [s[0], s[1]]
    else if IsLead(s[0]) || IsTrail(s[0]) then HexEscape(s[0])
    else [s[0]]
  }

  function Escaped(s: Text): Text {
    if s == [] then [] else Head(s) + Escaped(s[if StartsPair(s) then 2 else 1..])
  }

  function Quoted(s: Text): Text {
    [QUOTE] + Escaped(s) + [QUOTE]
  }

  // ---------------------------------------------------------------------------------------------
  // Reading it back
  // ---------------------------------------------------------------------------------------------

  function LongForm(letter: Unit): Option<Unit> {
    if letter == 0x62 then Some(0x08)
    else if letter == 0x74 then Some(0x09)
    else if letter == 0x6e then Some(0x0a)
    else if letter == 0x66 then Some(0x0c)
    else if letter == 0x72 then Some(0x0d)
    else if letter == QUOTE then Some(QUOTE)
    else if letter == BACKSLASH then Some(BACKSLASH)
    else None
  }

  function HexValue(u: Unit): Option<int> {
    if 0x30 <= u < 0x3a then Some(u - 0x30)
    else if 0x61 <= u < 0x67 then Some(u - 0x57)
    else None
  }

  function FromHex(t: Text): Option<Unit>
    requires |t| == 4
  {
    var a, b, c, d := HexValue(t[0]), HexValue(t[1]), HexValue(t[2]), HexValue(t[3]);
    if a.Some? && b.Some? && c.Some? && d.Some? && 0 <= a.value * 0x1000 + b.value * 0x100 + c.value * 0x10 + d.value < 0x1_0000 then
      Some(a.value * 0x1000 + b.value * 0x100 + c.value * 0x10 + d.value)
    else None
  }

  datatype Read<T> = Read(value: T, rest: Text)

  function Prepend(u: Unit, r: Option<Read<Text>>): Option<Read<Text>> {
    match r
    case None => None
    case Some(Read(s, rest)) => Some(Read([u] + s, rest))
  }

  /** What follows an opening quote, up to and without the closing one. */
  function ReadString(t: Text): (r: Option<Read<Text>>)
    ensures r.Some? ==> |r.value.rest| < |t|
  {
    if t == [] then None
    else if t[0] == QUOTE then Some(Read([], t[1..]))
    else if t[0] != BACKSLASH then Prepend(t[0], ReadString(t[1..]))
    else if |t| < 2 then None
    else if t[1] == LETTER_U then
      if |t| < 6 || FromHex(t[2..6]).None? then None else Prepend(FromHex(t[2..6]).value, ReadString(t[6..]))
    else if LongForm(t[1]).None? then None
    else Prepend(LongForm(t[1]).value, ReadString(t[2..]))
  }

  lemma DigitRoundTrip(d: int)
    requires 0 <= d < 16
    ensures HexValue(HexDigit(d)) == Some(d)
  {
  }

  lemma HexRoundTrip(u: Unit)
    ensures FromHex(HexEscape(u)[2..6]) == Some(u)
  {
    var x := u / 16;
    var y := x / 16;
    var z := y / 16;
    assert z < 16;
    DigitRoundTrip(z);
    DigitRoundTrip(y % 16);
    DigitRoundTrip(x % 16);
    DigitRoundTrip(u % 16);
    assert HexEscape(u)[2..6] == [HexDigit(z), HexDigit(y % 16), HexDigit(x % 16), HexDigit(u % 16)];
    assert z * 0x1000 + y % 16 * 0x100 + x % 16 * 0x10 + u % 16 == u;
  }

  lemma ReadsHex(u: Unit, t: Text)
    ensures ReadString(HexEscape(u) + t) == Prepend(u, ReadString(t))
  {
    HexRoundTrip(u);
    var e := HexEscape(u) + t;
    assert e[2..6] == HexEscape(u)[2..6];
    assert e[6..] == t;
  }

  lemma ReadsShort(u: Unit, t: Text)
    requires ShortEscape(u).Some?
    ensures ReadString([BACKSLASH, ShortEscape(u).value] + t) == Prepend(u, ReadString(t))
  {
    var e := [BACKSLASH, ShortEscape(u).value] + t;
    assert e[2..] == t;
  }

  lemma ReadsPlain(u: Unit, t: Text)
    requires u != QUOTE && u != BACKSLASH
    ensures ReadString([u] + t) == Prepend(u, ReadString(t))
  {
    assert ([u] + t)[1..] == t;
  }

  lemma ReadsHead(s: Text, t: Text)
    requires s != [] && !StartsPair(s)
    ensures ReadString(Head(s) + t) == Prepend(s[0], ReadString(t))
  {
    if ShortEscape(s[0]).Some? {
      ReadsShort(s[0], t);
    } else if s[0] < 0x20 || IsLead(s[0]) || IsTrail(s[0]) {
      ReadsHex(s[0], t);
    } else {
      ReadsPlain(s[0], t);
    }
  }

  lemma ReadsPair(s: Text, t: Text)
    requires StartsPair(s)
    ensures ReadString(Head(s) + t) == Prepend(s[0], Prepend(s[1], ReadString(t)))
  {
    ReadsPlain(s[1], t);
    ReadsPlain(s[0], [s[1]] + t);
    assert Head(s) + t == [s[0]] + ([s[1]] + t);
  }

  /** A quoted string is read back as it was, wherever it stands. */
  lemma {:induction false} StringRoundTrip(s: Text, rest: Text)
    ensures ReadString(Escaped(s) + [QUOTE] + rest) == Some(Read(s, rest))
  {
    if s == [] {
      assert Escaped(s) + [QUOTE] + rest == [QUOTE] + rest;
      assert ([QUOTE] + rest)[1..] == rest;
    } else {
      var left := s[if StartsPair(s) then 2 else 1..];
      StringRoundTrip(left, rest);
      HeadComesFirst(Head(s), Escaped(left), rest);
      OneStep(s, left, Escaped(left) + [QUOTE] + rest, rest);
    }
  }

  lemma HeadComesFirst(head: Text, left: Text, rest: Text)
    ensures head + left + [QUOTE] + rest == head + (left + [QUOTE] + rest)
  {
  }

  lemma OneStep(s: Text, left: Text, tail: Text, rest: Text)
    requires s != [] && left == s[if StartsPair(s) then 2 else 1..]
    requires ReadString(tail) == Some(Read(left, rest))
    ensures ReadString(Head(s) + tail) == Some(Read(s, rest))
  {
    if StartsPair(s) {
      ReadsPair(s, tail);
      assert s == [s[0]] + ([s[1]] + left);
    } else {
      ReadsHead(s, tail);
      assert s == [s[0]] + left;
    }
  }

  // ---------------------------------------------------------------------------------------------
  // The order keys are sorted in: unit by unit
  // ---------------------------------------------------------------------------------------------

  predicate Before(a: Text, b: Text) {
    if b == [] then false
    else if a == [] then true
    else a[0] < b[0] || (a[0] == b[0] && Before(a[1..], b[1..]))
  }

  lemma {:induction false} BeforeIsTotal(a: Text, b: Text)
    ensures a == b || Before(a, b) || Before(b, a)
  {
    if a != [] && b != [] && a[0] == b[0] {
      BeforeIsTotal(a[1..], b[1..]);
      assert a == [a[0]] + a[1..] && b == [b[0]] + b[1..];
    }
  }

  lemma {:induction false} BeforeIsTransitive(a: Text, b: Text, c: Text)
    requires Before(a, b) && Before(b, c)
    ensures Before(a, c)
  {
    if a != [] && a[0] == b[0] == c[0] {
      BeforeIsTransitive(a[1..], b[1..], c[1..]);
    }
  }

  lemma {:induction false} BeforeIsStrict(a: Text, b: Text)
    requires Before(a, b)
    ensures !Before(b, a) && a != b
  {
    if a != [] && a[0] == b[0] {
      BeforeIsStrict(a[1..], b[1..]);
    }
  }

  /** `a` and `b` agree up to `i`; there `a` ends, or has the smaller unit. */
  predicate PartsAt(a: Text, b: Text, i: nat) {
    && i <= |a| && i < |b| && a[..i] == b[..i]
    && (i == |a| || a[i] < b[i])
  }

  ghost predicate Precedes(a: Text, b: Text) {
    exists i: nat :: PartsAt(a, b, i)
  }

  lemma PartsAtFirst(a: Text, b: Text, i: nat)
    requires PartsAt(a, b, i)
    ensures i > 0 ==> a != [] && a[0] == b[0]
  {
    if i > 0 { assert a[..i][0] == b[..i][0]; }
  }

  /** The order is the one of the first unit in which two texts differ, a text coming before its
      continuations: as JavaScript compares strings. */
  lemma {:induction false} BeforeIff(a: Text, b: Text)
    ensures Before(a, b) <==> Precedes(a, b)
  {
    if b != [] && a != [] && a[0] == b[0] {
      BeforeIff(a[1..], b[1..]);
      if Before(a, b) {
        var i: nat :| PartsAt(a[1..], b[1..], i);
        assert a[..i + 1] == [a[0]] + a[1..][..i] && b[..i + 1] == [b[0]] + b[1..][..i];
        assert PartsAt(a, b, i + 1);
      }
      if i: nat :| PartsAt(a, b, i) {
        assert a[..i][0] == b[..i][0] || i == 0;
        assert i > 0;
        assert a[1..][..i - 1] == a[..i][1..] && b[1..][..i - 1] == b[..i][1..];
        assert PartsAt(a[1..], b[1..], i - 1);
      }
    } else if b != [] {
      assert PartsAt(a, b, 0) <==> a == [] || a[0] < b[0];
      if i: nat :| PartsAt(a, b, i) {
        PartsAtFirst(a, b, i);
      }
    }
  }
}
