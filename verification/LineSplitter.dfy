/** A container's output cut into lines: chunks arrive cut anywhere, lines must not depend on where. And
    what the same connection writes: one JSON text a line. */
module LineSplitter {
  import opened JsonText
  import opened CanonicalJson

  const LF: Unit := 0x0a
  const CR: Unit := 0x0d

  function WithoutCr(line: Text): Text {
    if line != [] && line[|line| - 1] == CR then line[..|line| - 1] else line
  }

  /** Where the first line feed is; the length if there is none. */
  function LineEnd(t: Text): (n: nat)
    ensures n <= |t|
  {
    if t == [] || t[0] == LF then 0 else 1 + LineEnd(t[1..])
  }

  function Lines(t: Text): seq<Text>
    decreases |t|
  {
    if LineEnd(t) == |t| then [] else [WithoutCr(t[..LineEnd(t)])] + Lines(t[LineEnd(t) + 1..])
  }

  /** What is left after the last line feed. */
  function Rest(t: Text): Text
    decreases |t|
  {
    if LineEnd(t) == |t| then t else Rest(t[LineEnd(t) + 1..])
  }

  /** One attached container. `written`: all that went to its input. */
  class AttachedIo {
    var buffer: Text
    var lines: seq<Text>
    var written: Text
    var closed: bool
    var closeReports: nat

    constructor ()
      ensures buffer == [] && lines == [] && written == [] && !closed && closeReports == 0
    {
      buffer, lines, written, closed, closeReports := [], [], [], false, 0;
    }

    method IndexOfLf(t: Text) returns (index: int)
      ensures index == if LineEnd(t) == |t| then -1 else LineEnd(t)
    {
      var i := 0;
      while i < |t|
        invariant 0 <= i <= |t|
        invariant LineEnd(t) == i + LineEnd(t[i..])
      {
        if t[i] == LF {
          return i;
        }
        assert t[i..][1..] == t[i + 1..];
        i := i + 1;
      }
      index := -1;
    }

    method OnData(chunk: Text)
      modifies this`buffer, this`lines
      ensures lines == old(lines) + Lines(old(buffer) + chunk)
      ensures buffer == Rest(old(buffer) + chunk)
    {
      buffer := buffer + chunk;
      ghost var all := buffer;
      while true
        invariant lines + Lines(buffer) == old(lines) + Lines(all)
        invariant Rest(buffer) == Rest(all)
        decreases |buffer|
      {
        var newline := IndexOfLf(buffer);
        if newline == -1 {
          break;
        }
        var line := buffer[..newline];
        assert Lines(buffer) == [WithoutCr(line)] + Lines(buffer[newline + 1..]);
        Reassociated(lines, WithoutCr(line), Lines(buffer[newline + 1..]));
        buffer := buffer[newline + 1..];
        if |line| > 0 && line[|line| - 1] == CR {
          line := line[..|line| - 1];
        }
        lines := lines + [line];
      }
    }

    /** Nothing is written to a closed connection. */
    method WriteLine(text: Text)
      modifies this`written
      ensures written == if closed then old(written) else old(written) + text + [LF]
    {
      if closed {
        return;
      }
      written := written + text + [LF];
    }

    /** The stream's `error`, `close` and `end`, in any number and order, are reported once. */
    method EmitClose()
      modifies this`closed, this`closeReports
      ensures closed
      ensures closeReports == old(closeReports) + (if old(closed) then 0 else 1)
    {
      if closed {
        return;
      }
      closed := true;
      closeReports := closeReports + 1;
    }

    /** Closed by this side: no report follows. */
    method Close()
      modifies this`closed
      ensures closed
    {
      closed := true;
    }
  }

  lemma Reassociated(lines: seq<Text>, line: Text, others: seq<Text>)
    ensures lines + ([line] + others) == lines + [line] + others
  {
  }

  // ---------------------------------------------------------------------------------------------
  // Where the chunks are cut does not matter
  // ---------------------------------------------------------------------------------------------

  lemma {:induction false} LineEndAppend(a: Text, b: Text)
    ensures LineEnd(a + b) == if LineEnd(a) == |a| then |a| + LineEnd(b) else LineEnd(a)
  {
    if a == [] {
      assert a + b == b;
    } else {
      assert (a + b)[1..] == a[1..] + b;
      if a[0] != LF { LineEndAppend(a[1..], b); }
    }
  }

  lemma {:induction false} CutAnywhere(a: Text, b: Text)
    ensures Lines(a + b) == Lines(a) + Lines(Rest(a) + b)
    ensures Rest(a + b) == Rest(Rest(a) + b)
    decreases |a|
  {
    var n := LineEnd(a);
    if n < |a| {
      CutAnywhere(a[n + 1..], b);
      FirstLine(a);
      FirstLineStays(a, b);
      LinesJoin(WithoutCr(a[..n]), Lines(a), Lines(a[n + 1..]), Lines(a + b), Lines(Rest(a[n + 1..]) + b));
    } else {
      assert Lines(a) == [] && Rest(a) == a;
    }
  }

  lemma FirstLineStays(a: Text, b: Text)
    requires LineEnd(a) < |a|
    ensures Lines(a + b) == [WithoutCr(a[..LineEnd(a)])] + Lines(a[LineEnd(a) + 1..] + b)
    ensures Rest(a + b) == Rest(a[LineEnd(a) + 1..] + b)
  {
    var n := LineEnd(a);
    LineEndAppend(a, b);
    FirstLine(a + b);
    assert (a + b)[..n] == a[..n] && (a + b)[n + 1..] == a[n + 1..] + b;
  }

  lemma LinesJoin(first: Text, all: seq<Text>, left: seq<Text>, joined: seq<Text>, others: seq<Text>)
    requires all == [first] + left && joined == [first] + (left + others)
    ensures joined == all + others
  {
  }

  lemma FirstLine(t: Text)
    requires LineEnd(t) < |t|
    ensures Lines(t) == [WithoutCr(t[..LineEnd(t)])] + Lines(t[LineEnd(t) + 1..])
    ensures Rest(t) == Rest(t[LineEnd(t) + 1..])
  {
  }

  function Concatenated(chunks: seq<Text>): Text {
    if chunks == [] then [] else chunks[0] + Concatenated(chunks[1..])
  }

  /** What a run of `data` events does, chunk by chunk, to the buffer and the lines. */
  function Fed(buffer: Text, chunks: seq<Text>): (seq<Text>, Text)
    decreases |chunks|
  {
    if chunks == [] then ([], buffer)
    else
      var (lines, rest) := Fed(Rest(buffer + chunks[0]), chunks[1..]);
      (Lines(buffer + chunks[0]) + lines, rest)
  }

  lemma {:induction false} FedIsWhole(buffer: Text, chunks: seq<Text>)
    requires LineEnd(buffer) == |buffer|
    ensures Fed(buffer, chunks) == (Lines(buffer + Concatenated(chunks)), Rest(buffer + Concatenated(chunks)))
    decreases |chunks|
  {
    if chunks == [] {
      assert buffer + Concatenated(chunks) == buffer;
    } else {
      var first, others := buffer + chunks[0], Concatenated(chunks[1..]);
      RestHasNoLine(first);
      FedIsWhole(Rest(first), chunks[1..]);
      CutAnywhere(first, others);
      assert buffer + Concatenated(chunks) == first + others;
    }
  }

  lemma {:induction false} RestHasNoLine(t: Text)
    ensures LineEnd(Rest(t)) == |Rest(t)|
    decreases |t|
  {
    if LineEnd(t) < |t| { RestHasNoLine(t[LineEnd(t) + 1..]); }
  }

  /** The lines, and what is kept for later, depend on the chunks only through what they add up to. */
  lemma ChunksDoNotMatter(a: seq<Text>, b: seq<Text>)
    requires Concatenated(a) == Concatenated(b)
    ensures Fed([], a) == Fed([], b) == (Lines(Concatenated(a)), Rest(Concatenated(a)))
  {
    FedIsWhole([], a);
    FedIsWhole([], b);
    assert [] + Concatenated(a) == Concatenated(a);
  }

  // ---------------------------------------------------------------------------------------------
  // What is written is read
  // ---------------------------------------------------------------------------------------------

  /** `JSON.stringify`: members in the value's own order, undefined ones left out. */
  function Stringified(v: Json): Text {
    match v
    case Array(items) => [OPEN_BRACKET] + Joined(StringifiedItems(items)) + [CLOSE_BRACKET]
    case Object(members) => [OPEN_BRACE] + Joined(StringifiedMembers(members)) + [CLOSE_BRACE]
    case Undefined => NULL_TEXT
    case _ => Scalar(v)
  }

  function StringifiedItems(items: seq<Json>): seq<Text> {
    if items == [] then [] else [Stringified(items[0])] + StringifiedItems(items[1..])
  }

  function StringifiedMembers(members: seq<Field>): seq<Text> {
    if members == [] then []
    else
      match members[0] case Field(key, value) =>
        (if value.Undefined? then [] else [Quoted(key) + [COLON] + Stringified(value)]) + StringifiedMembers(members[1..])
  }

  predicate Printable(t: Text) {
    forall i :: 0 <= i < |t| ==> t[i] >= 0x20
  }

  lemma {:induction false} EscapedIsPrintable(s: Text)
    ensures Printable(Escaped(s))
  {
    if s != [] {
      EscapedIsPrintable(s[if StartsPair(s) then 2 else 1..]);
      assert Printable(Head(s));
    }
  }

  lemma {:induction false} JoinedIsPrintable(parts: seq<Text>)
    requires forall i :: 0 <= i < |parts| ==> Printable(parts[i])
    ensures Printable(Joined(parts))
  {
    if |parts| > 1 {
      JoinedIsPrintable(parts[1..]);
    }
  }

  lemma {:induction false} StringifiedIsPrintable(v: Json)
    requires Valid(v)
    ensures Printable(Stringified(v))
    decreases v, 1
  {
    match v
    case Array(items) =>
      ItemsArePrintable(items);
      JoinedIsPrintable(StringifiedItems(items));
    case Object(members) =>
      MembersArePrintable(members);
      JoinedIsPrintable(StringifiedMembers(members));
    case String(s) => EscapedIsPrintable(s);
    case _ =>
  }

  lemma {:induction false} ItemsArePrintable(items: seq<Json>)
    requires forall i :: 0 <= i < |items| ==> Valid(items[i])
    ensures forall i :: 0 <= i < |StringifiedItems(items)| ==> Printable(StringifiedItems(items)[i])
    decreases items, 0
  {
    if items != [] {
      StringifiedIsPrintable(items[0]);
      ItemsArePrintable(items[1..]);
    }
  }

  lemma {:induction false} MembersArePrintable(members: seq<Field>)
    requires forall i :: 0 <= i < |members| ==> Valid(members[i].value)
    ensures forall i :: 0 <= i < |StringifiedMembers(members)| ==> Printable(StringifiedMembers(members)[i])
    decreases members, 0
  {
    if members != [] {
      StringifiedIsPrintable(members[0].value);
      EscapedIsPrintable(members[0].key);
      MembersArePrintable(members[1..]);
    }
  }

  function Written(values: seq<Json>): Text {
    if values == [] then [] else Stringified(values[0]) + [LF] + Written(values[1..])
  }

  function Texts(values: seq<Json>): seq<Text> {
    if values == [] then [] else [Stringified(values[0])] + Texts(values[1..])
  }

  lemma {:induction false} PrintableIsOneLine(t: Text, after: Text)
    requires Printable(t)
    ensures LineEnd(t + [LF] + after) == |t| && WithoutCr(t) == t
  {
    if t == [] {
      assert t + [LF] + after == [LF] + after;
    } else {
      assert (t + [LF] + after)[1..] == t[1..] + [LF] + after;
      assert t[|t| - 1] >= 0x20;
      PrintableIsOneLine(t[1..], after);
    }
  }

  lemma {:induction false} WholeRoundTrip(values: seq<Json>)
    requires forall i :: 0 <= i < |values| ==> Valid(values[i])
    ensures Lines(Written(values)) == Texts(values) && Rest(Written(values)) == []
  {
    if values != [] {
      var t, after := Stringified(values[0]), Written(values[1..]);
      StringifiedIsPrintable(values[0]);
      PrintableIsOneLine(t, after);
      var all := t + [LF] + after;
      assert all[..|t|] == t && all[|t| + 1..] == after;
      WholeRoundTrip(values[1..]);
    }
  }

  /** Written values, delivered in whatever chunks, come out as their texts, one a line, in order, with
      nothing left over. */
  lemma WrittenValuesAreRead(values: seq<Json>, chunks: seq<Text>)
    requires forall i :: 0 <= i < |values| ==> Valid(values[i])
    requires Concatenated(chunks) == Written(values)
    ensures Fed([], chunks) == (Texts(values), [])
  {
    ChunksDoNotMatter(chunks, chunks);
    WholeRoundTrip(values);
  }

  // ---------------------------------------------------------------------------------------------
  // What a line is
  // ---------------------------------------------------------------------------------------------

  function Ended(pieces: seq<Text>): Text {
    if pieces == [] then [] else pieces[0] + [LF] + Ended(pieces[1..])
  }

  /** `line` is `piece`, without the carriage return it may end in. */
  predicate IsLineOf(line: Text, piece: Text) {
    if piece != [] && piece[|piece| - 1] == CR then line + [CR] == piece else line == piece
  }

  /** The text is `pieces`, each ended by a line feed, and `rest`; none of them holds a line feed. */
  ghost predicate CutsInto(t: Text, pieces: seq<Text>, rest: Text) {
    t == Ended(pieces) + rest && LF !in rest && forall i :: 0 <= i < |pieces| ==> LF !in pieces[i]
  }

  lemma {:induction false} UpToLineEnd(t: Text)
    ensures LF !in t[..LineEnd(t)] && (LineEnd(t) < |t| ==> t[LineEnd(t)] == LF)
  {
    if t != [] && t[0] != LF {
      UpToLineEnd(t[1..]);
      assert t[..LineEnd(t)] == [t[0]] + t[1..][..LineEnd(t[1..])];
    }
  }

  /** Every text is cut at its line feeds and nowhere else, nothing of it is lost, and a line is what
      stands before its line feed, save for one carriage return. */
  lemma {:induction false} LinesAreThePieces(t: Text) returns (pieces: seq<Text>)
    ensures CutsInto(t, pieces, Rest(t)) && |Lines(t)| == |pieces|
    ensures forall i :: 0 <= i < |pieces| ==> IsLineOf(Lines(t)[i], pieces[i])
    decreases |t|
  {
    UpToLineEnd(t);
    var n := LineEnd(t);
    if n == |t| {
      pieces := [];
      assert t[..n] == t && Ended(pieces) + t == t;
    } else {
      var others := LinesAreThePieces(t[n + 1..]);
      pieces := [t[..n]] + others;
      OneMorePiece(t, n, others, Rest(t));
      LineOfPiece(t[..n]);
    }
  }

  lemma OneMorePiece(t: Text, n: nat, others: seq<Text>, rest: Text)
    requires n < |t| && t[n] == LF && LF !in t[..n] && CutsInto(t[n + 1..], others, rest)
    ensures CutsInto(t, [t[..n]] + others, rest)
  {
    var pieces := [t[..n]] + others;
    assert pieces[1..] == others;
    assert t == t[..n] + [LF] + t[n + 1..];
    assert t[..n] + [LF] + (Ended(others) + rest) == Ended(pieces) + rest;
  }

  lemma LineOfPiece(piece: Text)
    ensures IsLineOf(WithoutCr(piece), piece)
  {
  }
}
