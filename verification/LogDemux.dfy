/** Docker's multiplexed log stream: frames of a stream type, three zero bytes, a big-endian length and
    that many bytes. */
module LogDemux {
  type Byte = n: int | 0 <= n < 0x100

  datatype Frame = Frame(stream: Byte, payload: seq<Byte>)

  predicate IsFrameHeader(buf: seq<Byte>, offset: nat) {
    offset + 3 < |buf| && buf[offset] <= 2 && buf[offset + 1] == 0 && buf[offset + 2] == 0 && buf[offset + 3] == 0
  }

  function ReadUInt32BE(buf: seq<Byte>, at: nat): nat
    requires at + 4 <= |buf|
  {
    var a: int, b: int, c: int, d: int := buf[at], buf[at + 1], buf[at + 2], buf[at + 3];
    a * 0x100_0000 + b * 0x1_0000 + c * 0x100 + d
  }

  /** The payloads of the whole frames `buf` starts with. */
  function PayloadsOf(buf: seq<Byte>): seq<Byte> {
    if |buf| < 8 || !IsFrameHeader(buf, 0) then []
    else
      var end := 8 + ReadUInt32BE(buf, 4);
      if end > |buf| then [] else buf[8..end] + PayloadsOf(buf[end..])
  }

  function Demultiplexed(buf: seq<Byte>): seq<Byte> {
    if |buf| < 8 || !IsFrameHeader(buf, 0) then buf else PayloadsOf(buf)
  }

  /** Every index the loop reads is proved to be inside the buffer. */
  method DemuxDockerLogBuffer(buf: seq<Byte>) returns (text: seq<Byte>)
    ensures text == Demultiplexed(buf)
  {
    if |buf| < 8 || !IsFrameHeader(buf, 0) {
      return buf;
    }
    text := [];
    var offset := 0;
    NothingYet(buf);
    while offset + 8 <= |buf| && IsFrameHeader(buf, offset)
      invariant 0 <= offset <= |buf|
      invariant SoFar(buf, text, offset)
      decreases |buf| - offset
    {
      var size := ReadUInt32BE(buf, offset + 4);
      var start := offset + 8;
      var end := start + size;
      if end > |buf| {
        break;
      }
      OneMore(buf, text, offset);
      text := text + buf[start..end];
      offset := end;
    }
    NoMore(buf, text, offset);
  }

  ghost predicate SoFar(buf: seq<Byte>, text: seq<Byte>, offset: nat) {
    offset <= |buf| && PayloadsOf(buf) == text + PayloadsOf(buf[offset..])
  }

  lemma NothingYet(buf: seq<Byte>)
    ensures SoFar(buf, [], 0)
  {
    assert buf[0..] == buf;
  }

  /** What is read at an offset is what is read at the start of the rest. */
  lemma Later(buf: seq<Byte>, offset: nat)
    requires offset <= |buf|
    ensures IsFrameHeader(buf[offset..], 0) == IsFrameHeader(buf, offset)
    ensures offset + 8 <= |buf| ==> ReadUInt32BE(buf[offset..], 4) == ReadUInt32BE(buf, offset + 4)
  {
  }

  lemma OneMore(buf: seq<Byte>, text: seq<Byte>, offset: nat)
    requires SoFar(buf, text, offset)
    requires offset + 8 <= |buf| && IsFrameHeader(buf, offset) && offset + 8 + ReadUInt32BE(buf, offset + 4) <= |buf|
    ensures var end := offset + 8 + ReadUInt32BE(buf, offset + 4);
            SoFar(buf, text + buf[offset + 8..end], end)
  {
    Later(buf, offset);
    var size := ReadUInt32BE(buf, offset + 4);
    SlicesOfRest(buf, offset, 8, 8 + size);
    Associates(text, buf[offset + 8..offset + 8 + size], PayloadsOf(buf[offset + 8 + size..]));
  }

  lemma SlicesOfRest(buf: seq<Byte>, offset: nat, a: nat, b: nat)
    requires a <= b && offset + b <= |buf|
    ensures buf[offset..][a..b] == buf[offset + a..offset + b] && buf[offset..][b..] == buf[offset + b..]
  {
  }

  lemma NoMore(buf: seq<Byte>, text: seq<Byte>, offset: nat)
    requires SoFar(buf, text, offset)
    requires offset + 8 > |buf| || !IsFrameHeader(buf, offset) || offset + 8 + ReadUInt32BE(buf, offset + 4) > |buf|
    ensures text == PayloadsOf(buf)
  {
    Later(buf, offset);
    assert PayloadsOf(buf[offset..]) == [] && text + [] == text;
  }

  // ---------------------------------------------------------------------------------------------
  // Against the encoder
  // ---------------------------------------------------------------------------------------------

  predicate Encodable(f: Frame) {
    f.stream <= 2 && |f.payload| < 0x1_0000_0000
  }

  function Header(f: Frame): (h: seq<Byte>)
    requires Encodable(f)
    ensures |h| == 8
  {
    var n := |f.payload|;
    [f.stream, 0, 0, 0, n / 0x100 / 0x100 / 0x100, n / 0x100 / 0x100 % 0x100, n / 0x100 % 0x100, n % 0x100]
  }

  function Encoded(f: Frame): seq<Byte>
    requires Encodable(f)
  {
    Header(f) + f.payload
  }

  function EncodedAll(frames: seq<Frame>): seq<Byte>
    requires forall i :: 0 <= i < |frames| ==> Encodable(frames[i])
  {
    if frames == [] then [] else Encoded(frames[0]) + EncodedAll(frames[1..])
  }

  function Payloads(frames: seq<Frame>): seq<Byte> {
    if frames == [] then [] else frames[0].payload + Payloads(frames[1..])
  }

  lemma LengthRoundTrip(f: Frame)
    requires Encodable(f)
    ensures ReadUInt32BE(Header(f), 4) == |f.payload|
  {
    var n := |f.payload|;
    var a := n / 0x100;
    var b := a / 0x100;
    var c := b / 0x100;
    assert c * 0x100 + b % 0x100 == b && b * 0x100 + a % 0x100 == a && a * 0x100 + n % 0x100 == n;
  }

  lemma HeaderIsRead(buf: seq<Byte>, f: Frame)
    requires Encodable(f) && |buf| >= 8 && buf[..8] == Header(f)
    ensures IsFrameHeader(buf, 0) && ReadUInt32BE(buf, 4) == |f.payload|
  {
    LengthRoundTrip(f);
    forall i | 0 <= i < 8 ensures buf[i] == Header(f)[i] {
      assert buf[i] == buf[..8][i];
    }
  }

  /** A frame cut short: a proper prefix of what one encodes to. */
  ghost predicate IsCut(cut: seq<Byte>, f: Frame) {
    Encodable(f) && |cut| < |Encoded(f)| && cut == Encoded(f)[..|cut|]
  }

  lemma CutHeader(cut: seq<Byte>, last: Frame)
    requires IsCut(cut, last) && |cut| >= 8
    ensures cut[..8] == Header(last)
  {
  }

  lemma CutIsIgnored(cut: seq<Byte>, last: Frame)
    requires IsCut(cut, last)
    ensures PayloadsOf(cut) == [] && (|cut| >= 8 ==> IsFrameHeader(cut, 0))
  {
    if |cut| >= 8 {
      CutHeader(cut, last);
      HeaderIsRead(cut, last);
    }
  }

  lemma Parts(h: seq<Byte>, payload: seq<Byte>, rest: seq<Byte>)
    ensures var s := h + payload + rest;
            && s[..|h|] == h && s[|h|..|h| + |payload|] == payload && s[|h| + |payload|..] == rest
  {
  }

  lemma FrameIsRead(f: Frame, rest: seq<Byte>)
    requires Encodable(f)
    ensures PayloadsOf(Encoded(f) + rest) == f.payload + PayloadsOf(rest)
    ensures IsFrameHeader(Encoded(f) + rest, 0)
  {
    Parts(Header(f), f.payload, rest);
    HeaderIsRead(Encoded(f) + rest, f);
  }

  lemma {:induction false} FramesAreRead(frames: seq<Frame>, cut: seq<Byte>, last: Frame)
    requires forall i :: 0 <= i < |frames| ==> Encodable(frames[i])
    requires IsCut(cut, last)
    ensures PayloadsOf(EncodedAll(frames) + cut) == Payloads(frames)
  {
    if frames == [] {
      assert EncodedAll(frames) + cut == cut;
      CutIsIgnored(cut, last);
    } else {
      Associates(Encoded(frames[0]), EncodedAll(frames[1..]), cut);
      FrameIsRead(frames[0], EncodedAll(frames[1..]) + cut);
      FramesAreRead(frames[1..], cut, last);
    }
  }

  lemma Associates(a: seq<Byte>, b: seq<Byte>, c: seq<Byte>)
    ensures a + b + c == a + (b + c)
  {
  }

  /** Decoding gives back the payloads of all whole frames, and nothing of a last one that was cut, for
      every buffer long enough to hold a header; a shorter one holds no whole frame and comes back as it
      is, so there the result is right only if there was nothing. */
  lemma DemuxInvertsEncoding(frames: seq<Frame>, cut: seq<Byte>, last: Frame)
    requires forall i :: 0 <= i < |frames| ==> Encodable(frames[i])
    requires IsCut(cut, last)
    ensures Demultiplexed(EncodedAll(frames) + cut) == Payloads(frames) <==> |EncodedAll(frames) + cut| >= 8 || cut == []
  {
    FramesAreRead(frames, cut, last);
    if frames == [] {
      assert EncodedAll(frames) + cut == cut;
      CutIsIgnored(cut, last);
    } else {
      Associates(Encoded(frames[0]), EncodedAll(frames[1..]), cut);
      FrameIsRead(frames[0], EncodedAll(frames[1..]) + cut);
    }
  }

  lemma {:induction false} PayloadsAreShorter(buf: seq<Byte>)
    ensures |PayloadsOf(buf)| <= |buf|
    ensures |buf| >= 8 && IsFrameHeader(buf, 0) ==> |PayloadsOf(buf)| <= |buf| - 8
  {
    if |buf| >= 8 && IsFrameHeader(buf, 0) && 8 + ReadUInt32BE(buf, 4) <= |buf| {
      PayloadsAreShorter(buf[8 + ReadUInt32BE(buf, 4)..]);
    }
  }

  /** Output comes back unchanged if and only if it does not start with a whole frame header, as a
      terminal's does not. */
  lemma UnchangedIffUnframed(buf: seq<Byte>)
    ensures Demultiplexed(buf) == buf <==> |buf| < 8 || !IsFrameHeader(buf, 0)
  {
    PayloadsAreShorter(buf);
  }

  // ---------------------------------------------------------------------------------------------
  // Every buffer
  // ---------------------------------------------------------------------------------------------

  /** A stream type, three zero bytes, a length, and that many bytes at least. */
  predicate StartsWithFrame(buf: seq<Byte>) {
    |buf| >= 8 && buf[0] <= 2 && buf[1] == buf[2] == buf[3] == 0 && 8 + ReadUInt32BE(buf, 4) <= |buf|
  }

  lemma HeaderOf(buf: seq<Byte>)
    requires StartsWithFrame(buf)
    ensures var n := ReadUInt32BE(buf, 4);
            var f := Frame(buf[0], buf[8..8 + n]);
            Encodable(f) && buf == Encoded(f) + buf[8 + n..]
  {
    var n := ReadUInt32BE(buf, 4);
    var f := Frame(buf[0], buf[8..8 + n]);
    BytesOf(buf[4], buf[5], buf[6], buf[7]);
    assert Header(f) == buf[..8];
    assert buf == buf[..8] + buf[8..8 + n] + buf[8 + n..];
  }

  lemma BytesOf(a: Byte, b: Byte, c: Byte, d: Byte)
    ensures var n: int := a * 0x100_0000 + b * 0x1_0000 + c * 0x100 + d;
            && 0 <= n < 0x1_0000_0000
            && n / 0x100 / 0x100 / 0x100 == a && n / 0x100 / 0x100 % 0x100 == b && n / 0x100 % 0x100 == c && n % 0x100 == d
  {
    var x, y, z: int := a * 0x100 + b, (a * 0x100 + b) * 0x100 + c, ((a * 0x100 + b) * 0x100 + c) * 0x100 + d;
    assert z / 0x100 == y && y / 0x100 == x && x / 0x100 == a;
  }

  /** Whatever the buffer holds, it is some whole frames and something that does not start with one; what
      comes back is the payloads of just these frames, or, where there is no header at the front at all, the
      buffer as it is. */
  lemma {:induction false} WholeFramesAreRead(buf: seq<Byte>) returns (frames: seq<Frame>, rest: seq<Byte>)
    ensures (forall i :: 0 <= i < |frames| ==> Encodable(frames[i])) && !StartsWithFrame(rest)
    ensures buf == EncodedAll(frames) + rest && PayloadsOf(buf) == Payloads(frames)
    ensures Demultiplexed(buf) == if |buf| < 8 || !IsFrameHeader(buf, 0) then buf else Payloads(frames)
    ensures frames != [] ==> Demultiplexed(buf) == Payloads(frames)
    decreases |buf|
  {
    frames, rest := [], buf;
    if StartsWithFrame(buf) {
      var n := ReadUInt32BE(buf, 4);
      var f := Frame(buf[0], buf[8..8 + n]);
      HeaderOf(buf);
      var others: seq<Frame>;
      others, rest := WholeFramesAreRead(buf[8 + n..]);
      frames := [f] + others;
      assert frames[1..] == others;
      Associates(Encoded(f), EncodedAll(others), rest);
      FrameIsRead(f, buf[8 + n..]);
    } else {
      assert EncodedAll(frames) + rest == buf;
    }
  }
}
