/** The terminal's WebSocket frames (sections 5.2 and 5.3 of RFC 6455): the server's encoder and its
    incremental decoder for client frames. */
module WebSocketFrames {
  import opened Options

  type Byte = x: int | 0 <= x < 256

  // ---------- numbers in network order ----------

  function Pow256(k: nat): (p: nat)
    ensures p > 0
  {
    if k == 0 then 1 else 256 * Pow256(k - 1)
  }

  function ToBytes(n: nat, k: nat): (s: seq<Byte>)
    ensures |s| == k
  {
    if k == 0 then [] else ToBytes(n / 256, k - 1) + [n % 256]
  }

  function FromBytes(s: seq<Byte>): nat {
    if s == [] then 0 else FromBytes(s[..|s| - 1]) * 256 + s[|s| - 1]
  }

  lemma {:induction false} BytesRoundTrip(n: nat, k: nat)
    requires n < Pow256(k)
    ensures FromBytes(ToBytes(n, k)) == n
  {
    if k > 0 {
      Shift(n, Pow256(k - 1));
      BytesRoundTrip(n / 256, k - 1);
      assert ToBytes(n, k)[..k - 1] == ToBytes(n / 256, k - 1);
    }
  }

  lemma Shift(n: nat, p: nat)
    requires n < 256 * p
    ensures n / 256 < p && n == n / 256 * 256 + n % 256
  {
  }

  /** The most significant byte comes first. */
  lemma TwoBytes(n: nat)
    requires n < 65536
    ensures ToBytes(n, 2) == [n / 256, n % 256]
  {
    assert ToBytes(n / 256, 1) == ToBytes(n / 65536, 0) + [n / 256 % 256];
  }

  // ---------- masking ----------

  /** Exclusive or of the `k` lowest bits. */
  function XorBits(a: nat, b: nat, k: nat): (x: nat)
    decreases k
  {
    if k == 0 then 0 else 2 * XorBits(a / 2, b / 2, k - 1) + (a + b) % 2
  }

  function Pow2(k: nat): nat {
    if k == 0 then 1 else 2 * Pow2(k - 1)
  }

  function Bit(n: nat, i: nat): nat
    decreases i
  {
    if i == 0 then n % 2 else Bit(n / 2, i - 1)
  }

  lemma Parity(a: nat, b: nat, y: nat)
    ensures var x := 2 * y + (a + b) % 2; x / 2 == y && x % 2 == if a % 2 == b % 2 then 0 else 1
  {
  }

  lemma {:induction false} XorIsBitwise(a: nat, b: nat, k: nat, i: nat)
    requires i < k
    ensures Bit(XorBits(a, b, k), i) == if Bit(a, i) == Bit(b, i) then 0 else 1
    decreases k
  {
    Parity(a, b, XorBits(a / 2, b / 2, k - 1));
    if i > 0 {
      XorIsBitwise(a / 2, b / 2, k - 1, i - 1);
    }
  }

  lemma LowBit(a: nat, m: nat, y: nat)
    ensures var x := 2 * y + (a + m) % 2; x / 2 == y && (x + m) % 2 == a % 2
  {
  }

  lemma {:induction false} XorTwice(a: nat, m: nat, k: nat)
    requires a < Pow2(k)
    ensures XorBits(XorBits(a, m, k), m, k) == a
    decreases k
  {
    if k > 0 {
      XorTwice(a / 2, m / 2, k - 1);
      LowBit(a, m, XorBits(a / 2, m / 2, k - 1));
    }
  }

  lemma {:induction false} XorZero(a: nat, k: nat)
    requires a < Pow2(k)
    ensures XorBits(a, 0, k) == a
    decreases k
  {
    if k > 0 {
      XorZero(a / 2, k - 1);
    }
  }

  lemma {:induction false} XorSmall(a: nat, b: nat, k: nat)
    ensures XorBits(a, b, k) < Pow2(k)
    decreases k
  {
    if k > 0 {
      XorSmall(a / 2, b / 2, k - 1);
    }
  }

  lemma ByteRange()
    ensures Pow2(8) == 256
  {
    assert Pow2(4) == 16;
  }

  function Xor(a: Byte, b: Byte): Byte {
    XorSmall(a, b, 8);
    ByteRange();
    XorBits(a, b, 8)
  }

  const NO_MASK: seq<Byte> := [0, 0, 0, 0]

  function Masked(data: seq<Byte>, mask: seq<Byte>): (s: seq<Byte>)
    requires |mask| == 4
    ensures |s| == |data| && forall i :: 0 <= i < |s| ==> s[i] == Xor(data[i], mask[i % 4])
  {
    seq(|data|, i requires 0 <= i < |data| => Xor(data[i], mask[i % 4]))
  }

  lemma MaskTwice(data: seq<Byte>, mask: seq<Byte>)
    requires |mask| == 4
    ensures Masked(Masked(data, mask), mask) == data
    ensures Masked(data, NO_MASK) == data
  {
    forall i | 0 <= i < |data|
      ensures Xor(Xor(data[i], mask[i % 4]), mask[i % 4]) == data[i] && Xor(data[i], NO_MASK[i % 4]) == data[i]
    {
      ByteRange();
      XorTwice(data[i], mask[i % 4], 8);
      XorZero(data[i], 8);
    }
  }

  // ---------- frames ----------

  /** The first frame of a buffer, and how many bytes it takes. */
  datatype Parsed = Incomplete | Frame(opcode: Byte, payload: seq<Byte>, size: nat)

  /** Payload length and where the length field ends. */
  function Length(buf: seq<Byte>): (r: Option<(nat, nat)>)
    requires |buf| >= 2
    ensures r.Some? ==> 2 <= r.value.1 <= |buf|
  {
    var short := buf[1] % 128;
    if short == 126 then (if |buf| < 4 then None else Some((FromBytes(buf[2..4]), 4)))
    else if short == 127 then (if |buf| < 10 then None else Some((FromBytes(buf[2..10]), 10)))
    else Some((short, 2))
  }

  predicate HasMask(buf: seq<Byte>)
    requires |buf| >= 2
  {
    buf[1] >= 128
  }

  function Parse(buf: seq<Byte>): (p: Parsed)
    ensures p.Frame? ==> 2 <= p.size <= |buf|
  {
    if |buf| < 2 || Length(buf).None? then Incomplete
    else
      var (length, at) := Length(buf).value;
      var start := if HasMask(buf) then at + 4 else at;
      if |buf| < start + length then Incomplete
      else
        var mask := if HasMask(buf) then buf[at..at + 4] else NO_MASK;
        Frame(buf[0] % 16, Masked(buf[start..start + length], mask), start + length)
  }

  predicate IsData(opcode: Byte) {
    opcode == 0 || opcode == 1 || opcode == 2
  }

  const CLOSE: Byte := 8

  datatype Received = Received(payloads: seq<seq<Byte>>, rest: seq<Byte>, closed: bool)

  /** Every complete frame up to a close: the data payloads, what is left, whether it closed. */
  function Receive(buf: seq<Byte>): Received
    decreases |buf|
  {
    match Parse(buf)
    case Incomplete => Received([], buf, false)
    case Frame(opcode, payload, size) =>
      if opcode == CLOSE then Received([], buf[size..], true)
      else
        var later := Receive(buf[size..]);
        if IsData(opcode) then Prepend([payload], later) else later
  }

  function Prepend(payloads: seq<seq<Byte>>, r: Received): Received {
    r.(payloads := payloads + r.payloads)
  }

  /** ws_recv_frames. */
  method RecvFrames(input: seq<Byte>) returns (payloads: seq<seq<Byte>>, buf: seq<Byte>, closed: bool)
    ensures Received(payloads, buf, closed) == Receive(input)
  {
    payloads, buf, closed := [], input, false;
    while true
      invariant Receive(input) == Prepend(payloads, Receive(buf))
      decreases |buf|
    {
      var frame := TakeFrame(buf);
      if frame.Incomplete? {
        return payloads, buf, false;
      }
      PrependTwice(payloads, [frame.payload], Receive(buf[frame.size..]));
      buf := buf[frame.size..];
      if frame.opcode == CLOSE {
        return payloads, buf, true;
      }
      if frame.opcode == 1 || frame.opcode == 2 || frame.opcode == 0 {
        payloads := payloads + [frame.payload];
      }
    }
  }

  lemma PrependTwice(a: seq<seq<Byte>>, b: seq<seq<Byte>>, r: Received)
    ensures Prepend(a, Prepend(b, r)) == Prepend(a + b, r)
  {
    assert a + (b + r.payloads) == a + b + r.payloads;
  }

  method TakeLength(buf: seq<Byte>) returns (r: Option<(nat, nat)>)
    requires |buf| >= 2
    ensures r == Length(buf)
  {
    var length: nat, at := buf[1] % 128, 2;
    if buf[1] % 128 == 126 {
      if |buf| < 4 {
        return None;
      }
      length, at := FromBytes(buf[2..4]), 4;
    } else if buf[1] % 128 == 127 {
      if |buf| < 10 {
        return None;
      }
      length, at := FromBytes(buf[2..10]), 10;
    }
    r := Some((length, at));
  }

  /** The header fields of the first frame, then its payload. */
  method TakeFrame(buf: seq<Byte>) returns (frame: Parsed)
    ensures frame == Parse(buf)
  {
    if |buf| < 2 {
      return Incomplete;
    }
    var header := TakeLength(buf);
    if header.None? {
      return Incomplete;
    }
    var (length, at) := header.value;
    var start := if HasMask(buf) then at + 4 else at;
    if |buf| < start + length {
      return Incomplete;
    }
    var mask := if HasMask(buf) then buf[at..at + 4] else NO_MASK;
    var payload := Unmask(buf[start..start + length], mask);
    frame := Frame(buf[0] % 16, payload[..], start + length);
  }

  /** The bytearray, XORed in place. */
  method Unmask(data: seq<Byte>, mask: seq<Byte>) returns (payload: array<Byte>)
    requires |mask| == 4
    ensures fresh(payload) && payload[..] == Masked(data, mask)
  {
    payload := new Byte[|data|](i requires 0 <= i < |data| => data[i]);
    for i := 0 to |data|
      invariant forall j :: 0 <= j < i ==> payload[j] == Masked(data, mask)[j]
      invariant forall j :: i <= j < |data| ==> payload[j] == data[j]
    {
      payload[i] := Xor(payload[i], mask[i % 4]);
    }
  }

  // ---------- encoders ----------

  /** Length field of section 5.2, with the mask bit on top. */
  function LengthField(n: nat, masked: bool): seq<Byte> {
    var maskBit := if masked then 128 else 0;
    if n < 126 then [maskBit + n]
    else if n < 65536 then [maskBit + 126] + ToBytes(n, 2)
    else [maskBit + 127] + ToBytes(n, 8)
  }

  /** ws_send: one unmasked binary frame. */
  function ServerFrame(data: seq<Byte>): seq<Byte> {
    [0x82] + LengthField(|data|, false) + data
  }

  method SendFrame(data: seq<Byte>) returns (wire: seq<Byte>)
    requires |data| < Pow256(8)
    ensures wire == ServerFrame(data)
    ensures wire == (if |data| < 126 then [0x82, |data|]
                     else if |data| < 65536 then [0x82, 126, |data| / 256, |data| % 256]
                     else [0x82, 127] + ToBytes(|data|, 8)) + data
  {
    var n := |data|;
    var header: seq<Byte>;
    if n < 126 {
      header := [0x82, n];
    } else if n < 65536 {
      header := [0x82, 126] + ToBytes(n, 2);
      TwoBytes(n);
    } else {
      header := [0x82, 127] + ToBytes(n, 8);
    }
    wire := header + data;
  }

  /** What a client sends: any flags, an opcode, a mask of its choice (section 5.3). */
  datatype Sent = Sent(flags: Byte, opcode: Byte, mask: seq<Byte>, payload: seq<Byte>)

  predicate ValidSent(f: Sent) {
    f.flags % 16 == 0 && f.opcode < 16 && |f.mask| == 4 && |f.payload| < Pow256(8)
  }

  function ClientFrame(f: Sent): seq<Byte>
    requires ValidSent(f)
  {
    [f.flags + f.opcode] + LengthField(|f.payload|, true) + f.mask + Masked(f.payload, f.mask)
  }

  // ---------- one frame ----------

  /** Every length class reads back, whatever follows. */
  lemma LengthReadsBack(b0: Byte, n: nat, masked: bool, tail: seq<Byte>)
    requires n < Pow256(8)
    ensures var field := LengthField(n, masked); var buf := [b0] + field + tail;
      && |buf| >= 2 && Length(buf) == Some((n, 1 + |field|))
      && buf[0] == b0 && buf[1 + |field|..] == tail && HasMask(buf) == masked
  {
    var field := LengthField(n, masked);
    var buf := [b0] + field + tail;
    assert buf[1] == field[0];
    if 126 <= n < 65536 {
      assert Pow256(2) == 65536;
      BytesRoundTrip(n, 2);
      assert buf[2..4] == ToBytes(n, 2);
    } else if n >= 65536 {
      BytesRoundTrip(n, 8);
      assert buf[2..10] == ToBytes(n, 8);
    }
  }

  /** What the server sends is one binary frame with exactly that payload. */
  lemma ServerFrameReadsBack(data: seq<Byte>, tail: seq<Byte>)
    requires |data| < Pow256(8)
    ensures Parse(ServerFrame(data) + tail) == Frame(2, data, |ServerFrame(data)|)
  {
    var field := LengthField(|data|, false);
    var buf := ServerFrame(data) + tail;
    LengthReadsBack(0x82, |data|, false, data + tail);
    assert buf == [0x82] + field + (data + tail);
    var at := 1 + |field|;
    assert buf[at..at + |data|] == (data + tail)[..|data|] == data;
    MaskTwice(data, NO_MASK);
  }

  lemma MaskedBody(head: seq<Byte>, mask: seq<Byte>, data: seq<Byte>, tail: seq<Byte>)
    requires |mask| == 4
    ensures var buf := head + mask + data + tail; var at := |head|;
      && |buf| >= at + 4 + |data| && buf[at..at + 4] == mask && buf[at + 4..at + 4 + |data|] == data
      && buf == head + (mask + data + tail)
  {
  }

  /** A masked client frame reads back as its opcode and its unmasked payload. */
  lemma ClientFrameReadsBack(f: Sent, tail: seq<Byte>)
    requires ValidSent(f)
    ensures Parse(ClientFrame(f) + tail) == Frame(f.opcode, f.payload, |ClientFrame(f)|)
  {
    var field := LengthField(|f.payload|, true);
    var data := Masked(f.payload, f.mask);
    LengthReadsBack(f.flags + f.opcode, |f.payload|, true, f.mask + data + tail);
    MaskedBody([f.flags + f.opcode] + field, f.mask, data, tail);
    MaskTwice(f.payload, f.mask);
  }

  // ---------- streams ----------

  function Wire(frames: seq<Sent>): seq<Byte>
    requires forall f <- frames :: ValidSent(f)
  {
    if frames == [] then [] else ClientFrame(frames[0]) + Wire(frames[1..])
  }

  /** The payloads of the continuation, text and binary frames, in order. */
  function DataOf(frames: seq<Sent>): seq<seq<Byte>> {
    if frames == [] then []
    else DataIn(frames[0]) + DataOf(frames[1..])
  }

  function DataIn(f: Sent): seq<seq<Byte>> {
    if f.opcode == 0 || f.opcode == 1 || f.opcode == 2 then [f.payload] else []
  }

  lemma ReceivesFirst(f: Sent, tail: seq<Byte>)
    requires ValidSent(f)
    ensures Receive(ClientFrame(f) + tail) ==
            if f.opcode == 8 then Received([], tail, true) else Prepend(DataIn(f), Receive(tail))
  {
    ClientFrameReadsBack(f, tail);
    assert (ClientFrame(f) + tail)[|ClientFrame(f)|..] == tail;
    assert [] + Receive(tail).payloads == Receive(tail).payloads;
  }

  /** One client frame: a continuation, text or binary frame gives its payload, a close (8) closes, a
      ping (9), a pong (10) or any other gives nothing. */
  lemma ReceivesOne(f: Sent)
    requires ValidSent(f)
    ensures Receive(ClientFrame(f)) ==
            if f.opcode == 0 || f.opcode == 1 || f.opcode == 2 then Received([f.payload], [], false)
            else Received([], [], f.opcode == 8)
  {
    ReceivesFirst(f, []);
    assert ClientFrame(f) + [] == ClientFrame(f);
    assert Parse([]).Incomplete?;
  }

  lemma WireStartsWith(frames: seq<Sent>, rest: seq<Byte>)
    requires forall f <- frames :: ValidSent(f)
    ensures if frames == [] then Wire(frames) + rest == rest
            else Wire(frames) + rest == ClientFrame(frames[0]) + (Wire(frames[1..]) + rest)
  {
  }

  /** Frames without a close: their data payloads, then whatever the rest gives. */
  lemma {:induction false} ReceivesFrames(frames: seq<Sent>, rest: seq<Byte>)
    requires forall f <- frames :: ValidSent(f) && f.opcode != 8
    ensures Receive(Wire(frames) + rest) == Prepend(DataOf(frames), Receive(rest))
    decreases |frames|
  {
    WireStartsWith(frames, rest);
    if frames == [] {
      assert [] + Receive(rest).payloads == Receive(rest).payloads;
    } else {
      ReceivesFirst(frames[0], Wire(frames[1..]) + rest);
      ReceivesFrames(frames[1..], rest);
      PrependTwice(DataIn(frames[0]), DataOf(frames[1..]), Receive(rest));
    }
  }

  /** A stream, then the beginning of another frame: every data payload, and the beginning. */
  lemma ReceivesStream(frames: seq<Sent>, partial: seq<Byte>)
    requires forall f <- frames :: ValidSent(f) && f.opcode != 8
    requires Parse(partial).Incomplete?
    ensures Receive(Wire(frames) + partial) == Received(DataOf(frames), partial, false)
  {
    ReceivesFrames(frames, partial);
    assert DataOf(frames) + [] == DataOf(frames);
  }

  /** A close ends it: what comes after stays unread. */
  lemma ReceivesUpToClose(frames: seq<Sent>, close: Sent, after: seq<Byte>)
    requires forall f <- frames :: ValidSent(f) && f.opcode != 8
    requires ValidSent(close) && close.opcode == 8
    ensures Receive(Wire(frames) + (ClientFrame(close) + after)) == Received(DataOf(frames), after, true)
  {
    ReceivesFrames(frames, ClientFrame(close) + after);
    ReceivesFirst(close, after);
    assert DataOf(frames) + [] == DataOf(frames);
  }

  lemma ShortFrame(b0: Byte, data: seq<Byte>, tail: seq<Byte>)
    requires |data| < 126
    ensures Parse([b0, |data|] + data + tail) == Frame(b0 % 16, data, 2 + |data|)
    ensures ([b0, |data|] + data + tail)[2 + |data|..] == tail
  {
    var buf := [b0, |data|] + data + tail;
    assert buf[2..2 + |data|] == data;
    MaskTwice(data, NO_MASK);
  }

  /** An unmasked frame is read as well: two header bytes, the payload, and what follows. */
  lemma ReceivesUnmasked(b0: Byte, data: seq<Byte>, tail: seq<Byte>)
    requires |data| < 126
    ensures Receive([b0, |data|] + data + tail) ==
            if b0 % 16 == 8 then Received([], tail, true)
            else if b0 % 16 <= 2 then Prepend([data], Receive(tail))
            else Receive(tail)
  {
    ShortFrame(b0, data, tail);
  }

  // ---------- however the stream is cut ----------

  lemma SliceIgnoresTail(a: seq<Byte>, b: seq<Byte>, i: nat, j: nat)
    requires i <= j <= |a|
    ensures (a + b)[i..j] == a[i..j]
  {
  }

  lemma LengthIgnoresTail(a: seq<Byte>, b: seq<Byte>)
    requires |a| >= 2 && Length(a).Some?
    ensures Length(a + b) == Length(a) && HasMask(a + b) == HasMask(a)
  {
    assert (a + b)[1] == a[1];
    if |a| >= 4 { SliceIgnoresTail(a, b, 2, 4); }
    if |a| >= 10 { SliceIgnoresTail(a, b, 2, 10); }
  }

  lemma ParseIgnoresTail(a: seq<Byte>, b: seq<Byte>)
    requires Parse(a).Frame?
    ensures Parse(a + b) == Parse(a)
  {
    LengthIgnoresTail(a, b);
    var (length, at) := Length(a).value;
    var start := if HasMask(a) then at + 4 else at;
    SliceIgnoresTail(a, b, at, start);
    SliceIgnoresTail(a, b, start, start + length);
  }

  /** What reading `b` after `a` gives, from what reading `a` gave. */
  function Resume(r: Received, b: seq<Byte>): Received {
    if r.closed then r.(rest := r.rest + b) else Prepend(r.payloads, Receive(r.rest + b))
  }

  lemma PrependResume(payload: seq<Byte>, r: Received, b: seq<Byte>)
    ensures Prepend([payload], Resume(r, b)) == Resume(Prepend([payload], r), b)
  {
    PrependTwice([payload], r.payloads, Receive(r.rest + b));
  }

  /** Reading on from the remainder is reading the whole. */
  lemma {:induction false} ReceiveResumes(a: seq<Byte>, b: seq<Byte>)
    ensures Receive(a + b) == Resume(Receive(a), b)
    decreases |a|
  {
    if Parse(a).Frame? {
      var size := Parse(a).size;
      ParseIgnoresTail(a, b);
      assert (a + b)[size..] == a[size..] + b;
      if Parse(a).opcode != CLOSE {
        ReceiveResumes(a[size..], b);
        PrependResume(Parse(a).payload, Receive(a[size..]), b);
      }
    } else {
      assert Receive(a).payloads == [] && Receive(a).rest == a;
      assert [] + Receive(a + b).payloads == Receive(a + b).payloads;
    }
  }

  function Joined(chunks: seq<seq<Byte>>): seq<Byte> {
    if chunks == [] then [] else chunks[0] + Joined(chunks[1..])
  }

  /** The read loop: each chunk is appended to what the last call left, until a close.  The bytes
      after the close are what was left and what was never read. */
  function ReadAll(buf: seq<Byte>, chunks: seq<seq<Byte>>): Received
    decreases |chunks|
  {
    if chunks == [] then Received([], buf, false)
    else
      var r := Receive(buf + chunks[0]);
      if r.closed then r.(rest := r.rest + Joined(chunks[1..])) else Prepend(r.payloads, ReadAll(r.rest, chunks[1..]))
  }

  lemma {:induction false} Idempotent(buf: seq<Byte>)
    ensures var r := Receive(buf); !r.closed ==> Parse(r.rest).Incomplete?
    decreases |buf|
  {
    if Parse(buf).Frame? {
      Idempotent(buf[Parse(buf).size..]);
    }
  }

  lemma {:induction false} ReadAllFrom(buf: seq<Byte>, chunks: seq<seq<Byte>>)
    requires Parse(buf).Incomplete?
    ensures ReadAll(buf, chunks) == Receive(buf + Joined(chunks))
    decreases |chunks|
  {
    if chunks == [] {
      assert buf + Joined(chunks) == buf;
    } else {
      var r := Receive(buf + chunks[0]);
      assert buf + Joined(chunks) == (buf + chunks[0]) + Joined(chunks[1..]);
      ReceiveResumes(buf + chunks[0], Joined(chunks[1..]));
      if !r.closed {
        Idempotent(buf + chunks[0]);
        ReadAllFrom(r.rest, chunks[1..]);
      }
    }
  }

  /** However the bytes are split over reads, the payloads, the remainder and the close are those of
      one call on all of them. */
  lemma SplitsDoNotMatter(chunks: seq<seq<Byte>>, other: seq<seq<Byte>>)
    requires Joined(chunks) == Joined(other)
    ensures ReadAll([], chunks) == ReadAll([], other) == Receive(Joined(chunks))
  {
    ReadAllFrom([], chunks);
    ReadAllFrom([], other);
    assert [] + Joined(chunks) == Joined(chunks);
  }
}
