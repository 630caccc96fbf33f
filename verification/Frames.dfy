/** WebSocket frames (sections 5.2 and 5.3 of RFC 6455): the server's reader and writer in
    internal/api/websocket.go, the client's in cmd/ws-smoke/main.go. */
module Frames {
  import opened Wrappers
  import opened Octets

  type Opcode = n: nat | n < 16

  const TEXT: Opcode := 0x1
  const CLOSE: Opcode := 0x8
  const PING: Opcode := 0x9
  const PONG: Opcode := 0xA

  // ---------- Bits ----------

  function Xor(a: nat, b: nat): nat {
    if a == 0 && b == 0 then 0
    else 2 * Xor(a / 2, b / 2) + (if a % 2 != b % 2 then 1 else 0)
  }

  // The number of values of n bits.
  function Values(n: nat): nat {
    if n == 0 then 1 else 2 * Values(n - 1)
  }

  lemma {:induction false} XorTwice(a: nat, b: nat)
    ensures Xor(Xor(a, b), b) == a
  {
    if a != 0 || b != 0 {
      XorTwice(a / 2, b / 2);
      var x := Xor(a, b);
      assert x / 2 == Xor(a / 2, b / 2) && x % 2 == (if a % 2 != b % 2 then 1 else 0);
    }
  }

  lemma {:induction false} XorFits(a: nat, b: nat, n: nat)
    requires a < Values(n) && b < Values(n)
    ensures Xor(a, b) < Values(n)
  {
    if n > 0 {
      XorFits(a / 2, b / 2, n - 1);
    }
  }

  function XorByte(a: Byte, b: Byte): Byte {
    assert Values(8) == 256 by { assert Values(4) == 16; }
    XorFits(a, b, 8);
    Xor(a, b)
  }

  // ---------- Big-endian numbers ----------

  // binary.BigEndian.PutUint16 and PutUint64: the low 8 * width bits.
  function BigEndian(n: nat, width: nat): (r: Bytes)
    ensures |r| == width
  {
    if width == 0 then [] else BigEndian(n / 256, width - 1) + [n % 256]
  }

  function FromBigEndian(s: Bytes): nat {
    if s == [] then 0 else 256 * FromBigEndian(s[..|s| - 1]) + s[|s| - 1]
  }

  function Pow256(n: nat): nat {
    if n == 0 then 1 else 256 * Pow256(n - 1)
  }

  lemma {:induction false} BigEndianRoundTrip(n: nat, width: nat)
    requires n < Pow256(width)
    ensures FromBigEndian(BigEndian(n, width)) == n
  {
    if width > 0 {
      BigEndianRoundTrip(n / 256, width - 1);
      var r := BigEndian(n, width);
      assert r[..width - 1] == BigEndian(n / 256, width - 1);
    }
  }

  lemma Pow256Values()
    ensures Pow256(2) == 65536 && Pow256(8) == 0x1_0000_0000_0000_0000
  {
    assert Pow256(4) == 0x1_0000_0000;
    assert Pow256(6) == 0x1_0000_0000_0000;
  }

  // ---------- The format ----------

  type Mask = m: Bytes | |m| == 4 witness [0, 0, 0, 0]

  function Masked(payload: Bytes, mask: Mask): (r: Bytes)
    ensures |r| == |payload|
  {
    seq(|payload|, i requires 0 <= i < |payload| => XorByte(payload[i], mask[i % 4]))
  }

  lemma MaskTwice(payload: Bytes, mask: Mask)
    ensures Masked(Masked(payload, mask), mask) == payload
  {
    forall i | 0 <= i < |payload| ensures Masked(Masked(payload, mask), mask)[i] == payload[i] {
      XorTwice(payload[i], mask[i % 4]);
    }
  }

  // The shortest form of a payload length: 7 bits, or 126 and 16 bits, or 127 and 64 bits.
  function LengthField(n: nat, maskBit: nat): (r: Bytes)
    requires maskBit == 0 || maskBit == 128
  {
    if n < 126 then [maskBit + n]
    else if n <= 65535 then [maskBit + 126] + BigEndian(n, 2)
    else [maskBit + 127] + BigEndian(n, 8)
  }

  // A final frame; masked exactly when it comes from a client.
  datatype Frame = Frame(opcode: Opcode, mask: Option<Mask>, payload: Bytes)

  // The payload's length has a 64-bit form.
  predicate Fits(payload: Bytes) {
    |payload| < 0x1_0000_0000_0000_0000
  }

  function Encode(f: Frame): Bytes {
    match f.mask
    case None => [128 + f.opcode] + LengthField(|f.payload|, 0) + f.payload
    case Some(mask) => [128 + f.opcode] + LengthField(|f.payload|, 128) + mask + Masked(f.payload, mask)
  }

  function EncodeAll(frames: seq<Frame>): Bytes {
    if frames == [] then [] else Encode(frames[0]) + EncodeAll(frames[1..])
  }

  // ---------- Reading ----------

  datatype ReadError = Truncated | Fragmented | NotMasked | Closed | UnexpectedOpcode(opcode: Opcode) | TooLarge

  // What a reader makes of a stream: a frame and the rest of the stream, or an error.
  datatype Reading = Read(opcode: Opcode, payload: Bytes, rest: Bytes) | Failed(error: ReadError)

  // A payload length with what follows it, from the second header byte on.
  datatype LengthReading = Length(n: nat, rest: Bytes) | NoLength

  function ReadLength(second: Byte, s: Bytes): LengthReading {
    var short := second % 128;
    var width := if short == 126 then 2 else if short == 127 then 8 else 0;
    if |s| < width then NoLength
    else Length(if width == 0 then short else FromBigEndian(s[..width]), s[width..])
  }

  /** The server's readFrame as a function of the bytes it can read. */
  function ReadFrame(s: Bytes): (r: Reading)
    ensures r.Read? ==> |r.rest| < |s|
  {
    if |s| < 2 then Failed(Truncated)
    else if s[0] < 128 then Failed(Fragmented)
    else if s[1] < 128 then Failed(NotMasked)
    else match ReadLength(s[1], s[2..])
      case NoLength => Failed(Truncated)
      case Length(n, t) =>
        if |t| < 4 + n then Failed(Truncated)
        else Read(s[0] % 16, Masked(t[4..4 + n], t[..4]), t[4 + n..])
  }

  /** The client's readServerTextFrame: it neither unmasks nor looks at the FIN bit. */
  function ReadServerText(s: Bytes): (r: Reading)
    ensures r.Read? ==> |r.rest| < |s|
  {
    if |s| < 2 then Failed(Truncated)
    else if s[0] % 16 == CLOSE then Failed(Closed)
    else if s[0] % 16 != TEXT then Failed(UnexpectedOpcode(s[0] % 16))
    else match ReadLength(s[1], s[2..])
      case NoLength => Failed(Truncated)
      case Length(n, t) => if |t| < n then Failed(Truncated) else Read(TEXT, t[..n], t[n..])
  }

  // ---------- Round trips ----------

  lemma ReadsLength(n: nat, maskBit: nat, rest: Bytes)
    requires n < 0x1_0000_0000_0000_0000 && (maskBit == 0 || maskBit == 128)
    ensures var field := LengthField(n, maskBit);
            && |field| >= 1 && field[0] / 128 == maskBit / 128
            && ReadLength(field[0], field[1..] + rest) == Length(n, rest)
  {
    hide Pow256, BigEndian, FromBigEndian;
    Pow256Values();
    var field := LengthField(n, maskBit);
    var width := |field| - 1;
    if n >= 126 {
      BigEndianRoundTrip(n, width);
      assert (field[1..] + rest)[..width] == field[1..] == BigEndian(n, width);
      assert (field[1..] + rest)[width..] == rest;
    } else {
      assert field[1..] + rest == rest;
    }
  }

  /** The server reads back any masked frame, in each of the three length forms, and leaves what
      follows it. */
  lemma ServerReadsFrame(f: Frame, rest: Bytes)
    requires Fits(f.payload) && f.mask.Some?
    ensures ReadFrame(Encode(f) + rest) == Read(f.opcode, f.payload, rest)
  {
    hide LengthField, ReadLength, Masked;
    var s := Encode(f) + rest;
    var mask, body := f.mask.value, Masked(f.payload, f.mask.value);
    var field := LengthField(|f.payload|, 128);
    ReadsLength(|f.payload|, 128, mask + body + rest);
    MaskTwice(f.payload, mask);
    assert s[2..] == field[1..] + (mask + body + rest);
    var t := mask + body + rest;
    assert t[..4] == mask && t[4..4 + |body|] == body && t[4 + |body|..] == rest;
  }

  /** The client reads back any unmasked text frame. */
  lemma ClientReadsFrame(payload: Bytes, rest: Bytes)
    requires Fits(payload)
    ensures ReadServerText(Encode(Frame(TEXT, None, payload)) + rest) == Read(TEXT, payload, rest)
  {
    hide LengthField, ReadLength;
    var s := Encode(Frame(TEXT, None, payload)) + rest;
    var field := LengthField(|payload|, 0);
    ReadsLength(|payload|, 0, payload + rest);
    assert s[2..] == field[1..] + (payload + rest);
    assert (payload + rest)[..|payload|] == payload && (payload + rest)[|payload|..] == rest;
  }

  // The server reading frame after frame until nothing is left.
  function ReadFrames(s: Bytes): Option<seq<Bytes>> {
    if s == [] then Some([])
    else match ReadFrame(s)
      case Failed(_) => None
      case Read(_, payload, rest) =>
        match ReadFrames(rest)
        case None => None
        case Some(payloads) => Some([payload] + payloads)
  }

  // The client doing so.
  function ReadServerTexts(s: Bytes): Option<seq<Bytes>> {
    if s == [] then Some([])
    else match ReadServerText(s)
      case Failed(_) => None
      case Read(_, payload, rest) =>
        match ReadServerTexts(rest)
        case None => None
        case Some(payloads) => Some([payload] + payloads)
  }

  function Payloads(frames: seq<Frame>): seq<Bytes> {
    if frames == [] then [] else [frames[0].payload] + Payloads(frames[1..])
  }

  /** Client to server: any sequence of masked frames parses back to its payloads, nothing left over. */
  lemma {:induction false} ClientStreamRoundTrip(frames: seq<Frame>)
    requires forall i :: 0 <= i < |frames| ==> Fits(frames[i].payload) && frames[i].mask.Some?
    ensures ReadFrames(EncodeAll(frames)) == Some(Payloads(frames))
  {
    if frames != [] {
      ServerReadsFrame(frames[0], EncodeAll(frames[1..]));
      assert EncodeAll(frames) != [];
      hide ReadFrame, Encode;
      ClientStreamRoundTrip(frames[1..]);
    }
  }

  /** Server to client: likewise for unmasked text frames. */
  lemma {:induction false} ServerStreamRoundTrip(frames: seq<Frame>)
    requires forall i :: 0 <= i < |frames| ==> Fits(frames[i].payload) && frames[i].mask.None? && frames[i].opcode == TEXT
    ensures ReadServerTexts(EncodeAll(frames)) == Some(Payloads(frames))
  {
    if frames != [] {
      ClientReadsFrame(frames[0].payload, EncodeAll(frames[1..]));
      assert frames[0] == Frame(TEXT, None, frames[0].payload) && EncodeAll(frames) != [];
      hide ReadServerText, Encode;
      ServerStreamRoundTrip(frames[1..]);
    }
  }

  // ---------- ReadJSON ----------

  // One call of ReadJSON: the message or why there is none, what it left unread, what it wrote.
  datatype Message = Message(payload: Bytes, rest: Bytes, written: Bytes) | Stopped(error: ReadError, written: Bytes)

  function Pong(payload: Bytes): Bytes {
    Encode(Frame(PONG, None, payload))
  }

  function ReadMessage(s: Bytes, written: Bytes): Message
    decreases |s|
  {
    match ReadFrame(s)
    case Failed(error) => Stopped(error, written)
    case Read(opcode, payload, rest) =>
      if opcode == TEXT then Message(payload, rest, written)
      else if opcode == PING then ReadMessage(rest, written + Pong(payload))
      else if opcode == PONG then ReadMessage(rest, written)
      else if opcode == CLOSE then Stopped(Closed, written)
      else Stopped(UnexpectedOpcode(opcode), written)
  }

  // The frames up to and including the first text frame; all of them when there is none.
  function Chatter(frames: seq<Frame>): nat {
    if frames == [] || frames[0].opcode == TEXT then 0 else 1 + Chatter(frames[1..])
  }

  predicate IsConversation(frames: seq<Frame>) {
    forall i :: 0 <= i < |frames| ==>
      && Fits(frames[i].payload) && frames[i].mask.Some?
      && (frames[i].opcode == TEXT || frames[i].opcode == PING || frames[i].opcode == PONG)
  }

  // The pongs owed for the pings among some frames, in order, with equal payloads.
  function PongsFor(frames: seq<Frame>): Bytes {
    if frames == [] then [] else AnswerTo(frames[0]) + PongsFor(frames[1..])
  }

  function AnswerTo(f: Frame): Bytes {
    if f.opcode == PING then Pong(f.payload) else []
  }

  lemma {:induction false} ChatterBounds(frames: seq<Frame>)
    ensures Chatter(frames) <= |frames|
    ensures Chatter(frames) < |frames| ==> frames[Chatter(frames)].opcode == TEXT
    ensures forall i :: 0 <= i < Chatter(frames) ==> frames[i].opcode != TEXT
  {
    if frames != [] && frames[0].opcode != TEXT {
      ChatterBounds(frames[1..]);
    }
  }

  // What one ReadJSON should make of a conversation.
  function NextText(frames: seq<Frame>, written: Bytes): Message {
    ChatterBounds(frames);
    var k := Chatter(frames);
    if k < |frames|
    then Message(frames[k].payload, EncodeAll(frames[k + 1..]), written + PongsFor(frames[..k]))
    else Stopped(Truncated, written + PongsFor(frames))
  }

  lemma NextTextSkips(frames: seq<Frame>, written: Bytes)
    requires frames != [] && frames[0].opcode != TEXT
    ensures NextText(frames, written) == NextText(frames[1..], written + AnswerTo(frames[0]))
  {
    hide Encode, Pong, AnswerTo;
    ChatterBounds(frames);
    ChatterBounds(frames[1..]);
    var k := Chatter(frames[1..]);
    var answer := AnswerTo(frames[0]);
    assert written + answer + PongsFor(frames[1..]) == written + (answer + PongsFor(frames[1..]));
    if k < |frames| - 1 {
      assert frames[..k + 1][1..] == frames[1..][..k];
      assert frames[1..][k + 1..] == frames[k + 2..];
      assert written + answer + PongsFor(frames[1..][..k]) == written + (answer + PongsFor(frames[1..][..k]));
    }
  }

  lemma MessageSkips(frames: seq<Frame>, written: Bytes)
    requires IsConversation(frames) && frames != [] && frames[0].opcode != TEXT
    ensures ReadMessage(EncodeAll(frames), written) == ReadMessage(EncodeAll(frames[1..]), written + AnswerTo(frames[0]))
  {
    hide ReadFrame, Encode;
    ServerReadsFrame(frames[0], EncodeAll(frames[1..]));
    assert written + [] == written;
  }

  lemma NothingFollows(written: Bytes)
    ensures ReadMessage(EncodeAll([]), written) == NextText([], written)
  {
    assert written + PongsFor([]) == written;
  }

  /** One ReadJSON on a conversation skips to the first text frame, returns its payload, leaves
      exactly the frames after it, and has answered every ping before it with one equal pong. */
  lemma {:induction false} ReadsNextText(frames: seq<Frame>, written: Bytes)
    requires IsConversation(frames)
    ensures ReadMessage(EncodeAll(frames), written) == NextText(frames, written)
  {
    hide ReadFrame, Encode;
    if frames == [] {
      NothingFollows(written);
    } else if frames[0].opcode == TEXT {
      ServerReadsFrame(frames[0], EncodeAll(frames[1..]));
      assert frames[..0] == [];
      assert written + PongsFor(frames[..0]) == written;
    } else {
      hide ReadMessage, NextText;
      MessageSkips(frames, written);
      NextTextSkips(frames, written);
      ReadsNextText(frames[1..], written + AnswerTo(frames[0]));
    }
  }

  // ---------- Any number of ReadJSON calls ----------

  datatype Session = Session(messages: seq<Bytes>, rest: Bytes, written: Bytes)

  // n successive calls, stopping early at the first that yields no message.
  function ReadMessages(s: Bytes, n: nat): Session
    decreases n
  {
    if n == 0 then Session([], s, [])
    else
      match ReadMessage(s, [])
      case Stopped(_, written) => Session([], [], written)
      case Message(payload, rest, written) =>
        var later := ReadMessages(rest, n - 1);
        Session([payload] + later.messages, later.rest, written + later.written)
  }

  function Texts(frames: seq<Frame>): seq<Bytes> {
    if frames == [] then []
    else (if frames[0].opcode == TEXT then [frames[0].payload] else []) + Texts(frames[1..])
  }

  lemma {:induction false} TextsAppend(xs: seq<Frame>, ys: seq<Frame>)
    ensures Texts(xs + ys) == Texts(xs) + Texts(ys)
  {
    if xs == [] {
      assert xs + ys == ys;
    } else {
      assert (xs + ys)[1..] == xs[1..] + ys;
      TextsAppend(xs[1..], ys);
    }
  }

  lemma {:induction false} PongsAppend(xs: seq<Frame>, ys: seq<Frame>)
    ensures PongsFor(xs + ys) == PongsFor(xs) + PongsFor(ys)
  {
    if xs == [] {
      assert xs + ys == ys;
    } else {
      assert (xs + ys)[1..] == xs[1..] + ys;
      PongsAppend(xs[1..], ys);
    }
  }

  lemma {:induction false} NoTexts(frames: seq<Frame>)
    requires forall i :: 0 <= i < |frames| ==> frames[i].opcode != TEXT
    ensures Texts(frames) == []
  {
    if frames != [] {
      NoTexts(frames[1..]);
    }
  }

  // The number of frames up to and including the n-th text frame.
  function Consumed(frames: seq<Frame>, n: nat): nat
    decreases n
  {
    ChatterBounds(frames);
    var k := Chatter(frames);
    if n == 0 then 0
    else if k == |frames| then k
    else k + 1 + Consumed(frames[k + 1..], n - 1)
  }

  /** On any stream of text, ping and pong frames, n successive ReadJSON calls return exactly the
      first n text payloads in order, leave exactly the frames after the n-th text frame, and have
      written exactly one pong per ping passed so far, payloads equal and in order. */
  lemma {:induction false} ConversationIsRead(frames: seq<Frame>, n: nat)
    requires IsConversation(frames) && n <= |Texts(frames)|
    ensures var c := Consumed(frames, n);
            && c <= |frames| && Texts(frames[..c]) == Texts(frames)[..n]
            && ReadMessages(EncodeAll(frames), n) ==
               Session(Texts(frames)[..n], EncodeAll(frames[c..]), PongsFor(frames[..c]))
    decreases n
  {
    hide *;
    if n == 0 {
      NothingToRead(frames);
    } else {
      FirstOfConversation(frames);
      var k := Chatter(frames);
      var tail := frames[k + 1..];
      ConversationIsRead(tail, n - 1);
      ConsumedStep(frames, n);
      SplitBeyond(frames, k, Consumed(tail, n - 1));
      ReadMessagesStep(EncodeAll(frames), n);
      FirstThenRest(frames[k].payload, Texts(tail), n);
    }
  }

  lemma NothingToRead(frames: seq<Frame>)
    ensures Consumed(frames, 0) == 0 && Texts(frames[..0]) == Texts(frames)[..0]
    ensures ReadMessages(EncodeAll(frames), 0) == Session(Texts(frames)[..0], EncodeAll(frames[0..]), PongsFor(frames[..0]))
  {
    assert frames[0..] == frames && frames[..0] == [];
  }

  lemma ConsumedStep(frames: seq<Frame>, n: nat)
    requires n > 0 && Chatter(frames) < |frames|
    ensures Consumed(frames, n) == Chatter(frames) + 1 + Consumed(frames[Chatter(frames) + 1..], n - 1)
  {
  }

  lemma FirstThenRest(payload: Bytes, later: seq<Bytes>, n: nat)
    requires 0 < n <= |later| + 1
    ensures ([payload] + later)[..n] == [payload] + later[..n - 1]
  {
  }

  // The first text frame of a conversation, and what follows it.
  lemma FirstOfConversation(frames: seq<Frame>)
    requires IsConversation(frames) && Texts(frames) != []
    ensures Chatter(frames) < |frames| && frames[Chatter(frames)].opcode == TEXT
    ensures forall i :: 0 <= i < Chatter(frames) ==> frames[i].opcode != TEXT
    ensures var k := Chatter(frames);
            var tail := frames[k + 1..];
            && IsConversation(tail)
            && ReadMessage(EncodeAll(frames), []) == Message(frames[k].payload, EncodeAll(tail), PongsFor(frames[..k]))
            && Texts(frames) == [frames[k].payload] + Texts(tail)
  {
    hide EncodeAll, ReadMessage, NextText, Texts, PongsFor;
    ChatterBounds(frames);
    var k := Chatter(frames);
    if k == |frames| {
      NoTexts(frames);
    }
    RestOfConversation(frames, k + 1);
    SplitAtText(frames, k);
    ReadsNextText(frames, []);
    NextTextAt(frames, k);
  }

  lemma RestOfConversation(frames: seq<Frame>, k: nat)
    requires IsConversation(frames) && k <= |frames|
    ensures IsConversation(frames[k..])
  {
  }

  lemma NextTextAt(frames: seq<Frame>, k: nat)
    requires k == Chatter(frames) < |frames|
    ensures NextText(frames, []) == Message(frames[k].payload, EncodeAll(frames[k + 1..]), PongsFor(frames[..k]))
  {
    hide PongsFor, EncodeAll;
    assert [] + PongsFor(frames[..k]) == PongsFor(frames[..k]);
  }

  lemma ReadMessagesStep(s: Bytes, n: nat)
    requires n > 0 && ReadMessage(s, []).Message?
    ensures var m := ReadMessage(s, []);
            var later := ReadMessages(m.rest, n - 1);
            ReadMessages(s, n) == Session([m.payload] + later.messages, later.rest, m.written + later.written)
  {
  }

  lemma FirstText(frames: seq<Frame>)
    requires frames != [] && frames[0].opcode == TEXT
    ensures Texts(frames) == [frames[0].payload] + Texts(frames[1..])
    ensures PongsFor(frames) == PongsFor(frames[1..])
  {
  }

  // A conversation around one of its text frames, with none before it.
  lemma SplitAtText(frames: seq<Frame>, k: nat)
    requires k < |frames| && frames[k].opcode == TEXT
    requires forall i :: 0 <= i < k ==> frames[i].opcode != TEXT
    ensures Texts(frames) == [frames[k].payload] + Texts(frames[k + 1..])
    ensures PongsFor(frames) == PongsFor(frames[..k]) + PongsFor(frames[k + 1..])
  {
    hide Texts, PongsFor;
    assert frames == frames[..k] + frames[k..];
    assert frames[k..][1..] == frames[k + 1..];
    TextsAppend(frames[..k], frames[k..]);
    PongsAppend(frames[..k], frames[k..]);
    NoTexts(frames[..k]);
    FirstText(frames[k..]);
  }

  // Up to c frames beyond the first text frame.
  lemma SplitBeyond(frames: seq<Frame>, k: nat, c: nat)
    requires k < |frames| && frames[k].opcode == TEXT && k + 1 + c <= |frames|
    requires forall i :: 0 <= i < k ==> frames[i].opcode != TEXT
    ensures var tail := frames[k + 1..];
            && frames[k + 1 + c..] == tail[c..]
            && Texts(frames[..k + 1 + c]) == [frames[k].payload] + Texts(tail[..c])
            && PongsFor(frames[..k + 1 + c]) == PongsFor(frames[..k]) + PongsFor(tail[..c])
  {
    hide Texts, PongsFor;
    var front := frames[..k + 1 + c];
    SplitAtText(front, k);
    assert front[k + 1..] == frames[k + 1..][..c] && front[..k] == frames[..k];
  }

  // ---------- The code ----------

  /** Both ends of a connection see a stream to read and a stream they have written. */
  class Wire {
    var input: Bytes
    var output: Bytes

    constructor (input: Bytes)
      ensures this.input == input && output == []
    {
      this.input, output := input, [];
    }

    // io.ReadFull: all n bytes, or an error.
    method ReadFull(n: nat) returns (ok: bool, bytes: Bytes)
      modifies this`input
      ensures ok <==> |old(input)| >= n
      ensures ok ==> bytes == old(input)[..n] && input == old(input)[n..]
    {
      ok := |input| >= n;
      if ok {
        bytes, input := input[..n], input[n..];
      } else {
        bytes, input := input, [];
      }
    }

    method Write(bytes: Bytes)
      modifies this`output
      ensures output == old(output) + bytes
    {
      output := output + bytes;
    }

    // The extended payload length, as both readers take it.
    method ReadPayloadLength(second: Byte) returns (ok: bool, n: nat)
      modifies this`input
      ensures match ReadLength(second, old(input))
              case NoLength => !ok
              case Length(length, rest) => ok && n == length && input == rest
    {
      n := second % 128;
      ok := true;
      if n == 126 {
        var ext;
        ok, ext := ReadFull(2);
        if ok { n := FromBigEndian(ext); }
      } else if n == 127 {
        var ext;
        ok, ext := ReadFull(8);
        if ok { n := FromBigEndian(ext); }
      }
    }

    // Unmasks in place, byte after byte.
    method Unmask(payload: array<Byte>, mask: Mask)
      modifies payload
      ensures payload[..] == Masked(old(payload[..]), mask)
    {
      ghost var before := payload[..];
      for i := 0 to payload.Length
        invariant forall k :: 0 <= k < i ==> payload[k] == XorByte(before[k], mask[k % 4])
        invariant forall k :: i <= k < payload.Length ==> payload[k] == before[k]
      {
        payload[i] := XorByte(payload[i], mask[i % 4]);
      }
    }

    /** The server's readFrame. */
    method ReadClientFrame() returns (error: Option<ReadError>, opcode: Opcode, payload: Bytes)
      modifies this`input
      ensures match ReadFrame(old(input))
              case Failed(e) => error == Some(e)
              case Read(o, p, rest) => error.None? && opcode == o && payload == p && input == rest
    {
      opcode, payload := 0, [];
      var ok, header := ReadFull(2);
      if !ok { return Some(Truncated), 0, []; }
      if header[0] < 128 { return Some(Fragmented), 0, []; }
      opcode := header[0] % 16;
      if header[1] < 128 { return Some(NotMasked), 0, []; }
      var n;
      ok, n := ReadPayloadLength(header[1]);
      if !ok { return Some(Truncated), 0, []; }
      ok, payload := ReadMaskedPayload(n);
      if !ok { return Some(Truncated), 0, []; }
      error := None;
    }

    // The mask, the payload, and the payload unmasked.
    method ReadMaskedPayload(n: nat) returns (ok: bool, payload: Bytes)
      modifies this`input
      ensures ok <==> |old(input)| >= 4 + n
      ensures ok ==> payload == Masked(old(input)[4..4 + n], old(input)[..4]) && input == old(input)[4 + n..]
    {
      payload := [];
      var mask, body;
      ok, mask := ReadFull(4);
      if !ok { return; }
      ok, body := ReadFull(n);
      if !ok { return; }
      var buffer := new Byte[n](i requires 0 <= i < |body| => body[i]);
      assert buffer[..] == body;
      Unmask(buffer, mask);
      payload := buffer[..];
    }

    /** The server's writeFrame. */
    method WriteFrame(opcode: Opcode, payload: Bytes)
      modifies this`output
      ensures output == old(output) + Encode(Frame(opcode, None, payload))
    {
      var header: Bytes;
      if |payload| < 126 {
        header := [128 + opcode, |payload|];
      } else if |payload| <= 65535 {
        header := [128 + opcode, 126] + BigEndian(|payload|, 2);
      } else {
        header := [128 + opcode, 127] + BigEndian(|payload|, 8);
      }
      assert header == [128 + opcode] + LengthField(|payload|, 0);
      Write(header);
      Write(payload);
      assert output == old(output) + (header + payload);
    }

    /** The server's ReadJSON: pings are answered, pongs skipped, until a text frame or an end. */
    method ReadJSON() returns (error: Option<ReadError>, message: Bytes)
      modifies this
      ensures match ReadMessage(old(input), old(output))
              case Message(payload, rest, written) => error.None? && message == payload && input == rest && output == written
              case Stopped(e, written) => error == Some(e) && output == written
    {
      ghost var goal := ReadMessage(input, output);
      while true
        invariant ReadMessage(input, output) == goal
        decreases |input|
      {
        var opcode, payload;
        error, opcode, payload := ReadClientFrame();
        if error.Some? { return error, []; }
        if opcode == TEXT {
          return None, payload;
        } else if opcode == PING {
          WriteFrame(PONG, payload);
        } else if opcode == PONG {
        } else if opcode == CLOSE {
          return Some(Closed), [];
        } else {
          return Some(UnexpectedOpcode(opcode)), [];
        }
      }
    }

    // The masked payload, byte after byte.
    static method MaskPayload(payload: Bytes, mask: Mask) returns (masked: Bytes)
      ensures masked == Masked(payload, mask)
    {
      var buffer := new Byte[|payload|];
      for i := 0 to |payload|
        invariant forall k :: 0 <= k < i ==> buffer[k] == XorByte(payload[k], mask[k % 4])
      {
        buffer[i] := XorByte(payload[i], mask[i % 4]);
      }
      masked := buffer[..];
    }

    static method ClientHeader(n: nat) returns (header: Bytes)
      requires n <= 65535
      ensures header == [128 + TEXT] + LengthField(n, 128)
    {
      header := [0x81];
      if n < 126 {
        header := header + [128 + n];
      } else {
        header := header + ([128 + 126] + BigEndian(n, 2));
      }
    }

    /** The client's writeClientTextFrame, with the mask it has drawn. */
    method WriteClientTextFrame(payload: Bytes, mask: Mask) returns (error: Option<ReadError>)
      modifies this`output
      ensures error == if |payload| <= 65535 then None else Some(TooLarge)
      ensures output == old(output) + (if |payload| <= 65535 then Encode(Frame(TEXT, Some(mask), payload)) else [])
    {
      if |payload| > 65535 {
        return Some(TooLarge);
      }
      hide LengthField, Masked;
      var header := ClientHeader(|payload|);
      var masked := MaskPayload(payload, mask);
      assert Encode(Frame(TEXT, Some(mask), payload)) == header + mask + masked;
      hide Encode;
      ghost var before := output;
      Write(header);
      Write(mask);
      Write(masked);
      assert before + header + mask + masked == before + (header + mask + masked);
      error := None;
    }

    /** The client's readServerTextFrame. */
    method ReadServerTextFrame() returns (error: Option<ReadError>, payload: Bytes)
      modifies this`input
      ensures match ReadServerText(old(input))
              case Failed(e) => error == Some(e)
              case Read(_, p, rest) => error.None? && payload == p && input == rest
    {
      payload := [];
      var ok, header := ReadFull(2);
      if !ok { return Some(Truncated), []; }
      var opcode := header[0] % 16;
      if opcode == CLOSE { return Some(Closed), []; }
      if opcode != TEXT { return Some(UnexpectedOpcode(opcode)), []; }
      var n;
      ok, n := ReadPayloadLength(header[1]);
      if !ok { return Some(Truncated), []; }
      ok, payload := ReadFull(n);
      if !ok { return Some(Truncated), []; }
      error := None;
    }
  }
}
