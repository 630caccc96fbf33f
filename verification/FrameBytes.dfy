/** Frames byte by byte and bit by bit, in the terms of sections 5.2, 5.3 and 5.7 of RFC 6455. */
module FrameBytes {
  import opened Wrappers
  import opened Octets
  import opened Frames

  // ---------- Bits ----------

  // Bit k of a number, counted from the lowest.
  predicate Bit(n: nat, k: nat) {
    if k == 0 then n % 2 == 1 else Bit(n / 2, k - 1)
  }

  lemma {:induction false} XorBits(a: nat, b: nat, k: nat)
    ensures Bit(Xor(a, b), k) <==> Bit(a, k) != Bit(b, k)
  {
    if a == 0 && b == 0 {
      ZeroBits(k);
    } else {
      var x := Xor(a, b);
      assert x / 2 == Xor(a / 2, b / 2) && x % 2 == (if a % 2 != b % 2 then 1 else 0);
      if k > 0 {
        XorBits(a / 2, b / 2, k - 1);
      }
    }
  }

  lemma {:induction false} ZeroBits(k: nat)
    ensures !Bit(0, k)
  {
    if k > 0 {
      ZeroBits(k - 1);
    }
  }

  // ---------- Lengths ----------

  // Where the mask, or without one the payload, starts.
  function HeaderSize(second: Byte): nat {
    if second % 128 == 126 then 4 else if second % 128 == 127 then 10 else 2
  }

  // The payload length a header announces.
  function Announced(s: Bytes): nat
    requires |s| >= 2 && |s| >= HeaderSize(s[1])
  {
    if s[1] % 128 == 126 then 0x100 * s[2] as int + s[3]
    else if s[1] % 128 == 127 then
      0x100_0000_0000_0000 * s[2] as int + 0x1_0000_0000_0000 * s[3] as int + 0x100_0000_0000 * s[4] as int
      + 0x1_0000_0000 * s[5] as int + 0x100_0000 * s[6] as int + 0x1_0000 * s[7] as int + 0x100 * s[8] as int + s[9]
    else s[1] % 128
  }

  lemma LastByte(s: Bytes, n: nat)
    requires 0 < n <= |s|
    ensures FromBigEndian(s[..n]) == 256 * FromBigEndian(s[..n - 1]) + s[n - 1]
  {
    assert s[..n][..n - 1] == s[..n - 1];
  }

  lemma FourBytes(s: Bytes)
    requires |s| >= 4
    ensures FromBigEndian(s[..2]) == 0x100 * s[0] as int + s[1]
    ensures FromBigEndian(s[..4]) == 0x100_0000 * s[0] as int + 0x1_0000 * s[1] as int + 0x100 * s[2] as int + s[3]
  {
    LastByte(s, 1);
    LastByte(s, 2);
    LastByte(s, 3);
    LastByte(s, 4);
  }

  lemma TwoBytes(s: Bytes)
    requires |s| >= 2
    ensures FromBigEndian(s[..2]) == 0x100 * s[0] as int + s[1]
  {
    LastByte(s, 1);
    LastByte(s, 2);
  }

  lemma EightBytes(s: Bytes)
    requires |s| >= 8
    ensures FromBigEndian(s[..8]) ==
      0x100_0000_0000_0000 * s[0] as int + 0x1_0000_0000_0000 * s[1] as int + 0x100_0000_0000 * s[2] as int
      + 0x1_0000_0000 * s[3] as int + 0x100_0000 * s[4] as int + 0x1_0000 * s[5] as int + 0x100 * s[6] as int + s[7]
  {
    hide FromBigEndian;
    FourBytes(s);
    LastByte(s, 5);
    LastByte(s, 6);
    LastByte(s, 7);
    LastByte(s, 8);
  }

  lemma ReadsAnnounced(s: Bytes)
    requires |s| >= 2
    ensures ReadLength(s[1], s[2..]) ==
            if |s| < HeaderSize(s[1]) then NoLength else Length(Announced(s), s[HeaderSize(s[1])..])
  {
    hide FromBigEndian;
    if s[1] % 128 == 126 && |s| >= 4 {
      TwoBytes(s[2..]);
    } else if s[1] % 128 == 127 && |s| >= 10 {
      EightBytes(s[2..]);
    }
  }

  // ---------- The server's reader ----------

  // The header is one the server reads, and all of the frame is there.
  predicate IsWhole(s: Bytes) {
    && |s| >= 2 && s[0] >= 128 && s[1] >= 128
    && |s| >= HeaderSize(s[1]) && |s| >= HeaderSize(s[1]) + 4 + Announced(s)
  }

  /** Which streams the server reads a frame from, and which error it gives on the others. */
  lemma ReadsOrFails(s: Bytes)
    ensures ReadFrame(s).Read? <==> IsWhole(s)
    ensures ReadFrame(s) == Failed(Fragmented) <==> |s| >= 2 && s[0] < 128
    ensures ReadFrame(s) == Failed(NotMasked) <==> |s| >= 2 && s[0] >= 128 && s[1] < 128
    ensures ReadFrame(s).Failed? ==> ReadFrame(s).error in {Fragmented, NotMasked, Truncated}
  {
    hide Masked, ReadLength;
    if |s| >= 2 {
      ReadsAnnounced(s);
    }
  }

  /** What the server reads, in the bytes of the stream: the opcode is the low half of the first; of
      the announced payload, each bit of byte i is that of the stream's byte, flipped exactly where
      byte i mod 4 of the mask has a one; what follows is left. */
  lemma ReadsTheBytes(s: Bytes, i: nat, k: nat)
    requires IsWhole(s)
    ensures var start := HeaderSize(s[1]);
            var r := ReadFrame(s);
            && r.Read? && r.opcode == s[0] % 16
            && |r.payload| == Announced(s) && r.rest == s[start + 4 + Announced(s)..]
            && (i < |r.payload| ==> (Bit(r.payload[i], k) <==> Bit(s[start + 4 + i], k) != Bit(s[start + i % 4], k)))
  {
    hide Xor, ReadLength, Bit, Announced;
    ReadsAnnounced(s);
    var start := HeaderSize(s[1]);
    var t := s[start..];
    if i < Announced(s) {
      XorBits(t[4..4 + Announced(s)][i], t[..4][i % 4], k);
    }
  }

  // ---------- The client's reader ----------

  /** The client reads a text frame by the same rules, without a mask and whatever the upper halves of
      the two header bytes say; a close frame and any other opcode are errors. */
  lemma ClientReadsTheBytes(s: Bytes)
    ensures ReadServerText(s) == Failed(Closed) <==> |s| >= 2 && s[0] % 16 == 8
    ensures |s| >= 2 && s[0] % 16 != 8 && s[0] % 16 != 1 ==> ReadServerText(s) == Failed(UnexpectedOpcode(s[0] % 16))
    ensures |s| >= 2 && s[0] % 16 == 1 ==>
              var start := HeaderSize(s[1]);
              ReadServerText(s) ==
                if |s| < start || |s| < start + Announced(s) then Failed(Truncated)
                else Read(1, s[start..start + Announced(s)], s[start + Announced(s)..])
    ensures |s| < 2 ==> ReadServerText(s) == Failed(Truncated)
  {
    hide ReadLength, Announced;
    if |s| >= 2 {
      ReadsAnnounced(s);
    }
  }

  // ---------- The writers ----------

  lemma TwoDigits(n: nat)
    requires n < 0x1_0000
    ensures BigEndian(n, 2) == [n / 0x100, n % 0x100]
  {
    assert BigEndian(n / 0x100, 1) == [n / 0x100];
  }

  /** Where each byte of an unmasked frame is. */
  lemma WritesTheBytes(opcode: Opcode, payload: Bytes)
    requires |payload| <= 0xFFFF
    ensures Encode(Frame(opcode, None, payload)) ==
            (if |payload| <= 125 then [0x80 + opcode, |payload|]
             else [0x80 + opcode, 126, |payload| / 0x100, |payload| % 0x100]) + payload
  {
    hide BigEndian;
    TwoDigits(|payload|);
    if |payload| > 125 {
      assert [0 + 126] + BigEndian(|payload|, 2) == [126, |payload| / 0x100, |payload| % 0x100];
    }
  }

  /** A pong, as the server answers a ping of at most 125 bytes. */
  lemma PongBytes(payload: Bytes)
    requires |payload| <= 125
    ensures Pong(payload) == [0x8A, |payload|] + payload
  {
    WritesTheBytes(0xA, payload);
  }

  // ---------- The examples of section 5.7 ----------

  const HELLO: Bytes := [0x48, 0x65, 0x6C, 0x6C, 0x6F]
  const MASK: Mask := [0x37, 0xFA, 0x21, 0x3D]
  const MASKED_HELLO: Bytes := [0x7F, 0x9F, 0x4D, 0x51, 0x58]

  lemma XorHalf(a: nat, b: nat)
    ensures Xor(a, b) == 2 * Xor(a / 2, b / 2) + (if a % 2 != b % 2 then 1 else 0)
  {
  }

  lemma NothingXored()
    ensures Xor(0, 0) == 0
  {
  }

  lemma HXored()
    ensures Xor(0x48, 0x37) == 0x7F
  {
    hide Xor;
    NothingXored();
    XorHalf(0x48, 0x37); XorHalf(0x24, 0x1B); XorHalf(0x12, 0xD); XorHalf(0x9, 0x6);
    XorHalf(0x4, 0x3); XorHalf(0x2, 0x1); XorHalf(0x1, 0x0);
  }

  lemma EXored()
    ensures Xor(0x65, 0xFA) == 0x9F
  {
    hide Xor;
    NothingXored();
    XorHalf(0x65, 0xFA); XorHalf(0x32, 0x7D); XorHalf(0x19, 0x3E); XorHalf(0xC, 0x1F);
    XorHalf(0x6, 0xF); XorHalf(0x3, 0x7); XorHalf(0x1, 0x3); XorHalf(0x0, 0x1);
  }

  lemma FirstLXored()
    ensures Xor(0x6C, 0x21) == 0x4D
  {
    hide Xor;
    NothingXored();
    XorHalf(0x6C, 0x21); XorHalf(0x36, 0x10); XorHalf(0x1B, 0x8); XorHalf(0xD, 0x4);
    XorHalf(0x6, 0x2); XorHalf(0x3, 0x1); XorHalf(0x1, 0x0);
  }

  lemma SecondLXored()
    ensures Xor(0x6C, 0x3D) == 0x51
  {
    hide Xor;
    NothingXored();
    XorHalf(0x6C, 0x3D); XorHalf(0x36, 0x1E); XorHalf(0x1B, 0xF); XorHalf(0xD, 0x7);
    XorHalf(0x6, 0x3); XorHalf(0x3, 0x1); XorHalf(0x1, 0x0);
  }

  lemma OXored()
    ensures Xor(0x6F, 0x37) == 0x58
  {
    hide Xor;
    NothingXored();
    XorHalf(0x6F, 0x37); XorHalf(0x37, 0x1B); XorHalf(0x1B, 0xD); XorHalf(0xD, 0x6);
    XorHalf(0x6, 0x3); XorHalf(0x3, 0x1); XorHalf(0x1, 0x0);
  }

  lemma HelloMasked()
    ensures Masked(HELLO, MASK) == MASKED_HELLO
  {
    hide Xor;
    HXored();
    EXored();
    FirstLXored();
    SecondLXored();
    OXored();
  }

  /** The standard's single-frame text messages, unmasked and masked, its ping and its pong. */
  lemma HelloFrames()
    ensures Encode(Frame(TEXT, None, HELLO)) == [0x81, 0x05] + HELLO
    ensures Encode(Frame(TEXT, Some(MASK), HELLO)) == [0x81, 0x85] + MASK + MASKED_HELLO
    ensures Encode(Frame(PING, None, HELLO)) == [0x89, 0x05] + HELLO
    ensures Encode(Frame(PONG, Some(MASK), HELLO)) == [0x8A, 0x85] + MASK + MASKED_HELLO
  {
    hide Masked;
    HelloMasked();
  }

  /** The server reads the standard's masked messages and refuses its fragmented and unmasked ones. */
  lemma HelloIsRead(rest: Bytes)
    ensures ReadFrame([0x81, 0x85] + MASK + MASKED_HELLO + rest) == Read(TEXT, HELLO, rest)
    ensures ReadFrame([0x8A, 0x85] + MASK + MASKED_HELLO + rest) == Read(PONG, HELLO, rest)
    ensures ReadFrame([0x01, 0x03, 0x48, 0x65, 0x6C] + rest) == Failed(Fragmented)
    ensures ReadFrame([0x81, 0x05] + HELLO + rest) == Failed(NotMasked)
    ensures ReadServerText([0x81, 0x05] + HELLO + rest) == Read(TEXT, HELLO, rest)
  {
    HelloFrames();
    ServerReadsFrame(Frame(TEXT, Some(MASK), HELLO), rest);
    ServerReadsFrame(Frame(PONG, Some(MASK), HELLO), rest);
    ClientReadsFrame(HELLO, rest);
    hide Encode, ReadServerText, ReadLength, Masked;
  }

  /** The standard's frames of 256 bytes and of 64 KiB. */
  lemma LongFrames(short: Bytes, long: Bytes)
    requires |short| == 256 && |long| == 65536
    ensures Encode(Frame(2, None, short)) == [0x82, 0x7E, 0x01, 0x00] + short
    ensures Encode(Frame(2, None, long)) == [0x82, 0x7F, 0, 0, 0, 0, 0, 1, 0, 0] + long
  {
    assert BigEndian(256, 2) == [1, 0] by { TwoDigits(256); }
    assert BigEndian(65536, 8) == [0, 0, 0, 0, 0, 1, 0, 0] by { Digits64K(); }
    hide BigEndian;
  }

  lemma Digits64K()
    ensures BigEndian(65536, 8) == [0, 0, 0, 0, 0, 1, 0, 0]
  {
    assert BigEndian(0, 5) == [0, 0, 0, 0, 0];
    assert BigEndian(1, 6) == [0, 0, 0, 0, 0, 1];
  }

  // ---------- What ends a conversation ----------

  /** Pings and pongs are dealt with whatever follows them: the call goes on with what does, having
      written one equal pong per ping. */
  lemma {:induction false} ChatterIsSkipped(frames: seq<Frame>, s: Bytes, written: Bytes)
    requires IsConversation(frames) && forall i :: 0 <= i < |frames| ==> frames[i].opcode != TEXT
    ensures ReadMessage(EncodeAll(frames) + s, written) == ReadMessage(s, written + PongsFor(frames))
  {
    hide ReadMessage, EncodeAll, PongsFor, Encode;
    FirstThenRest(frames, s, written);
    if frames != [] {
      FirstIsSkipped(frames[0], EncodeAll(frames[1..]) + s, written);
      ChatterIsSkipped(frames[1..], s, written + AnswerTo(frames[0]));
    }
  }

  lemma FirstThenRest(frames: seq<Frame>, s: Bytes, written: Bytes)
    ensures frames == [] ==> EncodeAll(frames) + s == s && written + PongsFor(frames) == written
    ensures frames != [] ==>
              && EncodeAll(frames) + s == Encode(frames[0]) + (EncodeAll(frames[1..]) + s)
              && written + PongsFor(frames) == written + AnswerTo(frames[0]) + PongsFor(frames[1..])
  {
    hide Encode, AnswerTo;
    if frames != [] {
      Regrouped(Encode(frames[0]), EncodeAll(frames[1..]), s);
      Regrouped(written, AnswerTo(frames[0]), PongsFor(frames[1..]));
    }
  }

  lemma Regrouped(a: Bytes, b: Bytes, c: Bytes)
    ensures a + b + c == a + (b + c)
  {
  }

  lemma FirstIsSkipped(f: Frame, s: Bytes, written: Bytes)
    requires Fits(f.payload) && f.mask.Some? && (f.opcode == PING || f.opcode == PONG)
    ensures ReadMessage(Encode(f) + s, written) == ReadMessage(s, written + AnswerTo(f))
  {
    hide ReadFrame, Encode;
    ServerReadsFrame(f, s);
    assert written + [] == written;
  }

  /** After any pings and pongs, a masked close frame ends the call as closed and a frame of another
      opcode as unexpected; the pongs owed so far have been written. */
  lemma StopsAtFrame(frames: seq<Frame>, f: Frame, s: Bytes)
    requires IsConversation(frames) && forall i :: 0 <= i < |frames| ==> frames[i].opcode != TEXT
    requires Fits(f.payload) && f.mask.Some? && f.opcode !in {0x1, 0x9, 0xA}
    ensures ReadMessage(EncodeAll(frames) + (Encode(f) + s), []) ==
            Stopped(if f.opcode == 0x8 then Closed else UnexpectedOpcode(f.opcode), PongsFor(frames))
  {
    hide ReadFrame, Encode, EncodeAll, PongsFor;
    ChatterIsSkipped(frames, Encode(f) + s, []);
    ServerReadsFrame(f, s);
    assert [] + PongsFor(frames) == PongsFor(frames);
  }

  /** A fragmented or an unmasked frame, or a frame cut short, ends it with the reader's error. */
  lemma StopsAtError(frames: seq<Frame>, s: Bytes)
    requires IsConversation(frames) && forall i :: 0 <= i < |frames| ==> frames[i].opcode != TEXT
    requires !IsWhole(s)
    ensures ReadMessage(EncodeAll(frames) + s, []) ==
            Stopped(if |s| >= 2 && s[0] < 128 then Fragmented
                    else if |s| >= 2 && s[1] < 128 then NotMasked else Truncated,
                    PongsFor(frames))
  {
    hide ReadFrame, Encode, EncodeAll, PongsFor, IsWhole;
    ChatterIsSkipped(frames, s, []);
    ReadsOrFails(s);
    assert [] + PongsFor(frames) == PongsFor(frames);
  }
}
