/** WebSocket frames (server/main.go; sections 5.2, 5.3, 5.5 and 5.6 of RFC 6455).

    A client's frames are masked, the server's are not, and no message is fragmented. The reader is
    proved to accept exactly the shortest masked encodings of the frames it permits. */
module WebSocket {
  import opened Utf8

  const MAX_MESSAGE := 65536
  const LENGTH_LIMIT := 0x8000_0000_0000_0000

  datatype Frame = Frame(opcode: Byte, data: seq<Byte>)

  // ----- exclusive or, bit by bit -----------------------------------------------------

  function Xor(a: nat, b: nat): nat
    decreases a + b
  {
    if a == 0 && b == 0 then 0 else 2 * Xor(a / 2, b / 2) + (a + b) % 2
  }

  lemma {:induction false} XorBelow(a: nat, b: nat, limit: nat)
    requires a < Pow2(limit) && b < Pow2(limit)
    ensures Xor(a, b) < Pow2(limit)
  {
    if a != 0 || b != 0 {
      XorBelow(a / 2, b / 2, limit - 1);
    }
  }

  function Pow2(n: nat): nat {
    if n == 0 then 1 else 2 * Pow2(n - 1)
  }

  lemma XorHalves(a: nat, b: nat)
    ensures Xor(a, b) / 2 == Xor(a / 2, b / 2) && Xor(a, b) % 2 == (a + b) % 2
  {
  }

  lemma {:induction false} XorTwice(a: nat, b: nat)
    ensures Xor(Xor(a, b), b) == a
    decreases a + b
  {
    if a == 0 && b == 0 {
    } else {
      hide Xor;
      XorTwice(a / 2, b / 2);
      XorHalves(a, b);
      XorHalves(Xor(a, b), b);
      Parity(a, b, Xor(a, b));
      SameHalves(Xor(Xor(a, b), b), a);
    }
  }

  lemma Parity(a: nat, b: nat, x: nat)
    requires x % 2 == (a + b) % 2
    ensures (x + b) % 2 == a % 2
  {
  }

  lemma SameHalves(a: nat, b: nat)
    requires a / 2 == b / 2 && a % 2 == b % 2
    ensures a == b
  {
  }

  function XorBytes(a: Byte, b: Byte): Byte {
    assert Pow2(8) == 256;
    XorBelow(a, b, 8);
    Xor(a, b)
  }

  /** Masking and unmasking are the same. */
  function Masked(mask: seq<Byte>, data: seq<Byte>): seq<Byte>
    requires |mask| == 4
  {
    seq(|data|, i requires 0 <= i < |data| => XorBytes(data[i], mask[i % 4]))
  }

  lemma MaskedTwice(mask: seq<Byte>, data: seq<Byte>)
    requires |mask| == 4
    ensures Masked(mask, Masked(mask, data)) == data
  {
    forall i | 0 <= i < |data|
      ensures Masked(mask, Masked(mask, data))[i] == data[i]
    {
      XorTwice(data[i], mask[i % 4]);
    }
  }

  // ----- numbers, high byte first -----------------------------------------------------

  function Value(bytes: seq<Byte>): nat {
    if bytes == [] then 0 else 256 * Value(bytes[..|bytes| - 1]) + bytes[|bytes| - 1]
  }

  function Bytes(n: nat, size: nat): (r: seq<Byte>)
    ensures |r| == size
  {
    if size == 0 then [] else Bytes(n / 256, size - 1) + [n % 256]
  }

  function Pow256(n: nat): nat {
    if n == 0 then 1 else 256 * Pow256(n - 1)
  }

  lemma {:induction false} BytesHaveValue(n: nat, size: nat)
    requires n < Pow256(size)
    ensures Value(Bytes(n, size)) == n
  {
    if size > 0 {
      BytesHaveValue(n / 256, size - 1);
      assert Bytes(n, size)[..size - 1] == Bytes(n / 256, size - 1);
    }
  }

  lemma {:induction false} ValueHasBytes(bytes: seq<Byte>)
    ensures Bytes(Value(bytes), |bytes|) == bytes
    ensures Value(bytes) < Pow256(|bytes|)
  {
    if bytes != [] {
      ValueHasBytes(bytes[..|bytes| - 1]);
    }
  }

  // ----- reading ----------------------------------------------------------------------

  datatype ReadError = Ended | Malformed | TooLarge

  /** rest is what stays unread. */
  datatype Outcome = Got(frame: Frame, rest: seq<Byte>) | NotGot(error: ReadError, rest: seq<Byte>)

  datatype LengthOutcome = Length(n: nat, rest: seq<Byte>) | NoLength(error: ReadError, rest: seq<Byte>)

  function ReadLength(short: nat, input: seq<Byte>): LengthOutcome {
    if short == 126 then
      if |input| < 2 then NoLength(Ended, [])
      else if Value(input[..2]) < 126 then NoLength(Malformed, input[2..])
      else Length(Value(input[..2]), input[2..])
    else if short == 127 then
      if |input| < 8 then NoLength(Ended, [])
      else if Value(input[..8]) < 65536 || Value(input[..8]) >= LENGTH_LIMIT
      then NoLength(Malformed, input[8..])
      else Length(Value(input[..8]), input[8..])
    else Length(short, input)
  }

  predicate KnownOpcode(opcode: Byte) {
    opcode == 1 || opcode == 8 || opcode == 9 || opcode == 10
  }

  predicate PayloadOk(opcode: Byte, data: seq<Byte>) {
    && (opcode == 1 ==> Utf8Valid(data))
    && (opcode == 8 ==> |data| != 1 && (|data| >= 2 ==> Utf8Valid(data[2..])))
  }

  function ReadPayload(opcode: Byte, n: nat, input: seq<Byte>): Outcome {
    if |input| < 4 then NotGot(Ended, [])
    else
      var body := input[4..];
      if |body| < n then NotGot(Ended, [])
      else
        var data := Masked(input[..4], body[..n]);
        if PayloadOk(opcode, data) then Got(Frame(opcode, data), body[n..]) else NotGot(Malformed, body[n..])
  }

  function ReadFrame(input: seq<Byte>): Outcome {
    if |input| < 2 then NotGot(Ended, [])
    else
      var opcode := input[0] % 16;
      if input[0] < 128 || input[0] / 16 % 8 != 0 || input[1] < 128 || !KnownOpcode(opcode)
      then NotGot(Malformed, input[2..])
      else
        match ReadLength(input[1] % 128, input[2..])
        case NoLength(error, rest) => NotGot(error, rest)
        case Length(n, rest) =>
          if n > MAX_MESSAGE then NotGot(TooLarge, rest)
          else if opcode >= 8 && n > 125 then NotGot(Malformed, rest)
          else ReadPayload(opcode, n, rest)
  }

  // ----- what reading accepts ---------------------------------------------------------

  predicate Permitted(f: Frame) {
    && KnownOpcode(f.opcode) && |f.data| <= MAX_MESSAGE
    && (f.opcode >= 8 ==> |f.data| <= 125)
    && PayloadOk(f.opcode, f.data)
  }

  /** The shortest form of a length, with the masking bit. */
  function MaskedLength(n: nat): seq<Byte> {
    if n < 126 then [128 + n]
    else if n < 65536 then [128 + 126] + Bytes(n, 2)
    else [128 + 127] + Bytes(n, 8)
  }

  function Encode(f: Frame, mask: seq<Byte>): seq<Byte>
    requires f.opcode < 128 && |mask| == 4
  {
    [128 + f.opcode] + MaskedLength(|f.data|) + mask + Masked(mask, f.data)
  }

  lemma LengthReads(n: nat, rest: seq<Byte>)
    requires n < LENGTH_LIMIT
    ensures var b := MaskedLength(n) + rest;
            b[0] >= 128 && ReadLength(b[0] % 128, b[1..]) == Length(n, rest)
  {
    hide Bytes, Value, Pow256;
    var b := MaskedLength(n) + rest;
    LengthsFit();
    if n < 126 {
      assert b[1..] == rest;
    } else if n < 65536 {
      BytesHaveValue(n, 2);
      assert b[1..][..2] == Bytes(n, 2) && b[1..][2..] == rest;
    } else {
      BytesHaveValue(n, 8);
      assert b[1..][..8] == Bytes(n, 8) && b[1..][8..] == rest;
    }
  }

  lemma LengthsFit()
    ensures Pow256(2) == 65536 && Pow256(8) > LENGTH_LIMIT
  {
    assert Pow256(2) == 65536;
    assert Pow256(4) == 65536 * Pow256(2) && Pow256(6) == 65536 * Pow256(4) && Pow256(8) == 65536 * Pow256(6);
  }

  /** Every masked encoding of a permitted frame is read back, whatever follows it. */
  lemma EncodingReads(f: Frame, mask: seq<Byte>, rest: seq<Byte>)
    requires Permitted(f) && |mask| == 4
    ensures ReadFrame(Encode(f, mask) + rest) == Got(f, rest)
  {
    hide Masked, PayloadOk, ReadLength, MaskedLength;
    var body := mask + Masked(mask, f.data) + rest;
    var b := Encode(f, mask) + rest;
    LengthReads(|f.data|, body);
    EncodeSplits(f, mask, rest);
    MaskedTwice(mask, f.data);
    PayloadReads(f, mask, rest);
  }

  lemma EncodeSplits(f: Frame, mask: seq<Byte>, rest: seq<Byte>)
    requires f.opcode < 128 && |mask| == 4
    ensures var b := Encode(f, mask) + rest;
            var tail := MaskedLength(|f.data|) + (mask + Masked(mask, f.data) + rest);
            |b| >= 2 && b[0] == 128 + f.opcode && b[1] == tail[0] && b[2..] == tail[1..]
  {
    hide Masked;
    var b := Encode(f, mask) + rest;
    var tail := MaskedLength(|f.data|) + (mask + Masked(mask, f.data) + rest);
    assert b == [128 + f.opcode] + tail;
  }

  lemma PayloadReads(f: Frame, mask: seq<Byte>, rest: seq<Byte>)
    requires PayloadOk(f.opcode, f.data) && |mask| == 4
    ensures ReadPayload(f.opcode, |f.data|, mask + Masked(mask, f.data) + rest) == Got(f, rest)
  {
    hide Masked, PayloadOk;
    var input := mask + Masked(mask, f.data) + rest;
    MaskedLengthSame(mask, f.data);
    assert input[..4] == mask && input[4..] == Masked(mask, f.data) + rest;
    assert input[4..][..|f.data|] == Masked(mask, f.data) && input[4..][|f.data|..] == rest;
    MaskedTwice(mask, f.data);
  }

  lemma MaskedLengthSame(mask: seq<Byte>, data: seq<Byte>)
    requires |mask| == 4
    ensures |Masked(mask, data)| == |data|
  {
  }

  /** The mask in an accepted frame. */
  function MaskOf(input: seq<Byte>): seq<Byte>
    requires ReadFrame(input).Got?
  {
    var r := ReadLength(input[1] % 128, input[2..]);
    r.rest[..4]
  }

  lemma LengthIsShortest(b: Byte, input: seq<Byte>)
    requires b >= 128 && ReadLength(b % 128, input).Length?
    ensures var r := ReadLength(b % 128, input);
            [b] + input == MaskedLength(r.n) + r.rest
  {
    var r := ReadLength(b % 128, input);
    if b % 128 == 126 {
      ValueHasBytes(input[..2]);
      assert Pow256(2) == 65536;
      assert [b] + input == [b] + input[..2] + input[2..];
    } else if b % 128 == 127 {
      ValueHasBytes(input[..8]);
      assert [b] + input == [b] + input[..8] + input[8..];
    } else {
    }
  }

  lemma PayloadIsMasked(opcode: Byte, n: nat, input: seq<Byte>)
    requires ReadPayload(opcode, n, input).Got?
    ensures var r := ReadPayload(opcode, n, input);
            && r.frame.opcode == opcode && |r.frame.data| == n && PayloadOk(opcode, r.frame.data)
            && |input| >= 4 && input == input[..4] + Masked(input[..4], r.frame.data) + r.rest
  {
    hide Masked, PayloadOk;
    var mask, body := input[..4], input[4..];
    MaskedLengthSame(mask, body[..n]);
    MaskedTwice(mask, body[..n]);
    assert input == mask + body[..n] + body[n..];
  }

  /** Whatever is read is a permitted frame, and the bytes read are its shortest encoding under the
      mask they carry. */
  lemma ReadIsEncoding(input: seq<Byte>)
    requires ReadFrame(input).Got?
    ensures var r := ReadFrame(input);
            Permitted(r.frame) && |MaskOf(input)| == 4 && input == Encode(r.frame, MaskOf(input)) + r.rest
  {
    hide Masked, PayloadOk, ReadLength, ReadPayload, MaskedLength, Encode;
    var l := ReadLength(input[1] % 128, input[2..]);
    var r := ReadFrame(input);
    LengthIsShortest(input[1], input[2..]);
    PayloadIsMasked(input[0] % 16, l.n, l.rest);
    EncodeIs(r.frame, l.rest[..4]);
    assert input == [input[0]] + ([input[1]] + input[2..]);
  }

  lemma EncodeIs(f: Frame, mask: seq<Byte>)
    requires f.opcode < 128 && |mask| == 4
    ensures Encode(f, mask) == [128 + f.opcode] + (MaskedLength(|f.data|) + (mask + Masked(mask, f.data)))
  {
  }

  /** The beginning of a masked frame of this opcode that announces n bytes in the shortest form. */
  ghost predicate Announces(input: seq<Byte>, opcode: Byte, n: nat, rest: seq<Byte>) {
    KnownOpcode(opcode) && input == [128 + opcode] + (MaskedLength(n) + rest)
  }

  /** A frame is too large exactly when a well-formed beginning announces more than the limit, and
      nothing of what follows is looked at. */
  lemma TooLargeIff(input: seq<Byte>, rest: seq<Byte>)
    ensures ReadFrame(input) == NotGot(TooLarge, rest)
       <==> exists opcode, n :: MAX_MESSAGE < n < LENGTH_LIMIT && Announces(input, opcode, n, rest)
  {
    hide ReadLength, ReadPayload, MaskedLength;
    if ReadFrame(input) == NotGot(TooLarge, rest) {
      OnlyFramesAreTooLarge(input);
      var l := ReadLength(input[1] % 128, input[2..]);
      LengthInRange(input[1] % 128, input[2..]);
      LengthIsShortest(input[1], input[2..]);
      assert input == [input[0]] + ([input[1]] + input[2..]);
      assert Announces(input, input[0] % 16, l.n, rest);
    }
    if opcode, n :| MAX_MESSAGE < n < LENGTH_LIMIT && Announces(input, opcode, n, rest) {
      LengthReads(n, rest);
      var tail := MaskedLength(n) + rest;
      SomeLength(n);
      assert input[1..] == tail && input[2..] == tail[1..];
    }
  }

  lemma OnlyFramesAreTooLarge(input: seq<Byte>)
    ensures |input| >= 2 ==>
              var l := ReadLength(input[1] % 128, input[2..]);
              && (l.NoLength? ==> l.error != TooLarge)
              && (l.Length? ==>
                    var r := ReadPayload(input[0] % 16, l.n, l.rest);
                    r.NotGot? ==> r.error != TooLarge)
  {
    hide Masked, PayloadOk, Value;
  }

  lemma SomeLength(n: nat)
    ensures |MaskedLength(n)| > 0
  {
  }

  lemma LengthInRange(short: nat, input: seq<Byte>)
    requires short < 128 && ReadLength(short, input).Length?
    ensures ReadLength(short, input).n < LENGTH_LIMIT
  {
    hide Value;
    if short == 126 {
      ValueHasBytes(input[..2]);
      LengthsFit();
    }
  }

  ghost predicate IsEncoding(bytes: seq<Byte>, f: Frame) {
    exists mask: seq<Byte> :: |mask| == 4 && f.opcode < 128 && bytes == Encode(f, mask)
  }

  /** Reading a whole byte string succeeds exactly on the encodings of permitted frames. */
  lemma ReadingIsCanonical(bytes: seq<Byte>, f: Frame)
    ensures ReadFrame(bytes) == Got(f, []) <==> Permitted(f) && IsEncoding(bytes, f)
  {
    hide ReadFrame, Encode, PayloadOk;
    if ReadFrame(bytes) == Got(f, []) {
      ReadIsEncoding(bytes);
      assert bytes == Encode(f, MaskOf(bytes)) + [];
      assert bytes == Encode(f, MaskOf(bytes));
    }
    if Permitted(f) && IsEncoding(bytes, f) {
      var mask :| |mask| == 4 && f.opcode < 128 && bytes == Encode(f, mask);
      EncodingReads(f, mask, []);
      assert bytes + [] == bytes;
    }
  }

  // ----- streams ----------------------------------------------------------------------

  function More(o: Outcome, more: seq<Byte>): Outcome {
    o.(rest := o.rest + more)
  }

  lemma LengthWithMore(short: nat, input: seq<Byte>, more: seq<Byte>)
    ensures var r := ReadLength(short, input);
            r == NoLength(Ended, []) || ReadLength(short, input + more) == r.(rest := r.rest + more)
  {
    if short == 126 && |input| >= 2 {
      assert (input + more)[..2] == input[..2] && (input + more)[2..] == input[2..] + more;
    } else if short == 127 && |input| >= 8 {
      assert (input + more)[..8] == input[..8] && (input + more)[8..] == input[8..] + more;
    }
  }

  lemma PayloadWithMore(opcode: Byte, n: nat, input: seq<Byte>, more: seq<Byte>)
    ensures var r := ReadPayload(opcode, n, input);
            r == NotGot(Ended, []) || ReadPayload(opcode, n, input + more) == More(r, more)
  {
    hide Masked, PayloadOk;
    if |input| >= 4 && |input| - 4 >= n {
      assert (input + more)[..4] == input[..4] && (input + more)[4..] == input[4..] + more;
      assert (input[4..] + more)[..n] == input[4..][..n] && (input[4..] + more)[n..] == input[4..][n..] + more;
    }
  }

  /** A verdict other than a want of bytes stands whatever bytes come later. */
  lemma VerdictStands(input: seq<Byte>, more: seq<Byte>)
    ensures ReadFrame(input) == NotGot(Ended, []) || ReadFrame(input + more) == More(ReadFrame(input), more)
  {
    hide ReadLength, ReadPayload;
    if |input| >= 2 {
      assert (input + more)[2..] == input[2..] + more;
      LengthWithMore(input[1] % 128, input[2..], more);
      var l := ReadLength(input[1] % 128, input[2..]);
      if l.Length? {
        PayloadWithMore(input[0] % 16, l.n, l.rest, more);
      }
    }
  }

  /** A frame that has not arrived whole is neither read nor refused. */
  lemma PartOfAFrameWaits(f: Frame, mask: seq<Byte>, k: nat)
    requires Permitted(f) && |mask| == 4 && k < |Encode(f, mask)|
    ensures ReadFrame(Encode(f, mask)[..k]) == NotGot(Ended, [])
  {
    hide ReadFrame, Encode, PayloadOk;
    var whole := Encode(f, mask);
    assert whole + [] == whole && whole[..k] + whole[k..] == whole;
    EncodingReads(f, mask, []);
    VerdictStands(whole[..k], whole[k..]);
  }

  /** The frames read one after another, up to the first failure. */
  function ReadAll(input: seq<Byte>): seq<Frame>
    decreases |input|
  {
    if ReadFrame(input).Got? then
      ReadShortens(input);
      [ReadFrame(input).frame] + ReadAll(ReadFrame(input).rest)
    else []
  }

  lemma ReadShortens(input: seq<Byte>)
    requires ReadFrame(input).Got?
    ensures |ReadFrame(input).rest| < |input|
  {
    hide ReadFrame;
    ReadIsEncoding(input);
    assert |Encode(ReadFrame(input).frame, MaskOf(input))| > 0;
  }

  function EncodeAll(frames: seq<Frame>, masks: seq<seq<Byte>>): seq<Byte>
    requires |masks| == |frames|
    requires forall i :: 0 <= i < |frames| ==> Permitted(frames[i]) && |masks[i]| == 4
  {
    if frames == [] then []
    else
      assert Permitted(frames[0]);
      Encode(frames[0], masks[0]) + EncodeAll(frames[1..], masks[1..])
  }

  lemma {:induction false} StreamReads(frames: seq<Frame>, masks: seq<seq<Byte>>, rest: seq<Byte>)
    requires |masks| == |frames|
    requires forall i :: 0 <= i < |frames| ==> Permitted(frames[i]) && |masks[i]| == 4
    ensures ReadAll(EncodeAll(frames, masks) + rest) == frames + ReadAll(rest)
  {
    hide ReadFrame, Encode, PayloadOk;
    if frames == [] {
      assert EncodeAll(frames, masks) + rest == rest;
    } else {
      assert Permitted(frames[0]);
      var tail := EncodeAll(frames[1..], masks[1..]) + rest;
      assert EncodeAll(frames, masks) + rest == Encode(frames[0], masks[0]) + tail;
      EncodingReads(frames[0], masks[0], tail);
      StreamReads(frames[1..], masks[1..], rest);
    }
  }

  // ----- writing ----------------------------------------------------------------------

  datatype Written = Sent(bytes: seq<Byte>) | Unsent

  /** The writer narrows the length to sixteen bits. */
  function WriteFrame(f: Frame): Written {
    if |f.data| > MAX_MESSAGE then Unsent
    else
      var first := if f.opcode < 128 then 128 + f.opcode else f.opcode;
      var length := if |f.data| < 126 then [|f.data|] else [126] + Bytes(|f.data| % 65536, 2);
      Sent([first] + length + f.data)
  }

  /** What a client would have sent in place of a server's frame: masked, and marked so. */
  function MaskFrame(bytes: seq<Byte>, mask: seq<Byte>): seq<Byte>
    requires |mask| == 4 && |bytes| >= 2 && bytes[1] <= 126 && (bytes[1] == 126 ==> |bytes| >= 4)
  {
    var header := if bytes[1] == 126 then 4 else 2;
    [bytes[0], 128 + bytes[1]] + bytes[2..header] + mask + Masked(mask, bytes[header..])
  }

  /** What is written, once masked, reads back, except at the very limit. */
  lemma WrittenReadsBack(f: Frame, mask: seq<Byte>)
    requires Permitted(f) && |mask| == 4
    ensures WriteFrame(f).Sent?
    ensures var b := WriteFrame(f).bytes;
            |b| >= 2 && b[1] <= 126 && (b[1] == 126 ==> |b| >= 4)
    ensures ReadFrame(MaskFrame(WriteFrame(f).bytes, mask)) == Got(f, []) <==> |f.data| < MAX_MESSAGE
  {
    hide Masked, PayloadOk, ReadFrame;
    var b := WriteFrame(f).bytes;
    if |f.data| < MAX_MESSAGE {
      WrittenIsEncoding(f, mask);
      EncodingReads(f, mask, []);
      assert Encode(f, mask) + [] == Encode(f, mask);
    } else {
      LengthLost(f, mask);
    }
  }

  lemma WrittenIsEncoding(f: Frame, mask: seq<Byte>)
    requires Permitted(f) && |mask| == 4 && |f.data| < MAX_MESSAGE
    ensures var b := WriteFrame(f).bytes;
            && |b| >= 2 && b[1] <= 126 && (b[1] == 126 ==> |b| >= 4)
            && MaskFrame(b, mask) == Encode(f, mask)
  {
    hide Masked, PayloadOk, Bytes, MaskFrame;
    EncodeIs(f, mask);
    if |f.data| < 126 {
      assert WriteFrame(f).bytes == [128 + f.opcode, |f.data|] + f.data;
      MasksShort(128 + f.opcode, |f.data|, f.data, mask);
    } else {
      assert WriteFrame(f).bytes == [128 + f.opcode, 126] + Bytes(|f.data|, 2) + f.data;
      MasksLong(128 + f.opcode, Bytes(|f.data|, 2), f.data, mask);
    }
  }

  lemma MasksShort(first: Byte, length: Byte, data: seq<Byte>, mask: seq<Byte>)
    requires length < 126 && |mask| == 4
    ensures MaskFrame([first, length] + data, mask) == [first] + ([128 + length] + (mask + Masked(mask, data)))
  {
    hide Masked;
    var b := [first, length] + data;
    assert b[2..2] == [] && b[2..] == data;
  }

  lemma MasksLong(first: Byte, extended: seq<Byte>, data: seq<Byte>, mask: seq<Byte>)
    requires |extended| == 2 && |mask| == 4
    ensures MaskFrame([first, 126] + extended + data, mask)
         == [first] + ([128 + 126] + extended + (mask + Masked(mask, data)))
  {
    hide Masked;
    var b := [first, 126] + extended + data;
    assert b[2..4] == extended && b[4..] == data;
  }

  /** 65536 bytes are announced as none at all. */
  lemma LengthLost(f: Frame, mask: seq<Byte>)
    requires Permitted(f) && |mask| == 4 && |f.data| == MAX_MESSAGE
    ensures var b := WriteFrame(f).bytes;
            && |b| >= 4 && b[1] == 126
            && ReadFrame(MaskFrame(b, mask)).NotGot? && ReadFrame(MaskFrame(b, mask)).error == Malformed
  {
    hide Masked, PayloadOk, ReadPayload, Bytes, Value;
    var b := WriteFrame(f).bytes;
    var m := MaskFrame(b, mask);
    assert b[2..4] == Bytes(0, 2);
    assert m[2..][..2] == b[2..4];
    assert Pow256(2) == 65536;
    BytesHaveValue(0, 2);
  }

  /** There is such a frame: a text of 65536 letters may be sent, and is not read back. */
  lemma LongestTextIsLost(mask: seq<Byte>)
    requires |mask| == 4
    ensures var f := Frame(1, seq(MAX_MESSAGE, _ => 97));
            && Permitted(f) && WriteFrame(f).Sent? && |WriteFrame(f).bytes| >= 4 && WriteFrame(f).bytes[1] == 126
            && ReadFrame(MaskFrame(WriteFrame(f).bytes, mask)).NotGot?
  {
    hide Utf8Valid, ReadFrame, MaskFrame;
    var f := Frame(1, seq(MAX_MESSAGE, _ => 97));
    AsciiIsValid(f.data);
    LengthLost(f, mask);
  }

  // ----- why a connection was closed --------------------------------------------------

  const REASON_LIMIT := 123

  /** The longest well-formed prefix that is no longer than a limit. */
  function ValidPrefix(reason: seq<Byte>, limit: nat): (r: seq<Byte>)
    requires limit <= |reason|
    ensures r <= reason && |r| <= limit && Utf8Valid(r)
    ensures forall k :: |r| < k <= limit ==> !Utf8Valid(reason[..k])
  {
    if Utf8Valid(reason[..limit]) then reason[..limit] else ValidPrefix(reason, limit - 1)
  }

  function TruncateCloseReason(reason: seq<Byte>): seq<Byte> {
    if |reason| <= REASON_LIMIT then reason else ValidPrefix(reason, REASON_LIMIT)
  }

  /** The cut keeps a well-formed reason well formed and loses at most three bytes to that. */
  lemma TruncationLosesLittle(reason: seq<Byte>)
    requires Utf8Valid(reason)
    ensures var r := TruncateCloseReason(reason);
            && Utf8Valid(r) && r <= reason && |r| <= REASON_LIMIT
            && (|reason| <= REASON_LIMIT ==> r == reason)
            && (|reason| > REASON_LIMIT ==> |r| >= REASON_LIMIT - 3)
  {
    hide Utf8Valid;
    if |reason| > REASON_LIMIT {
      CutNearby(reason, REASON_LIMIT);
    }
  }

  function CloseFrame(code: nat, reason: seq<Byte>): Frame
    requires code < 65536
  {
    Frame(8, Bytes(code, 2) + TruncateCloseReason(reason))
  }

  /** A close frame is one that may be sent, unless a short reason is not well formed. */
  lemma CloseFrameIsPermitted(code: nat, reason: seq<Byte>)
    requires code < 65536
    ensures Permitted(CloseFrame(code, reason)) <==> Utf8Valid(reason) || |reason| > REASON_LIMIT
  {
    hide Utf8Valid;
    var f := CloseFrame(code, reason);
    assert f.data[2..] == TruncateCloseReason(reason);
    if Utf8Valid(reason) {
      TruncationLosesLittle(reason);
    }
  }

  /** It carries the code in its first two bytes, high byte first, and then as much of the reason as
      fits. */
  lemma CloseFrameCarries(code: nat, reason: seq<Byte>)
    requires code < 65536
    ensures var f := CloseFrame(code, reason);
            && f.opcode == 8 && |f.data| >= 2 && f.data[0] == code / 256 && f.data[1] == code % 256
            && Value(f.data[..2]) == code && f.data[2..] == TruncateCloseReason(reason)
  {
    hide Utf8Valid, TruncateCloseReason;
    var f := CloseFrame(code, reason);
    assert Pow256(1) == 256 && Pow256(2) == 65536;
    assert f.data[..2] == Bytes(code, 2);
    BytesHaveValue(code, 2);
    assert Bytes(code, 2) == Bytes(code / 256, 1) + [code % 256];
    assert Bytes(code / 256, 1) == Bytes(code / 256 / 256, 0) + [code / 256 % 256];
  }

  // ----- the standard's own vectors ---------------------------------------------------

  const HELLO: seq<Byte> := [0x48, 0x65, 0x6c, 0x6c, 0x6f]

  /** Section 5.7 of RFC 6455: a masked text message "Hello", and an unmasked one. */
  lemma HelloVectors()
    ensures ReadFrame([0x81, 0x85, 0x37, 0xfa, 0x21, 0x3d, 0x7f, 0x9f, 0x4d, 0x51, 0x58]) == Got(Frame(1, HELLO), [])
    ensures WriteFrame(Frame(1, HELLO)) == Sent([0x81, 0x05, 0x48, 0x65, 0x6c, 0x6c, 0x6f])
  {
    hide ReadFrame, Masked, Utf8Valid, XorBytes;
    var mask := [0x37, 0xfa, 0x21, 0x3d];
    AsciiIsValid(HELLO);
    HelloMasked();
    MaskedIs(mask, HELLO);
    var f := Frame(1, HELLO);
    EncodingReads(f, mask, []);
    EncodeIs(f, mask);
    assert Encode(f, mask) + [] == [0x81, 0x85, 0x37, 0xfa, 0x21, 0x3d, 0x7f, 0x9f, 0x4d, 0x51, 0x58];
  }

  lemma MaskedIs(mask: seq<Byte>, data: seq<Byte>)
    requires |mask| == 4 && |data| == 5
    ensures Masked(mask, data)
         == [XorBytes(data[0], mask[0]), XorBytes(data[1], mask[1]), XorBytes(data[2], mask[2]),
             XorBytes(data[3], mask[3]), XorBytes(data[4], mask[0])]
  {
    hide XorBytes;
  }

  lemma OneBit(a: nat, b: nat, p: nat, q: nat)
    requires p < 2 && q < 2
    ensures Xor(2 * a + p, 2 * b + q) == 2 * Xor(a, b) + if p == q then 0 else 1
    ensures Xor(0, 0) == 0
  {
    hide Xor;
    XorOfNone();
    XorHalves(2 * a + p, 2 * b + q);
    BitOfSum(a, p, b, q);
  }

  lemma XorOfNone()
    ensures Xor(0, 0) == 0
  {
  }

  lemma BitOfSum(a: nat, p: nat, b: nat, q: nat)
    requires p < 2 && q < 2
    ensures (2 * a + p) / 2 == a && (2 * b + q) / 2 == b
    ensures (2 * a + p + (2 * b + q)) % 2 == if p == q then 0 else 1
  {
    var carry := if p + q == 2 then 1 else 0;
    assert 2 * a + p + (2 * b + q) == 2 * (a + b + carry) + (p + q - 2 * carry);
  }

  lemma FirstMasked()
    ensures Xor(0x48, 0x37) == 0x7f
  {
    hide Xor;
    OneBit(0, 0, 1, 0);
    OneBit(1, 0, 0, 1);
    OneBit(2, 1, 0, 1);
    OneBit(4, 3, 1, 0);
    OneBit(9, 6, 0, 1);
    OneBit(18, 13, 0, 1);
    OneBit(36, 27, 0, 1);
  }

  lemma SecondMasked()
    ensures Xor(0x65, 0xfa) == 0x9f
  {
    hide Xor;
    OneBit(0, 0, 0, 1);
    OneBit(0, 1, 1, 1);
    OneBit(1, 3, 1, 1);
    OneBit(3, 7, 0, 1);
    OneBit(6, 15, 0, 1);
    OneBit(12, 31, 1, 0);
    OneBit(25, 62, 0, 1);
    OneBit(50, 125, 1, 0);
  }

  lemma ThirdMasked()
    ensures Xor(0x6c, 0x21) == 0x4d
  {
    hide Xor;
    OneBit(0, 0, 1, 0);
    OneBit(1, 0, 1, 1);
    OneBit(3, 1, 0, 0);
    OneBit(6, 2, 1, 0);
    OneBit(13, 4, 1, 0);
    OneBit(27, 8, 0, 0);
    OneBit(54, 16, 0, 1);
  }

  lemma FourthMasked()
    ensures Xor(0x6c, 0x3d) == 0x51
  {
    hide Xor;
    OneBit(0, 0, 1, 0);
    OneBit(1, 0, 1, 1);
    OneBit(3, 1, 0, 1);
    OneBit(6, 3, 1, 1);
    OneBit(13, 7, 1, 1);
    OneBit(27, 15, 0, 0);
    OneBit(54, 30, 0, 1);
  }

  lemma FifthMasked()
    ensures Xor(0x6f, 0x37) == 0x58
  {
    hide Xor;
    OneBit(0, 0, 1, 0);
    OneBit(1, 0, 1, 1);
    OneBit(3, 1, 0, 1);
    OneBit(6, 3, 1, 0);
    OneBit(13, 6, 1, 1);
    OneBit(27, 13, 1, 1);
    OneBit(55, 27, 1, 1);
  }

  lemma HelloMasked()
    ensures XorBytes(0x48, 0x37) == 0x7f && XorBytes(0x65, 0xfa) == 0x9f && XorBytes(0x6c, 0x21) == 0x4d
    ensures XorBytes(0x6c, 0x3d) == 0x51 && XorBytes(0x6f, 0x37) == 0x58
  {
    hide Xor;
    FirstMasked();
    SecondMasked();
    ThirdMasked();
    FourthMasked();
    FifthMasked();
  }

  /** Lengths are read high byte first: 256 bytes are announced by 1 and 0. */
  lemma LongLengthVector(rest: seq<Byte>)
    ensures ReadLength(126, [1, 0] + rest) == Length(256, rest)
    ensures ReadLength(127, [0, 0, 0, 0, 0, 1, 0, 0] + rest) == Length(65536, rest)
  {
    assert ([1, 0] + rest)[..2] == [1, 0] && ([1, 0] + rest)[2..] == rest;
    var long := [0, 0, 0, 0, 0, 1, 0, 0];
    assert (long + rest)[..8] == long && (long + rest)[8..] == rest;
    TwoBytes(1, 0);
    EightBytes();
  }

  lemma TwoBytes(a: Byte, b: Byte)
    ensures Value([a, b]) == 256 * a + b
  {
    assert Value([a]) == 256 * Value([]) + a;
    assert [a, b][..1] == [a];
  }

  lemma EightBytes()
    ensures Value([0, 0, 0, 0, 0, 1, 0, 0]) == 65536
  {
    hide Value;
    var zeros := seq(5, _ => 0);
    LeadingZeros(5);
    OneByteMore(zeros, 1);
    OneByteMore(zeros + [1], 0);
    OneByteMore(zeros + [1] + [0], 0);
    assert zeros + [1] + [0] + [0] == [0, 0, 0, 0, 0, 1, 0, 0];
  }

  lemma OneByteMore(bytes: seq<Byte>, b: Byte)
    ensures Value(bytes + [b]) == 256 * Value(bytes) + b
  {
    assert (bytes + [b])[..|bytes|] == bytes;
  }

  lemma {:induction false} LeadingZeros(n: nat)
    ensures Value(seq(n, _ => 0)) == 0
  {
    if n > 0 {
      LeadingZeros(n - 1);
      assert seq(n, _ => 0)[..n - 1] == seq(n - 1, _ => 0);
    }
  }

  // ----- the socket -------------------------------------------------------------------

  /** input has yet to be read from the connection; output has been written to it. */
  class WsSocket {
    var input: seq<Byte>
    var output: seq<Byte>

    constructor (input: seq<Byte>)
      ensures this.input == input && output == []
    {
      this.input, output := input, [];
    }

    /** Fills a buffer of n bytes; with fewer left, takes them all and fails. */
    method ReadFull(n: nat) returns (ok: bool, bytes: seq<Byte>)
      modifies this`input
      ensures ok <==> |old(input)| >= n
      ensures ok ==> bytes == old(input)[..n] && input == old(input)[n..]
      ensures !ok ==> input == []
    {
      if |input| < n {
        input := [];
        return false, [];
      }
      bytes := input[..n];
      input := input[n..];
      return true, bytes;
    }

    method ReadLengthField(short: nat) returns (r: LengthOutcome)
      modifies this`input
      ensures r == ReadLength(short, old(input)) && input == r.rest
    {
      if short == 126 {
        var ok, extended := ReadFull(2);
        if !ok {
          return NoLength(Ended, input);
        }
        if Value(extended) < 126 {
          return NoLength(Malformed, input);
        }
        return Length(Value(extended), input);
      }
      if short == 127 {
        var ok, extended := ReadFull(8);
        if !ok {
          return NoLength(Ended, input);
        }
        if Value(extended) < 65536 || Value(extended) >= LENGTH_LIMIT {
          return NoLength(Malformed, input);
        }
        return Length(Value(extended), input);
      }
      return Length(short, input);
    }

    method Read() returns (r: Outcome)
      modifies this`input
      ensures r == ReadFrame(old(input)) && input == r.rest
    {
      hide Masked, PayloadOk, ReadLength;
      var ok, header := ReadFull(2);
      if !ok {
        return NotGot(Ended, input);
      }
      var opcode := header[0] % 16;
      if header[0] < 128 || header[0] / 16 % 8 != 0 || header[1] < 128 || !KnownOpcode(opcode) {
        return NotGot(Malformed, input);
      }
      var length := ReadLengthField(header[1] % 128);
      if length.NoLength? {
        return NotGot(length.error, input);
      }
      if length.n > MAX_MESSAGE {
        return NotGot(TooLarge, input);
      }
      if opcode >= 8 && length.n > 125 {
        return NotGot(Malformed, input);
      }
      var masked, mask := ReadFull(4);
      if !masked {
        return NotGot(Ended, input);
      }
      var arrived, body := ReadFull(length.n);
      if !arrived {
        return NotGot(Ended, input);
      }
      var data := new Byte[|body|](i requires 0 <= i < |body| => body[i]);
      assert data[..] == body;
      Unmask(data, mask);
      if !PayloadOk(opcode, data[..]) {
        return NotGot(Malformed, input);
      }
      return Got(Frame(opcode, data[..]), input);
    }

    /** Takes the mask off in place. */
    static method Unmask(data: array<Byte>, mask: seq<Byte>)
      requires |mask| == 4
      modifies data
      ensures data[..] == Masked(mask, old(data[..]))
    {
      hide XorBytes;
      for i := 0 to data.Length
        invariant forall k :: 0 <= k < i ==> data[k] == XorBytes(old(data[k]), mask[k % 4])
        invariant forall k :: i <= k < data.Length ==> data[k] == old(data[k])
      {
        data[i] := XorBytes(data[i], mask[i % 4]);
      }
    }

    method Write(f: Frame) returns (ok: bool)
      modifies this`output
      ensures ok <==> WriteFrame(f).Sent?
      ensures output == if ok then old(output) + WriteFrame(f).bytes else old(output)
    {
      if |f.data| > MAX_MESSAGE {
        return false;
      }
      output := output + [if f.opcode < 128 then 128 + f.opcode else f.opcode];
      if |f.data| < 126 {
        output := output + [|f.data|];
      } else {
        output := output + [126] + Bytes(|f.data| % 65536, 2);
      }
      output := output + f.data;
      return true;
    }
  }

  method ShortenCloseReason(reason: seq<Byte>) returns (truncated: seq<Byte>)
    ensures truncated == TruncateCloseReason(reason)
    ensures |truncated| <= REASON_LIMIT
  {
    hide Utf8Valid;
    if |reason| <= REASON_LIMIT {
      return reason;
    }
    truncated := reason[..REASON_LIMIT];
    while |truncated| > 0 && !Utf8Valid(truncated)
      invariant |truncated| <= REASON_LIMIT && truncated == reason[..|truncated|]
      invariant ValidPrefix(reason, |truncated|) == ValidPrefix(reason, REASON_LIMIT)
    {
      truncated := truncated[..|truncated| - 1];
    }
    EmptyIsValid();
  }
}
