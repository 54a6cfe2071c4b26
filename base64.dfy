/** The standard base64 encoding with padding (section 4 of RFC 4648), with
    the decoding rules of Go's `base64.StdEncoding.DecodeString`: carriage
    returns and line feeds anywhere in the input are skipped, the input is
    read in quanta of four characters, only the last quantum may carry
    padding ("xx==" or "xxx="), and the unused low bits of a padded quantum
    are not required to be zero. */
module Base64 {
  import opened Common

  /** A base64 digit: the value of one alphabet character. */
  type Sextet = x: int | 0 <= x < 64

  const Pad: char := '='

  /** Table 1 of RFC 4648: the character that encodes a value. */
  function CharOf(x: Sextet): char
  {
    if x < 26 then (65 + x) as char
    else if x < 52 then (97 + x - 26) as char
    else if x < 62 then (48 + x - 52) as char
    else if x == 62 then '+'
    else '/'
  }

  /** The value of an alphabet character; `None` for any other character. */
  function ValueOf(c: char): Option<Sextet>
  {
    if 'A' <= c <= 'Z' then Some(c as int - 65)
    else if 'a' <= c <= 'z' then Some(c as int - 97 + 26)
    else if '0' <= c <= '9' then Some(c as int - 48 + 52)
    else if c == '+' then Some(62)
    else if c == '/' then Some(63)
    else None
  }

  /** The table is a bijection: every value's character decodes to it ... */
  lemma ValueOfCharOf(x: Sextet)
    ensures ValueOf(CharOf(x)) == Some(x)
  {
  }

  /** ... and every alphabet character is the encoding of its value. */
  lemma CharOfValueOf(c: char)
    requires ValueOf(c).Some?
    ensures CharOf(ValueOf(c).value) == c
  {
  }

  predicate IsNewline(c: char) {
    c == '\n' || c == '\r'
  }

  /** A character an encoder emits: an alphabet character or the pad. */
  predicate IsEncodingChar(c: char) {
    ValueOf(c).Some? || c == Pad
  }

  /** One quantum of four characters, by the digits it spells: four digits,
      three digits and one pad ("xxx="), or two digits and two pads ("xx=="). */
  datatype Quantum =
    | Full(a: Sextet, b: Sextet, c: Sextet, d: Sextet)
    | Two(a: Sextet, b: Sextet, c: Sextet)
    | One(a: Sextet, b: Sextet)

  /** The four characters of a quantum. */
  function Spelling(q: Quantum): (s: string)
    ensures |s| == 4
  {
    match q
    case Full(a, b, c, d) => [CharOf(a), CharOf(b), CharOf(c), CharOf(d)]
    case Two(a, b, c) => [CharOf(a), CharOf(b), CharOf(c), Pad]
    case One(a, b) => [CharOf(a), CharOf(b), Pad, Pad]
  }

  /** The bytes a quantum carries: the digits' bits, high first, cut into
      octets; the bits left over after the last whole octet are dropped. */
  function Bytes(q: Quantum): (bs: seq<Byte>)
    ensures |bs| == (match q case Full(_, _, _, _) => 3 case Two(_, _, _) => 2 case One(_, _) => 1)
  {
    match q
    case Full(a, b, c, d) => [a * 4 + b / 16, b % 16 * 16 + c / 4, c % 4 * 64 + d]
    case Two(a, b, c) => [a * 4 + b / 16, b % 16 * 16 + c / 4]
    case One(a, b) => [a * 4 + b / 16]
  }

  /** The bits a padded quantum does not use are zero. */
  predicate ZeroPadBits(q: Quantum) {
    match q
    case Full(_, _, _, _) => true
    case Two(_, _, c) => c % 4 == 0
    case One(_, b) => b % 16 == 0
  }

  /** Reading one quantum: both leading characters must be digits, a pad in
      third place must be followed by a pad, and a padded quantum is an
      error unless it ends the input (`last`). */
  function ParseQuantum(c0: char, c1: char, c2: char, c3: char, last: bool): Option<Quantum>
  {
    match (ValueOf(c0), ValueOf(c1))
    case (Some(a), Some(b)) =>
      if c2 == Pad then
        if c3 == Pad && last then Some(One(a, b)) else None
      else (
        match ValueOf(c2)
        case None => None
        case Some(c) =>
          if c3 == Pad then
            if last then Some(Two(a, b, c)) else None
          else (
            match ValueOf(c3)
            case None => None
            case Some(d) => Some(Full(a, b, c, d))))
    case _ => None
  }

  /** A quantum that parses is spelled by the characters it was read from,
      and only a full quantum may stand before more input. */
  lemma ParseSpelling(c0: char, c1: char, c2: char, c3: char, last: bool)
    requires ParseQuantum(c0, c1, c2, c3, last).Some?
    ensures Spelling(ParseQuantum(c0, c1, c2, c3, last).value) == [c0, c1, c2, c3]
    ensures ParseQuantum(c0, c1, c2, c3, last).value.Full? || last
  {
    CharOfValueOf(c0);
    CharOfValueOf(c1);
    if c2 != Pad {
      CharOfValueOf(c2);
      if c3 != Pad {
        CharOfValueOf(c3);
      }
    }
  }

  /** Conversely, a quantum's spelling parses back to it wherever padding is allowed. */
  lemma ParseOfSpelling(q: Quantum, last: bool)
    requires q.Full? || last
    ensures var s := Spelling(q); ParseQuantum(s[0], s[1], s[2], s[3], last) == Some(q)
  {
    ValueOfCharOf(q.a);
    ValueOfCharOf(q.b);
    if !q.One? {
      ValueOfCharOf(q.c);
    }
    if q.Full? {
      ValueOfCharOf(q.d);
    }
  }

  /** The quanta the encoder emits for three, one and two bytes. */
  function GroupOf(b0: Byte, b1: Byte, b2: Byte): Quantum
  {
    Full(b0 / 4, b0 % 4 * 16 + b1 / 16, b1 % 16 * 4 + b2 / 64, b2 % 64)
  }

  function OneOf(b0: Byte): Quantum
  {
    One(b0 / 4, b0 % 4 * 16)
  }

  function TwoOf(b0: Byte, b1: Byte): Quantum
  {
    Two(b0 / 4, b0 % 4 * 16 + b1 / 16, b1 % 16 * 4)
  }

  /** The encoding of section 4: four characters per three bytes, the last
      group padded with "==" (one byte) or "=" (two bytes). */
  function Encode(bs: seq<Byte>): (s: string)
    ensures bs != [] ==> |s| >= 4
    decreases |bs|
  {
    if |bs| == 0 then []
    else if |bs| == 1 then Spelling(OneOf(bs[0]))
    else if |bs| == 2 then Spelling(TwoOf(bs[0], bs[1]))
    else Spelling(GroupOf(bs[0], bs[1], bs[2])) + Encode(bs[3..])
  }

  /** Four characters for every three bytes or part of three. */
  lemma {:induction false} EncodeLength(bs: seq<Byte>)
    ensures |Encode(bs)| == 4 * ((|bs| + 2) / 3)
    decreases |bs|
  {
    if |bs| > 2 {
      EncodeLength(bs[3..]);
      assert (|bs[3..]| + 2) / 3 == (|bs| + 2) / 3 - 1;
    }
  }

  /** The input with every carriage return and line feed removed. */
  function StripNewlines(s: string): (t: string)
    ensures |t| <= |s|
    ensures forall i :: 0 <= i < |t| ==> !IsNewline(t[i])
    ensures (forall i :: 0 <= i < |s| ==> !IsNewline(s[i])) ==> t == s
  {
    if s == [] then []
    else if IsNewline(s[0]) then StripNewlines(s[1..])
    else [s[0]] + StripNewlines(s[1..])
  }

  /** Decoding an input that holds no line breaks, quantum by quantum. */
  function DecodeStripped(s: string): Option<seq<Byte>>
    decreases |s|
  {
    if |s| == 0 then Some([])
    else if |s| < 4 then None
    else
      match ParseQuantum(s[0], s[1], s[2], s[3], |s| == 4)
      case None => None
      case Some(q) =>
        match DecodeStripped(s[4..])
        case None => None
        case Some(tail) => Some(Bytes(q) + tail)
  }

  /** `StdEncoding.DecodeString`, with the error reduced to `None`. */
  function Decode(s: string): Option<seq<Byte>>
  {
    DecodeStripped(StripNewlines(s))
  }

  /** The low bits a padded last quantum leaves unused are zero. */
  predicate PadBitsZero(s: string) {
    if |s| >= 3 && s[|s| - 1] == Pad && s[|s| - 2] == Pad then
      ValueOf(s[|s| - 3]).Some? && ValueOf(s[|s| - 3]).value % 16 == 0
    else if |s| >= 2 && s[|s| - 1] == Pad then
      ValueOf(s[|s| - 2]).Some? && ValueOf(s[|s| - 2]).value % 4 == 0
    else true
  }

  /** The form the encoder produces: no line breaks and zero unused bits. */
  predicate Canonical(s: string) {
    (forall i :: 0 <= i < |s| ==> !IsNewline(s[i])) && PadBitsZero(s)
  }

  /** The encoder's quanta carry the bytes they were made from. */
  lemma BytesOfGroup(b0: Byte, b1: Byte, b2: Byte)
    ensures Bytes(GroupOf(b0, b1, b2)) == [b0, b1, b2]
  {
    var q := GroupOf(b0, b1, b2);
    assert q.b / 16 == b0 % 4 && q.b % 16 == b1 / 16;
    assert q.c / 4 == b1 % 16 && q.c % 4 == b2 / 64;
  }

  lemma BytesOfOne(b0: Byte)
    ensures Bytes(OneOf(b0)) == [b0]
  {
    var q := OneOf(b0);
    assert q.b / 16 == b0 % 4;
  }

  lemma BytesOfTwo(b0: Byte, b1: Byte)
    ensures Bytes(TwoOf(b0, b1)) == [b0, b1]
  {
    var q := TwoOf(b0, b1);
    assert q.b / 16 == b0 % 4 && q.b % 16 == b1 / 16;
    assert q.c / 4 == b1 % 16;
  }

  /** Re-encoding a quantum's bytes gives the quantum back exactly when its
      unused bits are zero. */
  lemma ReencodeQuantum(q: Quantum)
    ensures q.Full? ==> GroupOf(Bytes(q)[0], Bytes(q)[1], Bytes(q)[2]) == q
    ensures q.Two? ==> (TwoOf(Bytes(q)[0], Bytes(q)[1]) == q <==> ZeroPadBits(q))
    ensures q.One? ==> (OneOf(Bytes(q)[0]) == q <==> ZeroPadBits(q))
  {
    var h := Bytes(q);
    assert h[0] / 4 == q.a;
    assert h[0] % 4 == q.b / 16;
    if q.Full? {
      assert h[1] / 16 == q.b % 16 && h[1] % 16 == q.c / 4;
      assert h[2] / 64 == q.c % 4 && h[2] % 64 == q.d;
    } else if q.Two? {
      assert h[1] / 16 == q.b % 16 && h[1] % 16 == q.c / 4;
    }
  }

  /** A spelling's unused bits are the quantum's. */
  lemma PadBitsZeroOfSpelling(q: Quantum)
    ensures PadBitsZero(Spelling(q)) == ZeroPadBits(q)
  {
    ValueOfCharOf(q.b);
    if !q.One? {
      ValueOfCharOf(q.c);
    }
    if q.Full? {
      ValueOfCharOf(q.d);
    }
  }

  /** Whether the unused bits are zero is decided by the last quantum alone. */
  lemma PadBitsZeroOfSuffix(q: string, rest: string)
    requires |rest| >= 4
    ensures PadBitsZero(q + rest) == PadBitsZero(rest)
  {
    var s := q + rest;
    assert s[|s| - 1] == rest[|rest| - 1];
    assert s[|s| - 2] == rest[|rest| - 2];
    assert s[|s| - 3] == rest[|rest| - 3];
  }

  /** The first quantum the encoder emits for `bs`, and the bytes it leaves. */
  function FirstQuantum(bs: seq<Byte>): Quantum
    requires |bs| > 0
  {
    if |bs| == 1 then OneOf(bs[0])
    else if |bs| == 2 then TwoOf(bs[0], bs[1])
    else GroupOf(bs[0], bs[1], bs[2])
  }

  function AfterFirst(bs: seq<Byte>): seq<Byte>
    requires |bs| > 0
  {
    if |bs| <= 2 then [] else bs[3..]
  }

  /** The encoding is the first quantum's spelling followed by the rest's. */
  lemma EncodeFirst(bs: seq<Byte>)
    requires |bs| > 0
    ensures Encode(bs) == Spelling(FirstQuantum(bs)) + Encode(AfterFirst(bs))
    ensures AfterFirst(bs) != [] ==> FirstQuantum(bs).Full?
    ensures bs == Bytes(FirstQuantum(bs)) + AfterFirst(bs)
  {
    if |bs| <= 2 {
      assert Encode(AfterFirst(bs)) == [];
    }
    BytesFirst(bs);
  }

  /** The first quantum carries the first bytes. */
  lemma BytesFirst(bs: seq<Byte>)
    requires |bs| > 0
    ensures bs == Bytes(FirstQuantum(bs)) + AfterFirst(bs)
  {
    if |bs| == 1 {
      BytesOfOne(bs[0]);
    } else if |bs| == 2 {
      BytesOfTwo(bs[0], bs[1]);
    } else {
      BytesOfGroup(bs[0], bs[1], bs[2]);
      SplitGroup(bs);
    }
  }

  lemma SplitGroup(bs: seq<Byte>)
    requires |bs| >= 3
    ensures bs == [bs[0], bs[1], bs[2]] + bs[3..]
  {
    assert bs[..3] == [bs[0], bs[1], bs[2]];
    assert bs == bs[..3] + bs[3..];
  }

  /** Round trip without line breaks: decoding an encoding gives the bytes back. */
  lemma {:induction false} DecodeStrippedEncode(bs: seq<Byte>)
    ensures DecodeStripped(Encode(bs)) == Some(bs)
    decreases |bs|
  {
    if |bs| > 0 {
      var s := Encode(bs);
      var q, tail := FirstQuantum(bs), AfterFirst(bs);
      EncodeFirst(bs);
      assert s[4..] == Encode(tail);
      ParseOfSpelling(q, tail == []);
      assert ParseQuantum(s[0], s[1], s[2], s[3], |s| == 4) == Some(q);
      DecodeStrippedEncode(tail);
    }
  }

  /** An encoding holds only alphabet characters and pads. */
  lemma {:induction false} EncodeAlphabet(bs: seq<Byte>)
    ensures forall i :: 0 <= i < |Encode(bs)| ==> IsEncodingChar(Encode(bs)[i])
    decreases |bs|
  {
    if |bs| > 0 {
      var s := Encode(bs);
      var q, tail := FirstQuantum(bs), AfterFirst(bs);
      EncodeFirst(bs);
      ValueOfCharOf(q.a);
      ValueOfCharOf(q.b);
      if !q.One? {
        ValueOfCharOf(q.c);
      }
      if q.Full? {
        ValueOfCharOf(q.d);
      }
      EncodeAlphabet(tail);
      forall i | 0 <= i < |s|
        ensures IsEncodingChar(s[i])
      {
        if i >= 4 {
          assert s[i] == Encode(tail)[i - 4];
        }
      }
    }
  }

  /** Every encoding is in canonical form. */
  lemma {:induction false} EncodeCanonical(bs: seq<Byte>)
    ensures Canonical(Encode(bs))
    decreases |bs|
  {
    var s := Encode(bs);
    EncodeAlphabet(bs);
    forall i | 0 <= i < |s|
      ensures !IsNewline(s[i])
    {
      assert IsEncodingChar(s[i]);
    }
    if |bs| > 0 {
      var q, tail := FirstQuantum(bs), AfterFirst(bs);
      EncodeFirst(bs);
      if tail == [] {
        PadBitsZeroOfSpelling(q);
        assert s == Spelling(q);
      } else {
        EncodeCanonical(tail);
        PadBitsZeroOfSuffix(Spelling(q), Encode(tail));
      }
    }
  }

  /** RFC 4648 round trip: every byte string survives encoding then decoding. */
  lemma DecodeEncode(bs: seq<Byte>)
    ensures Decode(Encode(bs)) == Some(bs)
  {
    EncodeCanonical(bs);
    assert StripNewlines(Encode(bs)) == Encode(bs);
    DecodeStrippedEncode(bs);
  }

  /** Re-encoding a quantum's bytes gives its spelling back when its unused
      bits are zero. */
  lemma ReencodeLast(q: Quantum)
    requires ZeroPadBits(q)
    ensures Encode(Bytes(q)) == Spelling(q)
  {
    var h := Bytes(q);
    ReencodeQuantum(q);
    EncodeFirst(h);
    assert FirstQuantum(h) == q;
    assert AfterFirst(h) == [];
  }

  /** Re-encoding the bytes a canonical input without line breaks decodes
      to gives that input back. */
  lemma {:induction false} EncodeDecodedStripped(s: string, bs: seq<Byte>)
    requires DecodeStripped(s) == Some(bs)
    requires PadBitsZero(s)
    ensures Encode(bs) == s
    decreases |s|
  {
    if |s| > 0 {
      ParseSpelling(s[0], s[1], s[2], s[3], |s| == 4);
      var q := ParseQuantum(s[0], s[1], s[2], s[3], |s| == 4).value;
      var rest := s[4..];
      var tail := DecodeStripped(rest).value;
      assert s == Spelling(q) + rest;
      assert bs == Bytes(q) + tail;
      if |s| == 4 {
        assert rest == [] && tail == [];
        assert bs == Bytes(q);
        PadBitsZeroOfSpelling(q);
        ReencodeLast(q);
      } else {
        PadBitsZeroOfSuffix(Spelling(q), rest);
        EncodeDecodedStripped(rest, tail);
        ReencodeQuantum(q);
        EncodeFirst(bs);
        assert FirstQuantum(bs) == q;
        assert AfterFirst(bs) == tail;
      }
    }
  }

  /** What decoding accepts is exactly the encoding of its result when the
      input is in canonical form; otherwise re-encoding yields the canonical
      spelling, not the input. */
  lemma EncodeDecode(s: string, bs: seq<Byte>)
    requires Decode(s) == Some(bs)
    ensures Canonical(s) ==> Encode(bs) == s
    ensures Encode(bs) == s ==> Canonical(s)
  {
    if Canonical(s) {
      assert StripNewlines(s) == s;
      EncodeDecodedStripped(s, bs);
    }
    EncodeCanonical(bs);
  }

  /** The decoder's leniency: "QR==" decodes to the byte 65, whose encoding is "QQ==". */
  lemma NonZeroPadBitsAccepted()
    ensures Decode("QR==") == Some([65])
    ensures Encode([65]) == "QQ=="
  {
    var s := "QR==";
    assert StripNewlines(s) == s;
    assert ValueOf('Q') == Some(16) && ValueOf('R') == Some(17);
    assert ParseQuantum(s[0], s[1], s[2], s[3], true) == Some(One(16, 17));
    assert s[4..] == [];
    assert Bytes(One(16, 17)) + [] == [65];
    assert OneOf(65) == One(16, 16);
  }
}
