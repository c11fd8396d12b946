/** The padded base64 encoding with the URL-safe alphabet (section 5 of RFC 4648). */
module Base64 {
  import opened Common

  const PAD: Byte := 61

  function Letter(value: nat): Byte
    requires value < 64
  {
    if value < 26 then 65 + value
    else if value < 52 then 71 + value
    else if value < 62 then value - 4
    else if value == 62 then 45
    else 95
  }

  function Value(letter: Byte): Option<nat> {
    if 65 <= letter <= 90 then Some(letter - 65)
    else if 97 <= letter <= 122 then Some(letter - 71)
    else if 48 <= letter <= 57 then Some(letter + 4)
    else if letter == 45 then Some(62)
    else if letter == 95 then Some(63)
    else None
  }

  lemma ValueOfLetter(value: nat)
    requires value < 64
    ensures Value(Letter(value)) == Some(value)
    ensures Letter(value) != PAD
  {}

  /** The four letters of three bytes. */
  function Quad(a: Byte, b: Byte, c: Byte): (letters: seq<Byte>)
    ensures |letters| == 4
  {
    [Letter(a / 4), Letter(a % 4 * 16 + b / 16), Letter(b % 16 * 4 + c / 64), Letter(c % 64)]
  }

  function Encode(bytes: seq<Byte>): (text: seq<Byte>)
    ensures |text| == (|bytes| + 2) / 3 * 4
  {
    if |bytes| == 0 then []
    else if |bytes| == 1 then Quad(bytes[0], 0, 0)[..2] + [PAD, PAD]
    else if |bytes| == 2 then Quad(bytes[0], bytes[1], 0)[..3] + [PAD]
    else Quad(bytes[0], bytes[1], bytes[2]) + Encode(bytes[3..])
  }

  /** The bytes of one group of four letters; only the last group may be padded. */
  function DecodeQuad(text: seq<Byte>): Option<seq<Byte>>
    requires |text| == 4
  {
    var a :- Value(text[0]);
    var b :- Value(text[1]);
    if text[2] == PAD && text[3] == PAD then
      if b % 16 == 0 then Some([a * 4 + b / 16]) else None
    else
      var c :- Value(text[2]);
      if text[3] == PAD then
        if c % 4 == 0 then Some([a * 4 + b / 16, b % 16 * 16 + c / 4]) else None
      else
        var d :- Value(text[3]);
        Some([a * 4 + b / 16, b % 16 * 16 + c / 4, c % 4 * 64 + d])
  }

  function Decode(text: seq<Byte>): Option<seq<Byte>> {
    if |text| == 0 then Some([])
    else if |text| < 4 then None
    else
      var group :- DecodeQuad(text[..4]);
      if |text| == 4 then Some(group)
      else if |group| < 3 then None
      else
        var rest :- Decode(text[4..]);
        Some(group + rest)
  }

  lemma ThreeBytes(a: Byte, b: Byte, c: Byte)
    ensures DecodeQuad(Quad(a, b, c)) == Some([a, b, c])
  {
    hide Letter, Value;
    ValueOfLetter(a / 4);
    ValueOfLetter(a % 4 * 16 + b / 16);
    ValueOfLetter(b % 16 * 4 + c / 64);
    ValueOfLetter(c % 64);
  }

  lemma TwoBytes(a: Byte, b: Byte)
    ensures DecodeQuad(Quad(a, b, 0)[..3] + [PAD]) == Some([a, b])
  {
    hide Letter, Value;
    ValueOfLetter(a / 4);
    ValueOfLetter(a % 4 * 16 + b / 16);
    ValueOfLetter(b % 16 * 4);
  }

  lemma OneByte(a: Byte)
    ensures DecodeQuad(Quad(a, 0, 0)[..2] + [PAD, PAD]) == Some([a])
  {
    hide Letter, Value;
    ValueOfLetter(a / 4);
    ValueOfLetter(a % 4 * 16);
  }

  lemma {:induction false} RoundTrip(bytes: seq<Byte>)
    ensures Decode(Encode(bytes)) == Some(bytes)
  {
    hide DecodeQuad, Quad;
    if |bytes| == 1 {
      OneByte(bytes[0]);
      assert Encode(bytes)[..4] == Encode(bytes);
      assert bytes == [bytes[0]];
    } else if |bytes| == 2 {
      TwoBytes(bytes[0], bytes[1]);
      assert Encode(bytes)[..4] == Encode(bytes);
      assert bytes == [bytes[0], bytes[1]];
    } else if |bytes| >= 3 {
      var group, rest := Quad(bytes[0], bytes[1], bytes[2]), Encode(bytes[3..]);
      ThreeBytes(bytes[0], bytes[1], bytes[2]);
      RoundTrip(bytes[3..]);
      assert Encode(bytes)[..4] == group && Encode(bytes)[4..] == rest;
      var first := [bytes[0], bytes[1], bytes[2]];
      assert bytes == first + bytes[3..];
      if |bytes| == 3 {
        assert Encode(bytes) == group;
        assert bytes == first;
      }
    }
  }

  /** No byte outside the alphabet and the padding appears in an encoding. */
  lemma {:induction false} EncodeAvoids(bytes: seq<Byte>, other: Byte)
    requires Value(other) == None && other != PAD
    ensures other !in Encode(bytes)
  {
    forall value: nat | value < 64
      ensures Letter(value) != other
    {
      ValueOfLetter(value);
    }
    if |bytes| >= 3 {
      EncodeAvoids(bytes[3..], other);
    }
  }
}
