/**
 The signed session cookie: a decimal timestamp, a self-describing binary payload holding the user
 id, and a signature over both, joined by separators and encoded as base64.
 */
module Cookie {
  import opened Common
  import Base64

  const MAX_AGE := 365 * 24 * 60 * 60
  const MAX_LENGTH := 4096
  const WORD := 0x1_0000_0000_0000_0000
  const MAX_INT64 := 0x7fff_ffff_ffff_ffff
  const MAX_INT32 := 0x7fff_ffff
  const BAR: Byte := 124

  const STRING: seq<Byte> := [115, 116, 114, 105, 110, 103]
  const INT: seq<Byte> := [105, 110, 116]
  const USER_ID: seq<Byte> := [117, 115, 101, 114, 73, 68]

  // ---------------------------------------------------------------------------------------------
  // Integers and frames. A reader yields what it read and what is left.

  /** The bytes of a number, most significant first, without leading zeros. */
  function BigEndian(value: nat): seq<Byte> {
    if value == 0 then [] else BigEndian(value / 256) + [value % 256]
  }

  function UintBytes(value: nat): seq<Byte>
    requires value < WORD
  {
    if value < 128 then [value]
    else
      BigEndianLength(value, 8);
      [256 - |BigEndian(value)|] + BigEndian(value)
  }

  function FrameBytes(content: seq<Byte>): seq<Byte>
    requires |content| < WORD
  {
    UintBytes(|content|) + content
  }

  function ReadByte(bytes: seq<Byte>): Option<(Byte, seq<Byte>)> {
    if bytes == [] then None else Some((bytes[0], bytes[1..]))
  }

  /** Appends `count` more bytes to the digits read so far, unless the value outgrows 64 bits. */
  function ReadDigits(count: nat, value: nat, bytes: seq<Byte>): Option<(nat, seq<Byte>)> {
    if count == 0 then Some((value, bytes))
    else
      var (byte, rest) :- ReadByte(bytes);
      if value * 256 + byte < WORD then ReadDigits(count - 1, value * 256 + byte, rest) else None
  }

  function ReadUint(bytes: seq<Byte>): Option<(nat, seq<Byte>)> {
    var (first, rest) :- ReadByte(bytes);
    if first < 128 then Some((first, rest))
    else if 256 - first > 8 then None
    else ReadDigits(256 - first, 0, rest)
  }

  /** A signed integer: the lowest bit says whether the others are complemented. */
  function ReadInt(bytes: seq<Byte>): Option<(int, seq<Byte>)> {
    var (value, rest) :- ReadUint(bytes);
    if value / 2 > MAX_INT64 then None
    else if value % 2 == 0 then Some((value / 2, rest))
    else Some((-1 - value / 2, rest))
  }

  function ReadFrame(bytes: seq<Byte>): Option<(seq<Byte>, seq<Byte>)> {
    var (count, rest) :- ReadUint(bytes);
    if count <= |rest| then Some((rest[..count], rest[count..])) else None
  }

  /** What follows the expected bytes. */
  function Skip(bytes: seq<Byte>, expected: seq<Byte>): Option<seq<Byte>> {
    if expected <= bytes then Some(bytes[|expected|..]) else None
  }

  /** What follows a frame with the expected content. */
  function SkipText(bytes: seq<Byte>, expected: seq<Byte>): Option<seq<Byte>> {
    var (content, rest) :- ReadFrame(bytes);
    if content == expected then Some(rest) else None
  }

  class Reader {
    var rest: seq<Byte>

    constructor (bytes: seq<Byte>)
      ensures rest == bytes
    {
      rest := bytes;
    }

    method Byte() returns (byte: Option<Byte>)
      modifies this
      ensures match ReadByte(old(rest))
              case None => byte == None && rest == old(rest)
              case Some((b, left)) => byte == Some(b) && rest == left
    {
      if rest == [] {
        return None;
      }
      byte := Some(rest[0]);
      rest := rest[1..];
    }

    method Uint() returns (value: Option<nat>)
      modifies this
      ensures match ReadUint(old(rest))
              case None => value == None
              case Some((v, left)) => value == Some(v) && rest == left
    {
      var first := Byte();
      if first == None {
        return None;
      }
      if first.value < 128 {
        return Some(first.value);
      }
      var count := 256 - first.value;
      if count > 8 {
        return None;
      }
      ghost var after := rest;
      var number: nat := 0;
      for i := 0 to count
        invariant ReadDigits(count, 0, after) == ReadDigits(count - i, number, rest)
      {
        var byte := Byte();
        if byte == None || number * 256 + byte.value >= WORD {
          return None;
        }
        number := number * 256 + byte.value;
      }
      value := Some(number);
    }

    method Int() returns (value: Option<int>)
      modifies this
      ensures match ReadInt(old(rest))
              case None => value == None
              case Some((v, left)) => value == Some(v) && rest == left
    {
      var number := Uint();
      if number == None || number.value / 2 > MAX_INT64 {
        return None;
      }
      var magnitude: int := number.value / 2;
      value := Some(if number.value % 2 == 0 then magnitude else -1 - magnitude);
    }

    method Frame() returns (frame: Option<seq<Byte>>)
      modifies this
      ensures match ReadFrame(old(rest))
              case None => frame == None
              case Some((content, left)) => frame == Some(content) && rest == left
    {
      var count := Uint();
      if count == None || count.value > |rest| {
        return None;
      }
      frame := Some(rest[..count.value]);
      rest := rest[count.value..];
    }

    method Text(expected: seq<Byte>) returns (ok: bool)
      modifies this
      ensures match SkipText(old(rest), expected)
              case None => !ok
              case Some(left) => ok && rest == left
    {
      var content := Frame();
      ok := content == Some(expected);
    }

    method Bytes(expected: seq<Byte>) returns (ok: bool)
      modifies this
      ensures match Skip(old(rest), expected)
              case None => !ok
              case Some(left) => ok && rest == left
    {
      ghost var start := rest;
      for i := 0 to |expected|
        invariant i <= |start| && rest == start[i..] && expected[..i] == start[..i]
      {
        var byte := Byte();
        if byte != Some(expected[i]) {
          return false;
        }
        assert expected[..i + 1] == expected[..i] + [expected[i]];
      }
      ok := true;
    }
  }

  // ---------------------------------------------------------------------------------------------
  // What a reader gets back from what was written, whatever follows.

  function Power256(n: nat): nat {
    if n == 0 then 1 else 256 * Power256(n - 1)
  }

  lemma {:induction false} BigEndianLength(value: nat, limit: nat)
    requires value < Power256(limit)
    ensures |BigEndian(value)| <= limit
    ensures value > 0 ==> |BigEndian(value)| >= 1
  {
    if value > 0 {
      BigEndianLength(value / 256, limit - 1);
    }
  }

  lemma {:induction false} ReadDigitsAdds(few: nat, more: nat, value: nat, bytes: seq<Byte>)
    ensures ReadDigits(few + more, value, bytes)
            == match ReadDigits(few, value, bytes)
               case None => None
               case Some((v, rest)) => ReadDigits(more, v, rest)
  {
    if few > 0 && bytes != [] && value * 256 + bytes[0] < WORD {
      ReadDigitsAdds(few - 1, more, value * 256 + bytes[0], bytes[1..]);
    }
  }

  lemma {:induction false} ReadBigEndian(value: nat, suffix: seq<Byte>)
    requires value < WORD
    ensures ReadDigits(|BigEndian(value)|, 0, BigEndian(value) + suffix) == Some((value, suffix))
  {
    if value == 0 {
      assert BigEndian(0) + suffix == suffix;
    } else {
      var front, last := BigEndian(value / 256), value % 256;
      ReadBigEndian(value / 256, [last] + suffix);
      ReadDigitsAdds(|front|, 1, 0, front + ([last] + suffix));
      assert BigEndian(value) + suffix == front + ([last] + suffix);
      assert ([last] + suffix)[1..] == suffix;
      assert ReadDigits(1, value / 256, [last] + suffix) == Some((value, suffix)) by {
        assert ReadDigits(0, value, suffix) == Some((value, suffix));
      }
    }
  }

  /** The integer reader takes exactly the bytes that the integer writer produced. */
  lemma ReadUintBytes(value: nat, suffix: seq<Byte>)
    requires value < WORD
    ensures ReadUint(UintBytes(value) + suffix) == Some((value, suffix))
  {
    var bytes := UintBytes(value) + suffix;
    if value < 128 {
      assert bytes[1..] == suffix;
    } else {
      BigEndianLength(value, 8);
      assert bytes[1..] == BigEndian(value) + suffix;
      ReadBigEndian(value, suffix);
    }
  }

  /** The frame reader takes exactly the frame, and the frame holds what was framed. */
  lemma ReadFrameBytes(content: seq<Byte>, suffix: seq<Byte>)
    requires |content| < WORD
    ensures ReadFrame(FrameBytes(content) + suffix) == Some((content, suffix))
  {
    assert FrameBytes(content) + suffix == UintBytes(|content|) + (content + suffix);
    ReadUintBytes(|content|, content + suffix);
    assert (content + suffix)[..|content|] == content && (content + suffix)[|content|..] == suffix;
  }

  lemma SkipAppended(expected: seq<Byte>, suffix: seq<Byte>)
    ensures Skip(expected + suffix, expected) == Some(suffix)
  {}

  // ---------------------------------------------------------------------------------------------
  // The timestamp.

  function DecimalDigits(value: nat): (digits: seq<Byte>)
    ensures |digits| >= 1
  {
    if value < 10 then [48 + value] else DecimalDigits(value / 10) + [48 + value % 10]
  }

  predicate AllDigits(text: seq<Byte>) {
    forall i :: 0 <= i < |text| ==> 48 <= text[i] <= 57
  }

  function DecimalValue(text: seq<Byte>): nat
    requires AllDigits(text)
  {
    if text == [] then 0 else DecimalValue(text[..|text| - 1]) * 10 + (text[|text| - 1] - 48)
  }

  lemma {:induction false} DecimalRoundTrip(value: nat)
    ensures AllDigits(DecimalDigits(value)) && DecimalValue(DecimalDigits(value)) == value
  {
    if value >= 10 {
      DecimalRoundTrip(value / 10);
      assert DecimalDigits(value)[..|DecimalDigits(value)| - 1] == DecimalDigits(value / 10);
    } else {
      assert DecimalDigits(value)[..0] == [];
    }
  }

  function Power10(n: nat): nat {
    if n == 0 then 1 else 10 * Power10(n - 1)
  }

  lemma {:induction false} DecimalLength(value: nat, limit: nat)
    requires value < Power10(limit) && limit >= 1
    ensures |DecimalDigits(value)| <= limit
  {
    if value >= 10 {
      DecimalLength(value / 10, limit - 1);
    }
  }

  // ---------------------------------------------------------------------------------------------
  // The payload: a declaration of the map type, then the map with its one entry.

  const TYPE: seq<Byte> := [255, 128]
  const DECLARATION: seq<Byte> := [127, 4, 1, 2] + TYPE + [0, 1, 16, 1, 16, 0, 0]
  const KEY: seq<Byte> := [0] + ([6] + USER_ID)

  function NumberBytes(id: nat): (number: seq<Byte>)
    requires id <= MAX_INT32
    ensures |number| <= 6
  {
    BigEndianLength(2 * id, 4);
    [0] + UintBytes(2 * id)
  }

  function ValuesBytes(id: nat): (values: seq<Byte>)
    requires id <= MAX_INT32
    ensures |values| <= 40
  {
    TYPE + ([0, 1] + (([6] + STRING) + ([12] + (([8] + KEY) + (([3] + INT) + ([4] + FrameBytes(NumberBytes(id))))))))
  }

  function PayloadBytes(id: nat): seq<Byte>
    requires id <= MAX_INT32
  {
    FrameBytes(DECLARATION) + FrameBytes(ValuesBytes(id))
  }

  /** The type number that a declaration introduces. */
  function ReadDeclaration(declaration: seq<Byte>): Option<int> {
    var (negated, a) :- ReadInt(declaration);
    if !(64 <= -negated <= MAX_INT32) then None
    else
      var b :- Skip(a, [4, 1, 2]);
      var (again, c) :- ReadInt(b);
      if again != -negated then None
      else
        var d :- Skip(c, [0, 1, 16, 1, 16, 0, 0]);
        if d == [] then Some(-negated) else None
  }

  function ReadKey(key: seq<Byte>): Option<()> {
    var a :- Skip(key, [0]);
    var b :- SkipText(a, USER_ID);
    if b == [] then Some(()) else None
  }

  function ReadNumber(number: seq<Byte>): Option<nat> {
    var a :- Skip(number, [0]);
    var (id, b) :- ReadInt(a);
    if 0 < id <= MAX_INT32 && b == [] then Some(id) else None
  }

  function ReadValues(values: seq<Byte>, typeId: int): Option<nat> {
    var (found, a) :- ReadInt(values);
    if found != typeId then None
    else
      var b :- Skip(a, [0, 1]);
      var c :- SkipText(b, STRING);
      var (keyType, d) :- ReadInt(c);
      if keyType != 6 then None
      else
        var (key, e) :- ReadFrame(d);
        var _ :- ReadKey(key);
        var f :- SkipText(e, INT);
        var (valueType, g) :- ReadInt(f);
        if valueType != 2 then None
        else
          var (number, h) :- ReadFrame(g);
          var id :- ReadNumber(number);
          if h == [] then Some(id) else None
  }

  function ReadPayload(payload: seq<Byte>): Option<nat> {
    var (declaration, a) :- ReadFrame(payload);
    var typeId :- ReadDeclaration(declaration);
    var (values, b) :- ReadFrame(a);
    if b == [] then ReadValues(values, typeId) else None
  }

  lemma ReadSmallInt(byte: Byte, suffix: seq<Byte>)
    requires byte < 128
    ensures ReadInt([byte] + suffix)
            == Some((if byte % 2 == 0 then byte as int / 2 else -1 - byte as int / 2, suffix))
  {
    assert ([byte] + suffix)[1..] == suffix;
  }

  lemma ReadType(suffix: seq<Byte>)
    ensures ReadInt(TYPE + suffix) == Some((64, suffix))
  {
    var bytes := TYPE + suffix;
    assert bytes[1..] == [128] + suffix;
    assert ([128] + suffix)[1..] == suffix;
    assert ReadDigits(1, 0, [128] + suffix) == Some((128, suffix)) by {
      assert ReadDigits(0, 128, suffix) == Some((128, suffix));
    }
  }

  lemma ReadShortFrame(content: seq<Byte>, suffix: seq<Byte>)
    requires |content| < 128
    ensures ReadFrame([|content| as Byte] + content + suffix) == Some((content, suffix))
    ensures SkipText([|content| as Byte] + content + suffix, content) == Some(suffix)
  {
    ReadFrameBytes(content, suffix);
  }

  lemma DeclarationRoundTrip()
    ensures ReadDeclaration(DECLARATION) == Some(64)
  {
    var d: seq<Byte> := [0, 1, 16, 1, 16, 0, 0];
    assert DECLARATION == [127] + ([4, 1, 2] + (TYPE + d));
    ReadSmallInt(127, [4, 1, 2] + (TYPE + d));
    SkipAppended([4, 1, 2], TYPE + d);
    ReadType(d);
    SkipAppended(d, []);
    assert d + [] == d;
  }

  lemma KeyRoundTrip()
    ensures ReadKey(KEY) == Some(())
  {
    SkipAppended([0], [6] + USER_ID);
    ReadShortFrame(USER_ID, []);
    assert [6] + USER_ID + [] == [6] + USER_ID;
  }

  lemma NumberRoundTrip(id: nat)
    requires 0 < id <= MAX_INT32
    ensures ReadNumber(NumberBytes(id)) == Some(id)
  {
    SkipAppended([0], UintBytes(2 * id));
    ReadUintBytes(2 * id, []);
    assert UintBytes(2 * id) + [] == UintBytes(2 * id);
  }

  lemma ValuesRoundTrip(id: nat)
    requires 0 < id <= MAX_INT32
    ensures ReadValues(ValuesBytes(id), 64) == Some(id)
  {
    hide ReadInt, ReadFrame, ReadKey, ReadNumber, SkipText, Skip, UintBytes, NumberBytes;
    var g := FrameBytes(NumberBytes(id));
    var f := [4] + g;
    var e := ([3] + INT) + f;
    var d := ([8] + KEY) + e;
    var c := [12] + d;
    var b := ([6] + STRING) + c;
    var a := [0, 1] + b;
    ReadType(a);
    SkipAppended([0, 1], b);
    ReadShortFrame(STRING, c);
    ReadSmallInt(12, d);
    ReadShortFrame(KEY, e);
    KeyRoundTrip();
    ReadShortFrame(INT, f);
    ReadSmallInt(4, g);
    NumberFrame(id);
    NumberRoundTrip(id);
  }

  lemma NumberFrame(id: nat)
    requires 0 < id <= MAX_INT32
    ensures ReadFrame(FrameBytes(NumberBytes(id))) == Some((NumberBytes(id), []))
  {
    var frame := FrameBytes(NumberBytes(id));
    assert frame + [] == frame;
    ReadFrameBytes(NumberBytes(id), []);
  }

  lemma PayloadRoundTrip(id: nat)
    requires 0 < id <= MAX_INT32
    ensures ReadPayload(PayloadBytes(id)) == Some(id)
  {
    hide ReadFrame, ReadDeclaration, ReadValues, ValuesBytes, UintBytes;
    ReadFrameBytes(DECLARATION, FrameBytes(ValuesBytes(id)));
    DeclarationRoundTrip();
    ReadFrameBytes(ValuesBytes(id), []);
    assert FrameBytes(ValuesBytes(id)) + [] == FrameBytes(ValuesBytes(id));
    ValuesRoundTrip(id);
  }

  // ---------------------------------------------------------------------------------------------
  // The envelope. `sign` stands for the keyed digest of the fixed prefix and a message.

  function FirstBar(bytes: seq<Byte>): (index: Option<nat>)
    ensures index.None? <==> BAR !in bytes
    ensures index.Some? ==> index.value < |bytes| && bytes[index.value] == BAR && BAR !in bytes[..index.value]
  {
    if bytes == [] then None
    else if bytes[0] == BAR then Some(0)
    else
      match FirstBar(bytes[1..])
      case None => None
      case Some(i) =>
        assert bytes[..i + 1] == [bytes[0]] + bytes[1..][..i];
        Some(i + 1)
  }

  lemma {:induction false} FirstBarAfter(front: seq<Byte>, back: seq<Byte>)
    requires BAR !in front
    ensures FirstBar(front + [BAR] + back) == Some(|front|)
  {
    var all := front + [BAR] + back;
    if front == [] {
      assert all[0] == BAR;
    } else {
      FirstBarAfter(front[1..], back);
      assert all[0] == front[0] && front[0] in front;
      assert all[1..] == front[1..] + [BAR] + back;
    }
  }

  /** The bytes behind a base64 text, if the text is the one encoding of them. */
  function Decode64(text: seq<Byte>): Option<seq<Byte>> {
    var decoded :- Base64.Decode(text);
    if Base64.Encode(decoded) == text then Some(decoded) else None
  }

  function Message(id: nat, timestamp: nat): seq<Byte>
    requires id <= MAX_INT32
  {
    DecimalDigits(timestamp) + [BAR] + Base64.Encode(PayloadBytes(id))
  }

  type Signer = (seq<Byte>, seq<Byte>) -> seq<Byte>

  function EncodedCookie(id: nat, secret: seq<Byte>, timestamp: nat, sign: Signer): seq<Byte>
    requires id <= MAX_INT32
  {
    var message := Message(id, timestamp);
    Base64.Encode(message + [BAR] + sign(secret, message))
  }

  /** The three parts of an envelope: timestamp, payload text, signature. */
  function Parts(envelope: seq<Byte>): Option<(seq<Byte>, seq<Byte>, seq<Byte>)> {
    var first :- FirstBar(envelope);
    var second :- FirstBar(envelope[first + 1..]);
    if first > 0 && second > 0 then
      Some((envelope[..first], envelope[first + 1..][..second], envelope[first + 1..][second + 1..]))
    else
      None
  }

  function DecodedCookie(encoded: seq<Byte>, secret: seq<Byte>, now: int, sign: Signer): Option<nat> {
    if |encoded| > MAX_LENGTH || secret == [] then None
    else
      var envelope :- Decode64(encoded);
      var (timestamp, text, signature) :- Parts(envelope);
      if sign(secret, timestamp + [BAR] + text) != signature then None
      else if !AllDigits(timestamp) || DecimalValue(timestamp) > MAX_INT64 then None
      else if DecimalValue(timestamp) < now - MAX_AGE then None
      else
        var payload :- Decode64(text);
        ReadPayload(payload)
  }

  lemma DecodeEncoded64(bytes: seq<Byte>)
    ensures Decode64(Base64.Encode(bytes)) == Some(bytes)
  {
    Base64.RoundTrip(bytes);
  }

  lemma {:induction false} DigitsAvoidBar(value: nat)
    ensures BAR !in DecimalDigits(value)
  {
    DecimalRoundTrip(value);
  }

  /** The separators are found where they were written, whatever bytes the signature holds. */
  lemma PartsOfEnvelope(timestamp: nat, text: seq<Byte>, signature: seq<Byte>)
    requires text != [] && BAR !in text
    ensures Parts(DecimalDigits(timestamp) + [BAR] + text + [BAR] + signature)
            == Some((DecimalDigits(timestamp), text, signature))
  {
    hide DecimalDigits, Parts;
    JoinParts(DecimalDigits(timestamp), text, signature);
    DigitsAvoidBar(timestamp);
    PartsAround(DecimalDigits(timestamp), text, signature);
  }

  lemma PartsAround(digits: seq<Byte>, text: seq<Byte>, signature: seq<Byte>)
    requires digits != [] && BAR !in digits && text != [] && BAR !in text
    ensures Parts(digits + [BAR] + (text + [BAR] + signature)) == Some((digits, text, signature))
  {
    hide FirstBar;
    var rest := text + [BAR] + signature;
    var envelope := digits + [BAR] + rest;
    assert FirstBar(envelope) == Some(|digits|) && envelope[..|digits|] == digits && envelope[|digits| + 1..] == rest by {
      FirstBarAfter(digits, rest);
      AroundBar(digits, rest);
    }
    assert FirstBar(rest) == Some(|text|) && rest[..|text|] == text && rest[|text| + 1..] == signature by {
      FirstBarAfter(text, signature);
      AroundBar(text, signature);
    }
  }

  lemma AroundBar(front: seq<Byte>, back: seq<Byte>)
    ensures (front + [BAR] + back)[..|front|] == front
    ensures (front + [BAR] + back)[|front| + 1..] == back
  {}

  lemma FrameLength(content: seq<Byte>)
    requires |content| < 128
    ensures |FrameBytes(content)| == |content| + 1
  {}

  lemma CookieLength(id: nat, secret: seq<Byte>, timestamp: nat, sign: Signer)
    requires id <= MAX_INT32 && timestamp <= MAX_INT64 && |sign(secret, Message(id, timestamp))| == 32
    ensures |EncodedCookie(id, secret, timestamp, sign)| <= MAX_LENGTH
  {
    hide DecimalDigits, ValuesBytes, UintBytes;
    assert Power10(19) == 1_000_000_000 * Power10(10);
    DecimalLength(timestamp, 19);
    assert |FrameBytes(DECLARATION)| == 14 && |FrameBytes(ValuesBytes(id))| <= 41 by {
      FrameLength(DECLARATION);
      FrameLength(ValuesBytes(id));
    }
  }

  /**
   A cookie written for an id is read back as that id exactly until it is a year old, whatever its
   signature looks like.
   */
  lemma CookieRoundTrip(id: nat, secret: seq<Byte>, timestamp: nat, now: int, sign: Signer)
    requires 0 < id <= MAX_INT32 && timestamp <= MAX_INT64 && secret != []
    requires |sign(secret, Message(id, timestamp))| == 32
    ensures DecodedCookie(EncodedCookie(id, secret, timestamp, sign), secret, now, sign)
            == if now <= timestamp + MAX_AGE then Some(id) else None
  {
    hide ReadPayload, PayloadBytes, Parts, Decode64, DecimalDigits, DecimalValue, AllDigits;
    var digits, text := DecimalDigits(timestamp), Base64.Encode(PayloadBytes(id));
    var message := Message(id, timestamp);
    var signature := sign(secret, message);
    CookieLength(id, secret, timestamp, sign);
    DecodeEncoded64(message + [BAR] + signature);
    PayloadText(id);
    PartsOfEnvelope(timestamp, text, signature);
    assert message + [BAR] + signature == digits + [BAR] + text + [BAR] + signature;
    DecimalRoundTrip(timestamp);
    DecodeEncoded64(PayloadBytes(id));
    PayloadRoundTrip(id);
  }

  lemma PayloadText(id: nat)
    requires id <= MAX_INT32
    ensures var text := Base64.Encode(PayloadBytes(id)); text != [] && BAR !in text
  {
    Base64.EncodeAvoids(PayloadBytes(id), BAR);
    assert |PayloadBytes(id)| > 0;
  }

  /**
   Only what was signed is accepted: an accepted text is the encoding of a message in front of the
   digest of that very message under the secret, and the message carries a recent timestamp.
   */
  lemma AcceptedCookiesAreSigned(encoded: seq<Byte>, secret: seq<Byte>, now: int, sign: Signer)
    returns (timestamp: seq<Byte>, text: seq<Byte>)
    requires DecodedCookie(encoded, secret, now, sign).Some?
    ensures var message := timestamp + [BAR] + text;
            encoded == Base64.Encode(message + [BAR] + sign(secret, message))
    ensures AllDigits(timestamp) && now - MAX_AGE <= DecimalValue(timestamp) <= MAX_INT64
    ensures secret != [] && |encoded| <= MAX_LENGTH
    ensures 0 < DecodedCookie(encoded, secret, now, sign).value <= MAX_INT32
  {
    hide ReadPayload, FirstBar, Parts;
    var envelope := Decode64(encoded).value;
    var parts := Parts(envelope).value;
    timestamp, text := parts.0, parts.1;
    PartsJoin(envelope);
    ReadPayloadIsId(Decode64(text).value);
  }

  lemma PartsJoin(envelope: seq<Byte>)
    requires Parts(envelope).Some?
    ensures var (timestamp, text, signature) := Parts(envelope).value;
            envelope == timestamp + [BAR] + text + [BAR] + signature
  {
    hide FirstBar;
    var first := FirstBar(envelope).value;
    var rest := envelope[first + 1..];
    var second := FirstBar(rest).value;
    SplitAtBar(envelope, first);
    SplitAtBar(rest, second);
    JoinParts(envelope[..first], rest[..second], rest[second + 1..]);
  }

  lemma SplitAtBar(bytes: seq<Byte>, i: nat)
    requires i < |bytes| && bytes[i] == BAR
    ensures bytes == bytes[..i] + [BAR] + bytes[i + 1..]
  {}

  lemma JoinParts(a: seq<Byte>, b: seq<Byte>, c: seq<Byte>)
    ensures a + [BAR] + (b + [BAR] + c) == a + [BAR] + b + [BAR] + c
  {}

  lemma ReadPayloadIsId(payload: seq<Byte>)
    ensures ReadPayload(payload).Some? ==> 0 < ReadPayload(payload).value <= MAX_INT32
  {
    hide ReadInt, ReadFrame, Skip, SkipText, ReadDeclaration, ReadKey;
  }

  // ---------------------------------------------------------------------------------------------
  // The code's own procedures, which grow byte vectors and shrink the reader's slice.

  /** The last `count` bytes of a number, most significant first, leading zeros included. */
  function FixedBytes(value: nat, count: nat): (bytes: seq<Byte>)
    ensures |bytes| == count
  {
    if count == 0 then [] else FixedBytes(value / 256, count - 1) + [value % 256]
  }

  /** Dropping the leading zeros leaves the shortest form. */
  lemma {:induction false} FixedBytesShorten(value: nat, count: nat)
    requires value < Power256(count)
    ensures var zeros := count - |BigEndian(value)|;
            && zeros >= 0
            && FixedBytes(value, count)[zeros..] == BigEndian(value)
            && forall i :: 0 <= i < zeros ==> FixedBytes(value, count)[i] == 0
    ensures value > 0 ==> BigEndian(value)[0] != 0
  {
    if value > 0 {
      FixedBytesShorten(value / 256, count - 1);
    } else if count > 0 {
      FixedBytesShorten(0, count - 1);
    }
  }

  lemma LongForm(value: nat)
    requires 128 <= value < WORD
    ensures var zeros := 8 - |BigEndian(value)|;
            var fixed := FixedBytes(value, 8);
            && 0 <= zeros < 8 && fixed[zeros] != 0
            && (forall i :: 0 <= i < zeros ==> fixed[i] == 0)
            && UintBytes(value) == [256 - (8 - zeros)] + fixed[zeros..]
  {
    FixedBytesShorten(value, 8);
    BigEndianLength(value, 8);
    var zeros := 8 - |BigEndian(value)|;
    hide BigEndian, FixedBytes;
    assert FixedBytes(value, 8)[zeros..][0] == BigEndian(value)[0];
  }

  method WriteUint(value: nat) returns (bytes: seq<Byte>)
    requires value < WORD
    ensures bytes == UintBytes(value)
  {
    if value < 128 {
      return [value];
    }
    var fixed := FixedBytes(value, 8);
    LongForm(value);
    ghost var zeros := 8 - |BigEndian(value)|;
    hide BigEndian, FixedBytes, UintBytes;
    var start := 0;
    while start < 7 && fixed[start] == 0
      invariant start <= zeros
    {
      start := start + 1;
    }
    bytes := [256 - (8 - start)] + fixed[start..];
  }

  method WriteFrame(content: seq<Byte>) returns (bytes: seq<Byte>)
    requires |content| < WORD
    ensures bytes == FrameBytes(content)
  {
    bytes := WriteUint(|content|);
    bytes := bytes + content;
  }

  method WritePayload(id: nat) returns (payload: seq<Byte>)
    requires id <= MAX_INT32
    ensures payload == PayloadBytes(id)
  {
    hide UintBytes, NumberBytes;
    var bytes := WriteUint(128);
    TypeBytes();
    var declaration: seq<Byte> := [127, 4, 1, 2];
    declaration := declaration + bytes;
    declaration := declaration + [0, 1, 16, 1, 16, 0, 0];
    var values := WriteValues(id);
    payload := WriteFrame(declaration);
    bytes := WriteFrame(values);
    payload := payload + bytes;
  }

  method WriteValues(id: nat) returns (values: seq<Byte>)
    requires id <= MAX_INT32
    ensures values == ValuesBytes(id)
  {
    hide UintBytes, NumberBytes;
    values := WriteUint(128);
    TypeBytes();
    ShortFrames();
    values := values + [0, 1];
    var bytes := WriteFrame(STRING);
    values := values + bytes;
    values := values + [12];
    var key: seq<Byte> := [0];
    bytes := WriteFrame(USER_ID);
    key := key + bytes;
    bytes := WriteFrame(key);
    values := values + bytes;
    bytes := WriteFrame(INT);
    values := values + bytes;
    values := values + [4];
    var number := WriteNumber(id);
    bytes := WriteFrame(number);
    values := values + bytes;
  }

  method WriteNumber(id: nat) returns (number: seq<Byte>)
    requires id <= MAX_INT32
    ensures number == NumberBytes(id)
  {
    number := [0];
    var bytes := WriteUint(2 * id);
    number := number + bytes;
  }

  lemma TypeBytes()
    ensures UintBytes(128) == TYPE
  {
    assert BigEndian(128) == [128] by {
      assert BigEndian(0) == [];
    }
  }

  lemma ShortFrames()
    ensures FrameBytes(STRING) == [6] + STRING && FrameBytes(USER_ID) == [6] + USER_ID
    ensures FrameBytes(KEY) == [8] + KEY && FrameBytes(INT) == [3] + INT
  {}

  /** Writes a cookie, unless the id or the timestamp is not one a session can have. */
  method EncodeCookie(id: int, secret: seq<Byte>, timestamp: int, sign: Signer) returns (encoded: Option<seq<Byte>>)
    requires id <= MAX_INT32
    ensures encoded ==
            if 0 < id && 0 <= timestamp && secret != [] then Some(EncodedCookie(id, secret, timestamp, sign)) else None
  {
    if !(id > 0 && timestamp >= 0) || secret == [] {
      return None;
    }
    var payload := WritePayload(id);
    var message := DecimalDigits(timestamp) + [BAR] + Base64.Encode(payload);
    var envelope := message + [BAR];
    envelope := envelope + sign(secret, message);
    encoded := Some(Base64.Encode(envelope));
  }

  /** Reads a payload with one reader for each nested frame, stopping at the first surprise. */
  method DecodePayload(payload: seq<Byte>) returns (id: Option<nat>)
    ensures id == ReadPayload(payload)
  {
    hide ReadInt, ReadFrame, Skip, ReadKey, ReadNumber, SkipText, ReadValues;
    var stream := new Reader(payload);
    var declared := stream.Frame();
    if declared == None {
      return None;
    }
    var declaration := new Reader(declared.value);
    var negated := declaration.Int();
    if negated == None || !(64 <= -negated.value <= MAX_INT32) {
      return None;
    }
    var typeId := -negated.value;
    var ok := declaration.Bytes([4, 1, 2]);
    if !ok {
      return None;
    }
    var again := declaration.Int();
    if again != Some(typeId) {
      return None;
    }
    ok := declaration.Bytes([0, 1, 16, 1, 16, 0, 0]);
    if !ok || declaration.rest != [] {
      return None;
    }
    var values := stream.Frame();
    if values == None || stream.rest != [] {
      return None;
    }
    id := DecodeValues(values.value, typeId);
  }

  method DecodeValues(bytes: seq<Byte>, typeId: int) returns (id: Option<nat>)
    ensures id == ReadValues(bytes, typeId)
  {
    hide ReadInt, ReadFrame, Skip, ReadKey, ReadNumber, SkipText;
    var values := new Reader(bytes);
    var found := values.Int();
    if found != Some(typeId) {
      return None;
    }
    var ok := values.Bytes([0, 1]);
    if !ok {
      return None;
    }
    ok := values.Text(STRING);
    if !ok {
      return None;
    }
    var keyType := values.Int();
    if keyType != Some(6) {
      return None;
    }
    var key := values.Frame();
    if key == None || ReadKey(key.value) == None {
      return None;
    }
    ok := values.Text(INT);
    if !ok {
      return None;
    }
    var valueType := values.Int();
    if valueType != Some(2) {
      return None;
    }
    var number := values.Frame();
    if number == None || values.rest != [] {
      return None;
    }
    id := ReadNumber(number.value);
  }

  /** Reads a cookie, checking its signature and its age before looking at the payload. */
  method DecodeCookie(encoded: seq<Byte>, secret: seq<Byte>, now: int, sign: Signer) returns (id: Option<nat>)
    ensures id == DecodedCookie(encoded, secret, now, sign)
  {
    hide ReadPayload, Decode64, FirstBar, DecimalValue, AllDigits;
    if |encoded| > MAX_LENGTH {
      return None;
    }
    var envelope := Decode64(encoded);
    if envelope == None || secret == [] {
      return None;
    }
    var parts := Parts(envelope.value);
    if parts == None {
      return None;
    }
    var (timestamp, text, signature) := parts.value;
    if sign(secret, timestamp + [BAR] + text) != signature {
      return None;
    }
    if !AllDigits(timestamp) || DecimalValue(timestamp) > MAX_INT64 || DecimalValue(timestamp) < now - MAX_AGE {
      return None;
    }
    var payload := Decode64(text);
    if payload == None {
      return None;
    }
    id := DecodePayload(payload.value);
  }
}
