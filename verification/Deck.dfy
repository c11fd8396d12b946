/** The archive's form of a custom deck: a length byte, then a byte for each card. */
module Deck {
  import opened Common
  import opened Model

  predicate Encodable(c: Card) {
    0 <= c.suit < 6 && (1 <= c.rank <= 5 || c.rank == 7)
  }

  function CardByte(c: Card): Byte
    requires Encodable(c)
  {
    c.suit * 8 + c.rank
  }

  /** The bytes of a deck, if it has any. */
  function Encoded(deck: seq<Card>): Option<seq<Byte>> {
    if 1 <= |deck| <= 60 && (forall c <- deck :: Encodable(c)) then
      Some([0x80 + |deck|] + seq(|deck|, i requires 0 <= i < |deck| && (forall c <- deck :: Encodable(c)) => CardByte(deck[i])))
    else None
  }

  method EncodeDeck(deck: seq<Card>) returns (bytes: Option<seq<Byte>>)
    ensures bytes == Encoded(deck)
  {
    if deck == [] || |deck| > 60 {
      return None;
    }
    var out: seq<Byte> := [0x80 + |deck|];
    for i := 0 to |deck|
      invariant |out| == i + 1 && out[0] == 0x80 + |deck|
      invariant forall k :: 0 <= k < i ==> Encodable(deck[k]) && out[k + 1] == CardByte(deck[k])
    {
      var c := deck[i];
      if !(0 <= c.suit < 6 && (1 <= c.rank <= 5 || c.rank == 7)) {
        assert c in deck;
        return None;
      }
      out := out + [c.suit * 8 + c.rank];
    }
    assert out == [0x80 + |deck|] + seq(|deck|, i requires 0 <= i < |deck| && (forall c <- deck :: Encodable(c)) => CardByte(deck[i])) by {
      assert forall c <- deck :: Encodable(c);
    }
    bytes := Some(out);
  }

  method DecodeDeck(bytes: seq<Byte>) returns (deck: Option<seq<Card>>)
    ensures deck.Some? ==> Encoded(deck.value) == Some(bytes)
    ensures deck.None? ==> forall d {:trigger Encoded(d)} :: Encoded(d) != Some(bytes)
  {
    if !(2 <= |bytes| <= 61 && bytes[0] == 0x80 + |bytes| - 1) {
      return None;
    }
    var cards: seq<Card> := [];
    for i := 1 to |bytes|
      invariant |cards| == i - 1
      invariant forall k :: 0 <= k < i - 1 ==> cards[k] == CardOf(bytes[k + 1])
    {
      cards := cards + [Card(bytes[i] / 8, bytes[i] % 8)];
    }
    var again := EncodeDeck(cards);
    if again.None? {
      forall d: seq<Card> {:trigger Encoded(d)}
        ensures Encoded(d) != Some(bytes)
      {
        if Encoded(d) == Some(bytes) {
          OnlyDeck(d, bytes, cards);
        }
      }
      return None;
    }
    BytesDeck(cards, bytes);
    deck := Some(cards);
  }

  function CardOf(b: Byte): Card {
    Card(b / 8, b % 8)
  }

  lemma CardReadsBack(c: Card)
    requires Encodable(c)
    ensures CardOf(CardByte(c)) == c
  {}

  /** Every deck is determined by its bytes, so reading back what was written gives the same deck. */
  lemma OnlyDeck(deck: seq<Card>, bytes: seq<Byte>, cards: seq<Card>)
    requires Encoded(deck) == Some(bytes)
    requires |cards| == |bytes| - 1 && forall k :: 0 <= k < |cards| ==> cards[k] == CardOf(bytes[k + 1])
    ensures cards == deck
  {
    hide CardOf, CardByte;
    forall k | 0 <= k < |deck|
      ensures cards[k] == deck[k]
    {
      assert deck[k] in deck;
      CardReadsBack(deck[k]);
      assert bytes[k + 1] == CardByte(deck[k]);
    }
  }

  lemma EncodingIsInjective(a: seq<Card>, b: seq<Card>)
    requires Encoded(a).Some? && Encoded(a) == Encoded(b)
    ensures a == b
  {
    hide CardOf, CardByte;
    var bytes := Encoded(a).value;
    forall k | 0 <= k < |a|
      ensures a[k] == CardOf(bytes[k + 1])
    {
      assert a[k] in a;
      CardReadsBack(a[k]);
      assert bytes[k + 1] == CardByte(a[k]);
    }
    OnlyDeck(b, bytes, a);
  }

  lemma BytesDeck(cards: seq<Card>, bytes: seq<Byte>)
    requires Encoded(cards).Some? && |bytes| == |cards| + 1 && bytes[0] == 0x80 + |cards|
    requires forall k :: 0 <= k < |cards| ==> cards[k] == CardOf(bytes[k + 1])
    ensures Encoded(cards) == Some(bytes)
  {
    var out := Encoded(cards).value;
    forall j | 1 <= j < |out|
      ensures out[j] == bytes[j]
    {
      assert cards[j - 1] == CardOf(bytes[j - 1 + 1]) && cards[j - 1] in cards;
    }
    assert out == bytes;
  }
}
