/** The persisted form of the cart. The browser stores the cart as JSON text under the
    key 'talktoshop_cart'; the model replaces the text by a flat sequence of tokens, with an
    injective encoding and a partial decoding (decoding fails on anything that is not the
    encoding of a list of cart lines). The encoding starts with the number of lines, so
    even the empty cart encodes to a non-empty value, as "[]" is a non-empty string. */
module CartSnapshot {
  import opened Common
  import opened Types

  datatype Token = TNum(n: int) | TStr(s: string) | TNull

  /** The value stored under the cart's key. */
  type Stored = seq<Token>

  function EncodeStrings(xs: seq<string>): seq<Token>
  {
    if xs == [] then [] else [TStr(xs[0])] + EncodeStrings(xs[1..])
  }

  function EncodeColors(colors: Option<seq<string>>): seq<Token>
  {
    match colors
    case None => [TNull]
    case Some(xs) => [TNum(|xs|)] + EncodeStrings(xs)
  }

  function EncodeItem(l: CartItem): seq<Token>
  {
    [TStr(l.id), TStr(l.name), TNum(l.price), TNum(l.quantity), TStr(l.imageUrl), TStr(l.vendor)]
      + EncodeColors(l.colors)
  }

  function EncodeItems(c: seq<CartItem>): seq<Token>
  {
    if c == [] then [] else EncodeItem(c[0]) + EncodeItems(c[1..])
  }

  /** JSON.stringify(cart). */
  function Encode(c: seq<CartItem>): (t: Stored)
    ensures t != []
  {
    [TNum(|c|)] + EncodeItems(c)
  }

  function DecodeStrings(t: seq<Token>, n: nat): Option<(seq<string>, seq<Token>)>
    decreases n
  {
    if n == 0 then Some(([], t))
    else if t == [] || !t[0].TStr? then None
    else match DecodeStrings(t[1..], n - 1)
      case None => None
      case Some((xs, rest)) => Some(([t[0].s] + xs, rest))
  }

  function DecodeColors(t: seq<Token>): Option<(Option<seq<string>>, seq<Token>)>
  {
    if t == [] then None
    else match t[0]
      case TNull => Some((None, t[1..]))
      case TStr(_) => None
      case TNum(n) =>
        if n < 0 then None
        else match DecodeStrings(t[1..], n)
          case None => None
          case Some((xs, rest)) => Some((Some(xs), rest))
  }

  function DecodeItem(t: seq<Token>): Option<(CartItem, seq<Token>)>
  {
    if |t| < 6 || !t[0].TStr? || !t[1].TStr? || !t[2].TNum? || !t[3].TNum? || !t[4].TStr? || !t[5].TStr? then None
    else match DecodeColors(t[6..])
      case None => None
      case Some((colors, rest)) =>
        Some((CartItem(t[0].s, t[1].s, t[2].n, t[3].n, t[4].s, t[5].s, colors), rest))
  }

  function DecodeItems(t: seq<Token>, n: nat): Option<(seq<CartItem>, seq<Token>)>
    decreases n
  {
    if n == 0 then Some(([], t))
    else match DecodeItem(t)
      case None => None
      case Some((item, rest)) =>
        match DecodeItems(rest, n - 1)
        case None => None
        case Some((items, rest')) => Some(([item] + items, rest'))
  }

  /** JSON.parse(text) for text that should hold a cart: None when it does not. */
  function Decode(t: Stored): Option<seq<CartItem>>
  {
    if t == [] || !t[0].TNum? || t[0].n < 0 then None
    else match DecodeItems(t[1..], t[0].n)
      case Some((c, rest)) => if rest == [] then Some(c) else None
      case None => None
  }

  lemma {:induction false} StringsRoundTrip(xs: seq<string>, rest: seq<Token>)
    ensures DecodeStrings(EncodeStrings(xs) + rest, |xs|) == Some((xs, rest))
  {
    if xs != [] {
      var t := EncodeStrings(xs) + rest;
      assert t[0] == TStr(xs[0]);
      assert t[1..] == EncodeStrings(xs[1..]) + rest;
      StringsRoundTrip(xs[1..], rest);
      assert [xs[0]] + xs[1..] == xs;
    } else {
      assert EncodeStrings(xs) + rest == rest;
    }
  }

  lemma ColorsRoundTrip(colors: Option<seq<string>>, rest: seq<Token>)
    ensures DecodeColors(EncodeColors(colors) + rest) == Some((colors, rest))
  {
    var t := EncodeColors(colors) + rest;
    match colors
    case None =>
      assert t[1..] == rest;
    case Some(xs) =>
      assert t[1..] == EncodeStrings(xs) + rest;
      StringsRoundTrip(xs, rest);
  }

  lemma ItemRoundTrip(l: CartItem, rest: seq<Token>)
    ensures DecodeItem(EncodeItem(l) + rest) == Some((l, rest))
  {
    var t := EncodeItem(l) + rest;
    assert t[6..] == EncodeColors(l.colors) + rest;
    ColorsRoundTrip(l.colors, rest);
  }

  lemma {:induction false} ItemsRoundTrip(c: seq<CartItem>, rest: seq<Token>)
    ensures DecodeItems(EncodeItems(c) + rest, |c|) == Some((c, rest))
  {
    if c != [] {
      var tail := EncodeItems(c[1..]) + rest;
      assert EncodeItems(c) + rest == EncodeItem(c[0]) + tail;
      ItemRoundTrip(c[0], tail);
      ItemsRoundTrip(c[1..], rest);
      assert [c[0]] + c[1..] == c;
    } else {
      assert EncodeItems(c) + rest == rest;
    }
  }

  /** Restoring what was persisted gives back the very same cart, field for field,
      including a line whose colour list is empty and a line with no colour list. */
  lemma RoundTrip(c: seq<CartItem>)
    ensures Decode(Encode(c)) == Some(c)
  {
    var t := Encode(c);
    assert t[1..] == EncodeItems(c) + [];
    ItemsRoundTrip(c, []);
  }

  /** Two different carts are never persisted as the same value. */
  lemma EncodeInjective(a: seq<CartItem>, b: seq<CartItem>)
    requires Encode(a) == Encode(b)
    ensures a == b
  {
    RoundTrip(a);
    RoundTrip(b);
  }
}
