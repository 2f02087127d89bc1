/** Reading a JWT's claims without verifying it (section 2 of RFC 7515), and the JWT-shaped
    token the demo target makes. JSON is a pair of functions this model is given. */
module Jwt {
  import opened Tasks
  import opened Base64
  import opened Text

  datatype Claims<T> = Claims(claims: T) | NotAJwt | NotJson

  /** Trailing pads removed. */
  function Stripped(text: string): string {
    if text != [] && text[|text| - 1] == '=' then Stripped(text[..|text| - 1]) else text
  }

  function Segment(payload: seq<Byte>): string {
    Stripped(Encode(payload))
  }

  function Repadded(text: string): string {
    text + Pads(Missing(|text|))
  }

  function JwtClaims<T>(parse: seq<Byte> -> Option<T>, token: string): Claims<T> {
    var parts := Split(token, '.');
    if |parts| != 3 then NotAJwt
    else
      match Decode(Repadded(parts[1]))
      case None => NotJson
      case Some(payload) =>
        match parse(payload)
        case None => NotJson
        case Some(claims) => Claims(claims)
  }

  function FakeJwt<T>(dump: T -> seq<Byte>, header: T, body: T): string {
    Join([Segment(dump(header)), Segment(dump(body)), "fake-signature"], '.')
  }

  lemma {:induction false} StripPads(text: string, n: nat)
    requires Free(text, '=')
    ensures Stripped(text + Pads(n)) == text
  {
    var padded := text + Pads(n);
    if n == 0 {
      assert padded == text;
    } else {
      assert padded[..|padded| - 1] == text + Pads(n - 1);
      StripPads(text, n - 1);
    }
  }

  /** For all bytes: encoding, stripping the padding, restoring it by length and decoding
      gives the bytes back, and the stripped form holds no pad and no dot. */
  lemma SegmentRoundTrip(payload: seq<Byte>)
    ensures Decode(Repadded(Segment(payload))) == Some(payload)
    ensures Segment(payload) == EncodeBare(payload) && Free(Segment(payload), '.') && Free(Segment(payload), '=')
  {
    EncodeAlphabet(payload);
    PaddingRestored(payload);
    StripPads(EncodeBare(payload), Missing(|EncodeBare(payload)|));
    RoundTrip(payload);
  }

  /** Whatever stands before and after it, a payload segment is read back exactly when
      neither neighbour holds a dot; with a dot too many it is no JWT at all. */
  lemma PayloadIsRead<T>(parse: seq<Byte> -> Option<T>, header: string, payload: seq<Byte>, signature: string)
    ensures
      var token := Join([header, Segment(payload), signature], '.');
      JwtClaims(parse, token) ==
      if !Free(header, '.') || !Free(signature, '.') then NotAJwt
      else if parse(payload).None? then NotJson
      else Claims(parse(payload).value)
  {
    SegmentRoundTrip(payload);
    var parts := [header, Segment(payload), signature];
    SplitJoin(parts, '.');
    if !Free(header, '.') || !Free(signature, '.') {
      SplitCount(Join(parts, '.'), '.');
      DotsInJoin(header, Segment(payload), signature);
    }
  }

  lemma {:induction false} OccurrencesAppend(a: string, b: string, c: char)
    ensures Occurrences(a + b, c) == Occurrences(a, c) + Occurrences(b, c)
  {
    if a == [] {
      assert a + b == b;
    } else {
      assert (a + b)[1..] == a[1..] + b;
      OccurrencesAppend(a[1..], b, c);
    }
  }

  lemma {:induction false} NoneFree(s: string, c: char)
    ensures Occurrences(s, c) == 0 <==> Free(s, c)
  {
    if s != [] {
      NoneFree(s[1..], c);
      assert forall i | 1 <= i < |s| :: s[i] == s[1..][i - 1];
    }
  }

  lemma DotsInJoin(a: string, b: string, c: string)
    ensures Occurrences(Join([a, b, c], '.'), '.') == 2 <==> Free(a, '.') && Free(b, '.') && Free(c, '.')
  {
    assert [a, b, c][1..] == [b, c] && [b, c][1..] == [c];
    assert Join([b, c], '.') == b + ['.'] + c;
    assert Join([a, b, c], '.') == a + ['.'] + (b + ['.'] + c);
    OccurrencesAppend(a + ['.'], b + ['.'] + c, '.');
    OccurrencesAppend(a, ['.'], '.');
    OccurrencesAppend(b + ['.'], c, '.');
    OccurrencesAppend(b, ['.'], '.');
    NoneFree(a, '.');
    NoneFree(b, '.');
    NoneFree(c, '.');
  }

  /** Whatever is in it, text is taken for a JWT if and only if it has exactly two dots. */
  lemma NotAJwtExactly<T>(parse: seq<Byte> -> Option<T>, token: string)
    ensures JwtClaims(parse, token) == NotAJwt <==> Occurrences(token, '.') != 2
  {
    SplitCount(token, '.');
  }

  /** The claims of the demo's token are the payload it was made with. */
  lemma FakeJwtIsRead<T>(parse: seq<Byte> -> Option<T>, dump: T -> seq<Byte>, header: T, body: T)
    requires parse(dump(body)) == Some(body)
    ensures JwtClaims(parse, FakeJwt(dump, header, body)) == Claims(body)
  {
    SegmentRoundTrip(dump(header));
    PayloadIsRead(parse, Segment(dump(header)), dump(body), "fake-signature");
  }
}
