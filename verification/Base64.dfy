/** base64url (section 5 of RFC 4648) as the original's library encodes and decodes it, and
    joining and splitting text at a separator. */
module Base64 {
  import opened Tasks

  type Byte = b: int | 0 <= b < 256

  /** A group of six bits. */
  type Sextet = v: int | 0 <= v < 64

  // ---------- the alphabet ----------

  function Letter(v: Sextet): char {
    if v < 26 then 'A' + v as char
    else if v < 52 then 'a' + (v - 26) as char
    else if v < 62 then '0' + (v - 52) as char
    else if v == 62 then '-'
    else '_'
  }

  /** The decoder takes both alphabets: it turns `-` and `_` into `+` and `/` first. */
  function Value(c: char): Option<Sextet> {
    if 'A' <= c <= 'Z' then Some(c as int - 65)
    else if 'a' <= c <= 'z' then Some(c as int - 71)
    else if '0' <= c <= '9' then Some(c as int + 4)
    else if c == '-' || c == '+' then Some(62)
    else if c == '_' || c == '/' then Some(63)
    else None
  }

  // ---------- encoding ----------

  function First(x: Byte): Sextet {
    x / 4
  }

  function Second(x: Byte, y: Byte): Sextet {
    x % 4 * 16 + y / 16
  }

  function Third(y: Byte, z: Byte): Sextet {
    y % 16 * 4 + z / 64
  }

  function Fourth(z: Byte): Sextet {
    z % 64
  }

  /** The groups of six bits of some bytes, the last one filled up with zeros. */
  function Sextets(bs: seq<Byte>): seq<Sextet> {
    if |bs| == 0 then []
    else if |bs| == 1 then [First(bs[0]), Second(bs[0], 0)]
    else if |bs| == 2 then [First(bs[0]), Second(bs[0], bs[1]), Third(bs[1], 0)]
    else [First(bs[0]), Second(bs[0], bs[1]), Third(bs[1], bs[2]), Fourth(bs[2])] + Sextets(bs[3..])
  }

  function Letters(vs: seq<Sextet>): string {
    seq(|vs|, i requires 0 <= i < |vs| => Letter(vs[i]))
  }

  function Pads(n: nat): string {
    seq(n, _ => '=')
  }

  /** What it takes to make the length a multiple of four. */
  function Missing(n: int): nat {
    -n % 4
  }

  /** Without the padding, as in a JWT. */
  function EncodeBare(bs: seq<Byte>): string {
    Letters(Sextets(bs))
  }

  function Encode(bs: seq<Byte>): string {
    EncodeBare(bs) + Pads(if |bs| % 3 == 0 then 0 else 3 - |bs| % 3)
  }

  lemma {:induction false} SextetCount(bs: seq<Byte>)
    ensures |Sextets(bs)| == (4 * |bs| + 2) / 3
  {
    if |bs| >= 3 {
      SextetCount(bs[3..]);
    }
  }

  /** Table 2 of RFC 4648: the ends of its rows, and within a row one letter after the other; and
      each letter is read for its own place. */
  lemma LetterTable(v: Sextet)
    ensures Letter(0) == 'A' && Letter(25) == 'Z' && Letter(26) == 'a' && Letter(51) == 'z'
    ensures Letter(52) == '0' && Letter(61) == '9' && Letter(62) == '-' && Letter(63) == '_'
    ensures v !in {25, 51, 61, 62, 63} ==> Letter(v + 1) as int == Letter(v) as int + 1
    ensures Value(Letter(v)) == Some(v) && Value('+') == Some(62) && Value('/') == Some(63)
  {
  }

  /** The number these digits to the base 64 make. */
  function Number(a: int, b: int, c: int, d: int): int {
    262144 * a + 4096 * b + 64 * c + d
  }

  /** Three bytes and the four groups of bits written for them are the same number, and the rest is
      written on its own; the last one or two bytes are filled up with zero bits. */
  lemma GroupsAreBytes(bs: seq<Byte>)
    requires bs != []
    ensures
      var vs := Sextets(bs);
      if |bs| >= 3 then
        |vs| >= 4 && vs[4..] == Sextets(bs[3..])
        && Number(vs[0], vs[1], vs[2], vs[3]) == 256 * (256 * (bs[0] as int) + bs[1] as int) + bs[2] as int
      else if |bs| == 2 then
        |vs| == 3 && Number(vs[0], vs[1], vs[2], 0) == 256 * (256 * (bs[0] as int) + bs[1] as int)
      else
        |vs| == 2 && Number(vs[0], vs[1], 0, 0) == 256 * (256 * (bs[0] as int))
  {
  }

  predicate Separator(c: char) {
    c == '=' || c == '$' || c == '.'
  }

  /** No letter of an encoding is a pad or a separator. */
  lemma EncodeAlphabet(bs: seq<Byte>)
    ensures forall i | 0 <= i < |EncodeBare(bs)| :: !Separator(EncodeBare(bs)[i]) && EncodeBare(bs)[i] < 128 as char
    ensures forall i | 0 <= i < |Encode(bs)| ::
              Encode(bs)[i] != '$' && Encode(bs)[i] != '.' && Encode(bs)[i] < 128 as char
  {
    forall v: Sextet
      ensures !Separator(Letter(v)) && Letter(v) < 128 as char
    {
    }
  }

  /** Padding the bare form up to a multiple of four gives the whole encoding. */
  lemma PaddingRestored(bs: seq<Byte>)
    ensures EncodeBare(bs) + Pads(Missing(|EncodeBare(bs)|)) == Encode(bs)
  {
    SextetCount(bs);
    MissingIs(|bs|);
    var pads := if |bs| % 3 == 0 then 0 else 3 - |bs| % 3;
    assert Encode(bs) == EncodeBare(bs) + Pads(pads);
    assert Missing(|EncodeBare(bs)|) == pads;
  }

  lemma MissingIs(n: nat)
    ensures Missing((4 * n + 2) / 3) == if n % 3 == 0 then 0 else 3 - n % 3
  {
    var q, r := n / 3, n % 3;
    assert n == 3 * q + r;
    assert (4 * n + 2) / 3 == 4 * q + (if r == 0 then 0 else r + 1);
  }

  // ---------- decoding ----------

  /** Where the decoder is in a group of four, the bits it holds over, the pads it has just
      seen, and whether padding has ended the data. */
  datatype Scan = Scan(quad: nat, left: nat, pads: nat, out: seq<Byte>, over: bool)

  const BEGIN := Scan(0, 0, 0, [], false)

  predicate ScanValid(s: Scan) {
    s.quad < 4 && s.left < (if s.quad == 1 then 64 else if s.quad == 2 then 16 else if s.quad == 3 then 4 else 1)
  }

  /** Anything outside the alphabet is passed over. A pad counts from the third place of a
      group on, and two of them, or one in the fourth place, end the data. */
  function Fed(s: Scan, c: char): (t: Scan)
    requires ScanValid(s)
    ensures ScanValid(t)
  {
    if c == '=' then
      if s.quad < 2 then s else s.(pads := s.pads + 1, over := s.quad + s.pads + 1 >= 4)
    else
      match Value(c)
      case None => s
      case Some(v) =>
        match s.quad
        case 0 => Scan(1, v, 0, s.out, false)
        case 1 => Scan(2, v % 16, 0, s.out + [s.left * 4 + v / 16], false)
        case 2 => Scan(3, v % 4, 0, s.out + [s.left * 16 + v / 4], false)
        case _ => Scan(0, 0, 0, s.out + [s.left * 64 + v], false)
  }

  function Scanned(s: Scan, text: string): (t: Scan)
    requires ScanValid(s)
    ensures ScanValid(t)
    decreases |text|
  {
    if text == [] || s.over then s else Scanned(Fed(s, text[0]), text[1..])
  }

  /** None for text outside ASCII, and for data that stops inside a group without padding. */
  function Decode(text: string): Option<seq<Byte>> {
    if exists i | 0 <= i < |text| :: text[i] >= 128 as char then None
    else
      var t := Scanned(BEGIN, text);
      if t.over || t.quad == 0 then Some(t.out) else None
  }

  lemma {:induction false} ScannedAppend(s: Scan, a: string, b: string)
    requires ScanValid(s)
    ensures Scanned(s, a + b) == Scanned(Scanned(s, a), b)
    decreases |a|
  {
    if a == [] {
      assert a + b == b;
    } else if !s.over {
      assert (a + b)[1..] == a[1..] + b;
      ScannedAppend(Fed(s, a[0]), a[1..], b);
    }
  }

  lemma ScannedOne(s: Scan, c: char, rest: string)
    requires ScanValid(s) && !s.over
    ensures Scanned(s, [c] + rest) == Scanned(Fed(s, c), rest)
  {
    assert ([c] + rest)[1..] == rest;
  }

  /** The letter of a sextet is taken for that sextet. */
  lemma FedLetter(s: Scan, v: Sextet)
    requires ScanValid(s)
    ensures Fed(s, Letter(v)) == (
      match s.quad
      case 0 => Scan(1, v, 0, s.out, false)
      case 1 => Scan(2, v % 16, 0, s.out + [s.left * 4 + v / 16], false)
      case 2 => Scan(3, v % 4, 0, s.out + [s.left * 16 + v / 4], false)
      case _ => Scan(0, 0, 0, s.out + [s.left * 64 + v], false))
  {
  }

  /** Between groups, with these bytes out. */
  function Between(out: seq<Byte>): (s: Scan)
    ensures ScanValid(s)
  {
    Scan(0, 0, 0, out, false)
  }

  lemma OneByte(out: seq<Byte>, x: Byte, y: Byte)
    ensures Scanned(Between(out), [Letter(First(x)), Letter(Second(x, y))]) == Scan(2, y / 16, 0, out + [x], false)
  {
    var a, b := Letter(First(x)), Letter(Second(x, y));
    FedLetter(Between(out), First(x));
    FedLetter(Scan(1, First(x), 0, out, false), Second(x, y));
    assert [a, b] == [a] + ([b] + []);
    ScannedOne(Between(out), a, [b] + []);
    ScannedOne(Scan(1, First(x), 0, out, false), b, []);
  }

  lemma LastOfTwo(out: seq<Byte>, y: Byte, z: Byte)
    ensures Scanned(Scan(2, y / 16, 0, out, false), [Letter(Third(y, z))]) == Scan(3, z / 64, 0, out + [y], false)
  {
    var s, v := Scan(2, y / 16, 0, out, false), Third(y, z);
    FedLetter(s, v);
    assert v % 4 == z / 64 && s.left * 16 + v / 4 == y;
    ScannedOne(s, Letter(v), []);
    assert [Letter(v)] == [Letter(v)] + [];
  }

  lemma TwoBytes(out: seq<Byte>, x: Byte, y: Byte, z: Byte)
    ensures Scanned(Between(out), [Letter(First(x)), Letter(Second(x, y)), Letter(Third(y, z))])
            == Scan(3, z / 64, 0, out + [x, y], false)
  {
    var front, c := [Letter(First(x)), Letter(Second(x, y))], Letter(Third(y, z));
    assert front + [c] == [Letter(First(x)), Letter(Second(x, y)), Letter(Third(y, z))];
    ScannedAppend(Between(out), front, [c]);
    OneByte(out, x, y);
    LastOfTwo(out + [x], y, z);
    assert out + [x] + [y] == out + [x, y];
  }

  function Quartet(x: Byte, y: Byte, z: Byte): string {
    [Letter(First(x)), Letter(Second(x, y)), Letter(Third(y, z)), Letter(Fourth(z))]
  }

  lemma ThreeBytes(out: seq<Byte>, x: Byte, y: Byte, z: Byte)
    ensures Scanned(Between(out), Quartet(x, y, z)) == Between(out + [x, y, z])
  {
    var front, d := [Letter(First(x)), Letter(Second(x, y)), Letter(Third(y, z))], Letter(Fourth(z));
    assert front + [d] == Quartet(x, y, z);
    ScannedAppend(Between(out), front, [d]);
    TwoBytes(out, x, y, z);
    var s := Scan(3, z / 64, 0, out + [x, y], false);
    FedLetter(s, Fourth(z));
    ScannedOne(s, d, []);
    assert [d] == [d] + [];
    assert out + [x, y] + [z] == out + [x, y, z];
  }

  /** Two pads after two letters, or one after three, end the data. */
  lemma PadsEnd(s: Scan)
    requires ScanValid(s) && s.quad >= 2 && s.pads == 0 && !s.over
    ensures Scanned(s, Pads(4 - s.quad)).over && Scanned(s, Pads(4 - s.quad)).out == s.out
  {
    if s.quad == 3 {
      assert Pads(1) == ['='] + [];
      ScannedOne(s, '=', []);
    } else {
      assert Pads(2) == ['='] + (['='] + []);
      ScannedOne(s, '=', ['='] + []);
      ScannedOne(Fed(s, '='), '=', []);
    }
  }

  lemma TailScanned(out: seq<Byte>, bs: seq<Byte>)
    requires |bs| == 1 || |bs| == 2
    ensures var t := Scanned(Between(out), Encode(bs)); t.out == out + bs && t.over
  {
    var letters := EncodeBare(bs);
    ScannedAppend(Between(out), letters, Pads(3 - |bs|));
    var s := Scanned(Between(out), letters);
    if |bs| == 1 {
      assert letters == [Letter(First(bs[0])), Letter(Second(bs[0], 0))];
      OneByte(out, bs[0], 0);
      assert bs == [bs[0]];
    } else {
      assert letters == [Letter(First(bs[0])), Letter(Second(bs[0], bs[1])), Letter(Third(bs[1], 0))];
      TwoBytes(out, bs[0], bs[1], 0);
      assert bs == [bs[0], bs[1]];
    }
    PadsEnd(s);
  }

  lemma EncodeSplits(bs: seq<Byte>)
    requires |bs| >= 3
    ensures Encode(bs) == Quartet(bs[0], bs[1], bs[2]) + Encode(bs[3..])
  {
    var front := [First(bs[0]), Second(bs[0], bs[1]), Third(bs[1], bs[2]), Fourth(bs[2])];
    assert Sextets(bs) == front + Sextets(bs[3..]);
    assert Letters(front) == Quartet(bs[0], bs[1], bs[2]);
  }

  lemma QuartetScanned(out: seq<Byte>, bs: seq<Byte>)
    requires |bs| >= 3
    ensures Scanned(Between(out), Encode(bs)) == Scanned(Between(out + bs[..3]), Encode(bs[3..]))
  {
    EncodeSplits(bs);
    ScannedAppend(Between(out), Quartet(bs[0], bs[1], bs[2]), Encode(bs[3..]));
    ThreeBytes(out, bs[0], bs[1], bs[2]);
    assert bs[..3] == [bs[0], bs[1], bs[2]];
  }

  /** The scan of an encoding has all the bytes out, and is between groups or told by the
      padding that the data is over. */
  lemma {:induction false} EncodeScanned(out: seq<Byte>, bs: seq<Byte>)
    ensures var t := Scanned(Between(out), Encode(bs)); t.out == out + bs && (t.over || t.quad == 0)
    decreases |bs|
  {
    if |bs| == 0 {
      assert Encode(bs) == [] && out + bs == out;
    } else if |bs| < 3 {
      TailScanned(out, bs);
    } else {
      QuartetScanned(out, bs);
      EncodeScanned(out + bs[..3], bs[3..]);
      assert out + bs[..3] + bs[3..] == out + bs;
    }
  }

  /** Decoding an encoding gives the bytes back. */
  lemma RoundTrip(bs: seq<Byte>)
    ensures Decode(Encode(bs)) == Some(bs)
  {
    EncodeAlphabet(bs);
    EncodeScanned([], bs);
    assert [] + bs == bs;
  }
}
