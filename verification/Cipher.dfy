/** The keystream of format v1, an HMAC in counter mode, and the exclusive or that applies it. */
module Cipher {
  import opened Tasks
  import opened Base64

  // ---------- exclusive or ----------

  /** Bit by bit, from the lowest. */
  function Xor(a: nat, b: nat): nat
    decreases a + b
  {
    if a == 0 && b == 0 then 0 else (a + b) % 2 + 2 * Xor(a / 2, b / 2)
  }

  lemma BitAndRest(bit: nat, rest: nat)
    requires bit < 2
    ensures (bit + 2 * rest) % 2 == bit && (bit + 2 * rest) / 2 == rest
  {
  }

  lemma Parity(a: nat, b: nat, x: nat)
    requires x % 2 == (a + b) % 2
    ensures (x + b) % 2 == a % 2
  {
  }

  lemma {:induction false} XorTwice(a: nat, b: nat)
    ensures Xor(Xor(a, b), b) == a
    decreases a + b
  {
    if a != 0 || b != 0 {
      var x := Xor(a, b);
      XorTwice(a / 2, b / 2);
      BitAndRest((a + b) % 2, Xor(a / 2, b / 2));
      Parity(a, b, x);
      BitAndRest((x + b) % 2, Xor(x / 2, b / 2));
    }
  }

  lemma {:induction false} XorBelow(a: nat, b: nat, k: nat)
    requires a < PowerOfTwo(k) && b < PowerOfTwo(k)
    ensures Xor(a, b) < PowerOfTwo(k)
    decreases k
  {
    if k > 0 && (a != 0 || b != 0) {
      XorBelow(a / 2, b / 2, k - 1);
    }
  }

  /** Bit i, counted from the lowest. */
  function Bit(n: nat, i: nat): nat {
    n / PowerOfTwo(i) % 2
  }

  lemma MultipleGrows(p: nat, k: int)
    ensures k >= 1 ==> p * k >= p
    ensures k <= -1 ==> p * k + p <= 0
  {
    if k >= 1 {
      assert p * k == p * (k - 1) + p;
    } else if k <= -1 {
      assert p * k == p * (k + 1) - p;
    }
  }

  lemma Quotient(x: nat, p: nat, q: nat, r: nat)
    requires x == p * q + r && r < p
    ensures x / p == q
  {
    var d := x / p;
    assert x == p * d + x % p;
    assert p * (d - q) == p * d - p * q;
    MultipleGrows(p, d - q);
  }

  lemma Grouped(c: nat, p: nat, q: nat)
    ensures (c * p) * q == c * (p * q)
  {
  }

  /** Dividing by a product is dividing twice. */
  lemma DividedTwice(n: nat, c: nat, p: nat, m: nat)
    requires c >= 1 && p >= 1 && m == c * p && m >= 1
    ensures n / m == n / c / p
  {
    var h, q, r := n / c, n / c / p, n / c % p;
    Parts(n, c);
    Parts(h, p);
    Grouped(c, p, q);
    Below(c, p, r, n % c);
    Spread(c, p * q, r);
    Quotient(n, m, q, c * r + n % c);
  }

  lemma Parts(n: nat, c: nat)
    requires c >= 1
    ensures n == c * (n / c) + n % c
  {
  }

  lemma Spread(c: nat, x: nat, y: nat)
    ensures c * (x + y) == c * x + c * y
  {
  }

  lemma Below(c: nat, p: nat, r: nat, s: nat)
    requires r < p && s < c
    ensures c * r + s < c * p
  {
    Spread(c, r, p - r);
    MultipleGrows(c, p - r);
  }

  lemma BitOfHalf(n: nat, i: nat)
    ensures Bit(n, i + 1) == Bit(n / 2, i)
  {
    DividedTwice(n, 2, PowerOfTwo(i), PowerOfTwo(i + 1));
  }

  lemma XorParts(a: nat, b: nat)
    ensures Xor(a, b) % 2 == (a + b) % 2 && Xor(a, b) / 2 == Xor(a / 2, b / 2)
  {
    BitAndRest((a + b) % 2, Xor(a / 2, b / 2));
  }

  lemma LowestXor(a: nat, b: nat)
    ensures Bit(Xor(a, b), 0) == 1 <==> (Bit(a, 0) == 1) != (Bit(b, 0) == 1)
  {
    XorParts(a, b);
    assert PowerOfTwo(0) == 1;
  }

  lemma HigherXor(a: nat, b: nat, i: nat)
    ensures Bit(Xor(a, b), i + 1) == Bit(Xor(a / 2, b / 2), i)
  {
    XorParts(a, b);
    BitOfHalf(Xor(a, b), i);
  }

  /** Bit by bit it is what it is called: one or the other, not both. */
  lemma {:induction false} XorBits(a: nat, b: nat, i: nat)
    ensures Bit(Xor(a, b), i) == 1 <==> (Bit(a, i) == 1) != (Bit(b, i) == 1)
    decreases i
  {
    if i == 0 {
      LowestXor(a, b);
    } else {
      XorBits(a / 2, b / 2, i - 1);
      BitOfHalf(a, i - 1);
      BitOfHalf(b, i - 1);
      HigherXor(a, b, i - 1);
    }
  }

  function XorByte(a: Byte, b: Byte): Byte {
    XorBelow(a, b, 8);
    Xor(a, b)
  }

  /** As long as the shorter of the two. */
  function XorAll(data: seq<Byte>, pad: seq<Byte>): seq<Byte> {
    seq(if |data| <= |pad| then |data| else |pad|, i requires 0 <= i < |data| && i < |pad| => XorByte(data[i], pad[i]))
  }

  /** Bit i of this byte is bit i of one of the other two, and not of both. */
  ghost predicate Differ(x: Byte, a: Byte, b: Byte) {
    forall i: nat | i < 8 :: Bit(x, i) == 1 <==> (Bit(a, i) == 1) != (Bit(b, i) == 1)
  }

  /** At every place the result has exactly the bits in which data and pad differ. */
  lemma XorAllDiffers(data: seq<Byte>, pad: seq<Byte>, j: nat)
    requires |data| <= |pad| && j < |data|
    ensures |XorAll(data, pad)| == |data| && Differ(XorAll(data, pad)[j], data[j], pad[j])
  {
    forall i: nat | i < 8
      ensures Bit(XorAll(data, pad)[j], i) == 1 <==> (Bit(data[j], i) == 1) != (Bit(pad[j], i) == 1)
    {
      XorBits(data[j], pad[j], i);
    }
  }

  /** A pad that covers the data takes itself off again. */
  lemma XorAllTwice(data: seq<Byte>, pad: seq<Byte>)
    requires |data| <= |pad|
    ensures XorAll(XorAll(data, pad), pad) == data
  {
    var once := XorAll(data, pad);
    forall i | 0 <= i < |data|
      ensures XorAll(once, pad)[i] == data[i]
    {
      XorTwice(data[i], pad[i]);
    }
  }

  // ---------- the keystream ----------

  type Digest = d: seq<Byte> | |d| == 32 witness seq(32, _ => 0)

  type Hmac = (seq<Byte>, seq<Byte>) -> Digest

  function BigEndian(n: nat, width: nat): (bs: seq<Byte>)
    ensures |bs| == width
  {
    if width == 0 then [] else BigEndian(n / 256, width - 1) + [n % 256]
  }

  /** How many counters fit into eight bytes. */
  const COUNTERS: nat := 0x1_0000_0000_0000_0000

  function Block(hmac: Hmac, key: seq<Byte>, nonce: seq<Byte>, counter: nat): Digest {
    hmac(key, nonce + BigEndian(counter, 8))
  }

  function Blocks(hmac: Hmac, key: seq<Byte>, nonce: seq<Byte>, n: nat): (bs: seq<Byte>)
    ensures |bs| == 32 * n
  {
    if n == 0 then [] else Blocks(hmac, key, nonce, n - 1) + Block(hmac, key, nonce, n - 1)
  }

  /** The first `length` bytes of the block stream, or None where the counters run out. */
  function KeystreamOf(hmac: Hmac, key: seq<Byte>, nonce: seq<Byte>, length: nat): Option<seq<Byte>> {
    if length > 32 * COUNTERS then None else Some(Blocks(hmac, key, nonce, (length + 31) / 32)[..length])
  }

  method Keystream(hmac: Hmac, key: seq<Byte>, nonce: seq<Byte>, length: nat) returns (stream: Option<seq<Byte>>)
    ensures stream == KeystreamOf(hmac, key, nonce, length)
  {
    var out: seq<Byte> := [];
    var counter := 0;
    while |out| < length
      invariant out == Blocks(hmac, key, nonce, counter)
      invariant counter <= COUNTERS && 32 * counter < length + 32
      decreases length + 32 - 32 * counter
    {
      if counter == COUNTERS {
        return None;
      }
      out := out + hmac(key, nonce + BigEndian(counter, 8));
      counter := counter + 1;
    }
    assert counter == (length + 31) / 32;
    return Some(out[..length]);
  }

  lemma {:induction false} BlocksAt(hmac: Hmac, key: seq<Byte>, nonce: seq<Byte>, n: nat, i: nat)
    requires i < 32 * n
    ensures Blocks(hmac, key, nonce, n)[i] == Block(hmac, key, nonce, i / 32)[i % 32]
  {
    if i < 32 * (n - 1) {
      BlocksAt(hmac, key, nonce, n - 1, i);
    } else {
      assert i / 32 == n - 1;
    }
  }

  function PowerOfByte(width: nat): (n: nat)
    ensures n >= 1
  {
    if width == 0 then 1 else 256 * PowerOfByte(width - 1)
  }

  /** The digits of n to the base 256, the highest first. */
  lemma {:induction false} BigEndianDigits(n: nat, width: nat, j: nat)
    requires j < width
    ensures BigEndian(n, width)[j] == n / PowerOfByte(width - 1 - j) % 256
    decreases width
  {
    if j < width - 1 {
      BigEndianDigits(n / 256, width - 1, j);
      DividedTwice(n, 256, PowerOfByte(width - 2 - j), PowerOfByte(width - 1 - j));
    }
  }

  lemma {:induction false} BigEndianDistinct(a: nat, b: nat, width: nat)
    requires a < PowerOfByte(width) && b < PowerOfByte(width)
    requires BigEndian(a, width) == BigEndian(b, width)
    ensures a == b
    decreases width
  {
    if width > 0 {
      var x, y := BigEndian(a / 256, width - 1), BigEndian(b / 256, width - 1);
      assert (x + [a % 256])[width - 1] == (y + [b % 256])[width - 1];
      assert x == (x + [a % 256])[..width - 1] == (y + [b % 256])[..width - 1] == y;
      BigEndianDistinct(a / 256, b / 256, width - 1);
    }
  }

  /** Byte i of the stream is byte i % 32 of the MAC of the nonce and the counter i / 32, whatever
      the length asked for; and no two blocks of one stream are computed from the same input. */
  lemma KeystreamBytes(hmac: Hmac, key: seq<Byte>, nonce: seq<Byte>, length: nat, i: nat, j: nat)
    requires i < length && j < length <= 32 * COUNTERS
    ensures |KeystreamOf(hmac, key, nonce, length).value| == length
    ensures KeystreamOf(hmac, key, nonce, length).value[i] == hmac(key, nonce + BigEndian(i / 32, 8))[i % 32]
    ensures nonce + BigEndian(i / 32, 8) == nonce + BigEndian(j / 32, 8) <==> i / 32 == j / 32
  {
    BlocksAt(hmac, key, nonce, (length + 31) / 32, i);
    if nonce + BigEndian(i / 32, 8) == nonce + BigEndian(j / 32, 8) {
      var x, y := BigEndian(i / 32, 8), BigEndian(j / 32, 8);
      assert x == (nonce + x)[|nonce|..] == (nonce + y)[|nonce|..] == y;
      BigEndianDistinct(i / 32, j / 32, 8);
    }
  }
}
