/** Unicode scalar values and their UTF-8 as section 3 of RFC 3629 encodes them, against which the syntax in `Utf8` is held. */
module Scalars {
  import opened Utf8

  /** A code point that is no surrogate. */
  predicate Scalar(n: int) {
    0 <= n <= 0x10FFFF && !(0xD800 <= n <= 0xDFFF)
  }

  function Encoded(n: int): (c: seq<byte>)
    requires Scalar(n)
    ensures 1 <= |c| <= 4
  {
    if n < 0x80 then [n as byte]
    else if n < 0x800 then [(0xC0 + n / 64) as byte, (0x80 + n % 64) as byte]
    else if n < 0x10000 then [(0xE0 + n / 64 / 64) as byte, (0x80 + n / 64 % 64) as byte, (0x80 + n % 64) as byte]
    else [(0xF0 + n / 64 / 64 / 64) as byte, (0x80 + n / 64 / 64 % 64) as byte, (0x80 + n / 64 % 64) as byte, (0x80 + n % 64) as byte]
  }

  function AllEncoded(scalars: seq<int>): seq<byte>
    requires forall n <- scalars :: Scalar(n)
  {
    if scalars == [] then [] else Encoded(scalars[0]) + AllEncoded(scalars[1..])
  }

  /** The bits of a character's bytes. */
  function Decoded(c: seq<byte>): int
    requires 1 <= |c| <= 4
  {
    if |c| == 1 then c[0] as int
    else if |c| == 2 then (c[0] as int - 0xC0) * 64 + (c[1] as int - 0x80)
    else if |c| == 3 then (c[0] as int - 0xE0) * 4096 + (c[1] as int - 0x80) * 64 + (c[2] as int - 0x80)
    else (c[0] as int - 0xF0) * 262144 + (c[1] as int - 0x80) * 4096 + (c[2] as int - 0x80) * 64 + (c[3] as int - 0x80)
  }

  lemma Split(n: int)
    requires n >= 0
    ensures n == n / 64 * 64 + n % 64 && 0 <= n % 64 < 64 && n / 64 >= 0
  {
  }

  lemma Joined(q: int, r: int)
    requires 0 <= r < 64 && q >= 0
    ensures (q * 64 + r) / 64 == q && (q * 64 + r) % 64 == r
  {
  }

  lemma EncodedIsChar(n: int)
    requires Scalar(n)
    ensures IsChar(Encoded(n)) && Decoded(Encoded(n)) == n
  {
    Split(n);
    Split(n / 64);
    Split(n / 64 / 64);
  }

  lemma DecodedIsScalar(c: seq<byte>)
    requires IsChar(c)
    ensures Scalar(Decoded(c)) && Encoded(Decoded(c)) == c
  {
    if |c| == 2 {
      Joined(c[0] as int - 0xC0, c[1] as int - 0x80);
    } else if |c| == 3 {
      DecodedOfThree(c);
    } else if |c| == 4 {
      DecodedOfFour(c);
    }
  }

  lemma DecodedOfThree(c: seq<byte>)
    requires IsChar(c) && |c| == 3
    ensures Scalar(Decoded(c)) && Encoded(Decoded(c)) == c
  {
    var q := (c[0] as int - 0xE0) * 64 + (c[1] as int - 0x80);
    Joined(c[0] as int - 0xE0, c[1] as int - 0x80);
    Joined(q, c[2] as int - 0x80);
    assert Decoded(c) == q * 64 + (c[2] as int - 0x80);
  }

  lemma DecodedOfFour(c: seq<byte>)
    requires IsChar(c) && |c| == 4
    ensures Scalar(Decoded(c)) && Encoded(Decoded(c)) == c
  {
    var p := (c[0] as int - 0xF0) * 64 + (c[1] as int - 0x80);
    var q := p * 64 + (c[2] as int - 0x80);
    Joined(c[0] as int - 0xF0, c[1] as int - 0x80);
    Joined(p, c[2] as int - 0x80);
    Joined(q, c[3] as int - 0x80);
    assert Decoded(c) == q * 64 + (c[3] as int - 0x80);
  }

  /** What the syntax takes for a character is the encoding of a scalar value, and of one only. */
  lemma {:induction false} CharsAreScalars(c: seq<byte>)
    ensures IsChar(c) <==> exists n :: Scalar(n) && c == Encoded(n)
    ensures forall n, m :: Scalar(n) && Scalar(m) && Encoded(n) == Encoded(m) ==> n == m
  {
    hide IsChar, Encoded, Decoded;
    if IsChar(c) {
      DecodedIsScalar(c);
    }
    forall n | Scalar(n) ensures IsChar(Encoded(n)) && Decoded(Encoded(n)) == n {
      EncodedIsChar(n);
    }
  }

  lemma {:induction false} EncodedIsValid(scalars: seq<int>)
    requires forall n <- scalars :: Scalar(n)
    ensures Valid(AllEncoded(scalars))
  {
    if scalars != [] {
      EncodedIsValid(scalars[1..]);
      EncodedIsChar(scalars[0]);
      hide Valid, IsChar, Encoded;
      ValidPrepend(Encoded(scalars[0]), AllEncoded(scalars[1..]));
    }
  }

  lemma {:induction false} ScalarsOf(s: seq<byte>) returns (scalars: seq<int>)
    requires Valid(s)
    ensures (forall n <- scalars :: Scalar(n)) && s == AllEncoded(scalars)
    decreases |s|
  {
    scalars := [];
    if s != [] {
      var c, rest := FirstChar(s);
      DecodedIsScalar(c);
      hide Valid, IsChar, Encoded, Decoded;
      var more := ScalarsOf(rest);
      scalars := [Decoded(c)] + more;
      assert scalars[1..] == more;
    }
  }

  /** Valid text is what some scalar values are encoded as, one after another. */
  lemma {:induction false} ValidIsEncoded(s: seq<byte>)
    ensures Valid(s) <==> exists scalars :: (forall n <- scalars :: Scalar(n)) && s == AllEncoded(scalars)
  {
    hide Valid, AllEncoded, Scalar;
    if Valid(s) {
      var scalars := ScalarsOf(s);
    }
    forall scalars | (forall n <- scalars :: Scalar(n)) ensures Valid(AllEncoded(scalars)) {
      EncodedIsValid(scalars);
    }
  }
}
