/**
 * The strict streaming UTF-8 decoder that text attachments are run through
 * (Encoding Standard, section 8.1.1), without the characters it produces, and
 * what it accepts: exactly the encodings of Unicode scalar values (RFC 3629).
 */
module Utf8 {
  import opened ByteStreams

  /** more: continuation bytes still missing; the next one lies between lower and upper. */
  datatype State = Awaiting(more: nat, lower: Byte, upper: Byte) | Refused

  const READY := Awaiting(0, 0x80, 0xBF)

  function Feed(u: State, b: Byte): State {
    if u.Refused? then Refused
    else if u.more > 0 then if u.lower <= b <= u.upper then Awaiting(u.more - 1, 0x80, 0xBF) else Refused
    else if b < 0x80 then READY
    else if 0xC2 <= b <= 0xDF then Awaiting(1, 0x80, 0xBF)
    else if b == 0xE0 then Awaiting(2, 0xA0, 0xBF)
    else if b == 0xED then Awaiting(2, 0x80, 0x9F)
    else if 0xE1 <= b <= 0xEF then Awaiting(2, 0x80, 0xBF)
    else if b == 0xF0 then Awaiting(3, 0x90, 0xBF)
    else if b == 0xF4 then Awaiting(3, 0x80, 0x8F)
    else if 0xF1 <= b <= 0xF3 then Awaiting(3, 0x80, 0xBF)
    else Refused
  }

  function FeedAll(u: State, bytes: Bytes): State
    decreases |bytes|
  {
    if bytes == [] then u else FeedAll(Feed(u, bytes[0]), bytes[1..])
  }

  /** Decoding a stream piece by piece is decoding the whole, wherever the pieces are cut. */
  lemma {:induction false} FeedAllSplits(u: State, a: Bytes, b: Bytes)
    ensures FeedAll(u, a + b) == FeedAll(FeedAll(u, a), b)
    decreases a
  {
    if a == [] {
      assert a + b == b;
    } else {
      assert (a + b)[1..] == a[1..] + b;
      FeedAllSplits(Feed(u, a[0]), a[1..], b);
    }
  }

  lemma {:induction false} RefusedForGood(bytes: Bytes)
    ensures FeedAll(Refused, bytes) == Refused
  {
    if bytes != [] { RefusedForGood(bytes[1..]); }
  }

  /** The decoder takes all the bytes and is not waiting for more. */
  predicate WellFormed(bytes: Bytes) { FeedAll(READY, bytes) == READY }

  // ---- What is accepted ------------------------------------------------------

  /** Code points other than surrogates. */
  type Scalar = c: int | 0 <= c < 0xD800 || 0xE000 <= c < 0x110000

  function Encode(c: Scalar): (bytes: Bytes)
    ensures 1 <= |bytes| <= 4
  {
    if c < 0x80 then [c]
    else if c < 0x800 then [0xC0 + c / 0x40, 0x80 + c % 0x40]
    else if c < 0x10000 then [0xE0 + c / 0x1000, 0x80 + c / 0x40 % 0x40, 0x80 + c % 0x40]
    else [0xF0 + c / 0x40000, 0x80 + c / 0x1000 % 0x40, 0x80 + c / 0x40 % 0x40, 0x80 + c % 0x40]
  }

  function EncodeAll(cs: seq<Scalar>): Bytes {
    if cs == [] then [] else Encode(cs[0]) + EncodeAll(cs[1..])
  }

  lemma FeedTwo(u: State, a: Byte, b: Byte)
    ensures FeedAll(u, [a, b]) == Feed(Feed(u, a), b)
  {
    assert [a, b][1..] == [b] && [b][1..] == [];
    assert FeedAll(Feed(u, a), [b]) == FeedAll(Feed(Feed(u, a), b), []);
  }

  lemma FeedThree(u: State, a: Byte, b: Byte, c: Byte)
    ensures FeedAll(u, [a, b, c]) == Feed(Feed(Feed(u, a), b), c)
  {
    assert [a, b, c][1..] == [b, c];
    FeedTwo(Feed(u, a), b, c);
  }

  lemma FeedFour(u: State, a: Byte, b: Byte, c: Byte, d: Byte)
    ensures FeedAll(u, [a, b, c, d]) == Feed(Feed(Feed(Feed(u, a), b), c), d)
  {
    assert [a, b, c, d][1..] == [b, c, d];
    FeedThree(Feed(u, a), b, c, d);
  }

  lemma ThreeAreAccepted(c: Scalar)
    requires 0x800 <= c < 0x10000
    ensures WellFormed(Encode(c))
  {
    var e := Encode(c);
    var high := c / 0x40;
    assert 0x20 <= high < 0x400 && c / 0x1000 == high / 0x40 && high == high / 0x40 * 0x40 + high % 0x40;
    assert high < 0x360 || 0x380 <= high;
    FeedThree(READY, e[0], e[1], e[2]);
  }

  lemma FourAreAccepted(c: Scalar)
    requires 0x10000 <= c
    ensures WellFormed(Encode(c))
  {
    var e := Encode(c);
    var top := c / 0x1000;
    assert 0x10 <= top < 0x110 && c / 0x40000 == top / 0x40 && top == top / 0x40 * 0x40 + top % 0x40;
    FeedFour(READY, e[0], e[1], e[2], e[3]);
  }

  lemma OneIsAccepted(c: Scalar)
    ensures WellFormed(Encode(c))
  {
    if 0x10000 <= c {
      FourAreAccepted(c);
    } else if 0x800 <= c {
      ThreeAreAccepted(c);
    } else if 0x80 <= c {
      FeedTwo(READY, Encode(c)[0], Encode(c)[1]);
    }
  }

  lemma {:induction false} EncodingsAreAccepted(cs: seq<Scalar>)
    ensures WellFormed(EncodeAll(cs))
  {
    if cs != [] {
      EncodingsAreAccepted(cs[1..]);
      OneIsAccepted(cs[0]);
      FeedAllSplits(READY, Encode(cs[0]), EncodeAll(cs[1..]));
    }
  }

  /** The decoder got through: the byte at n was one it was ready for, and it gets through the rest. */
  lemma Continues(u: State, bytes: Bytes, n: nat)
    requires n <= |bytes| && FeedAll(u, bytes[n..]) == READY && u != READY
    ensures u.Awaiting? && n < |bytes| && FeedAll(Feed(u, bytes[n]), bytes[n + 1..]) == READY
    ensures u.more > 0 ==> u.lower <= bytes[n] <= u.upper && Feed(u, bytes[n]) == Awaiting(u.more - 1, 0x80, 0xBF)
  {
    if u.Refused? { RefusedForGood(bytes[n..]); }
    assert bytes[n..][1..] == bytes[n + 1..];
    if u.more > 0 && !(u.lower <= bytes[n] <= u.upper) { RefusedForGood(bytes[n + 1..]); }
  }

  lemma TwoBytes(a: Byte, b: Byte) returns (c: Scalar)
    requires 0xC2 <= a <= 0xDF && 0x80 <= b <= 0xBF
    ensures Encode(c) == [a, b]
  {
    c := (a - 0xC0) * 0x40 + (b - 0x80);
    assert c / 0x40 == a - 0xC0;
  }

  lemma ThreeBytes(a: Byte, b: Byte, d: Byte) returns (c: Scalar)
    requires 0xE0 <= a <= 0xEF && 0x80 <= b <= 0xBF && 0x80 <= d <= 0xBF
    requires (a == 0xE0 ==> b >= 0xA0) && (a == 0xED ==> b <= 0x9F)
    ensures Encode(c) == [a, b, d]
  {
    var high := (a - 0xE0) * 0x40 + (b - 0x80);
    c := high * 0x40 + (d - 0x80);
    assert c / 0x40 == high && high / 0x40 == a - 0xE0 && high % 0x40 == b - 0x80;
    assert c / 0x1000 == a - 0xE0;
  }

  lemma FourBytes(a: Byte, b: Byte, d: Byte, e: Byte) returns (c: Scalar)
    requires 0xF0 <= a <= 0xF4 && 0x80 <= b <= 0xBF && 0x80 <= d <= 0xBF && 0x80 <= e <= 0xBF
    requires (a == 0xF0 ==> b >= 0x90) && (a == 0xF4 ==> b <= 0x8F)
    ensures Encode(c) == [a, b, d, e]
  {
    var top := (a - 0xF0) * 0x40 + (b - 0x80);
    var high := top * 0x40 + (d - 0x80);
    c := high * 0x40 + (e - 0x80);
    assert c / 0x40 == high && high / 0x40 == top && high % 0x40 == d - 0x80;
    assert c / 0x1000 == top && top % 0x40 == b - 0x80;
    assert c / 0x40000 == a - 0xF0;
  }

  /** The bytes that begin an accepted stream encode one scalar value. */
  lemma FirstScalar(bytes: Bytes) returns (c: Scalar)
    requires bytes != [] && WellFormed(bytes)
    ensures Encode(c) <= bytes && WellFormed(bytes[|Encode(c)|..])
  {
    var u := Feed(READY, bytes[0]);
    if u == READY {
      c := bytes[0];
    } else {
      Continues(u, bytes, 1);
      if u.more == 1 {
        c := TwoBytes(bytes[0], bytes[1]);
      } else {
        Continues(Awaiting(u.more - 1, 0x80, 0xBF), bytes, 2);
        if u.more == 2 {
          c := ThreeBytes(bytes[0], bytes[1], bytes[2]);
        } else {
          Continues(Awaiting(u.more - 2, 0x80, 0xBF), bytes, 3);
          c := FourBytes(bytes[0], bytes[1], bytes[2], bytes[3]);
        }
      }
    }
  }

  lemma {:induction false} AcceptedIsEncoding(bytes: Bytes) returns (cs: seq<Scalar>)
    requires WellFormed(bytes)
    ensures EncodeAll(cs) == bytes
    decreases |bytes|
  {
    cs := [];
    if bytes != [] {
      var c := FirstScalar(bytes);
      var rest := AcceptedIsEncoding(bytes[|Encode(c)|..]);
      cs := [c] + rest;
      assert bytes == Encode(c) + bytes[|Encode(c)|..];
    }
  }

  /** The decoder accepts exactly the encodings of sequences of Unicode scalar values. */
  lemma WellFormedIffEncoding(bytes: Bytes)
    ensures WellFormed(bytes) <==> exists cs :: EncodeAll(cs) == bytes
  {
    if WellFormed(bytes) { var cs := AcceptedIsEncoding(bytes); }
    forall cs | EncodeAll(cs) == bytes ensures WellFormed(bytes) { EncodingsAreAccepted(cs); }
  }

  // ---- Text ------------------------------------------------------------------

  /** What is asked of a text file: no zero byte, and well-formed to its end. */
  predicate CleanText(bytes: Bytes) { 0 !in bytes && WellFormed(bytes) }

  /** A file that begins badly is not clean text, whatever follows. */
  lemma BadStart(start: Bytes, bytes: Bytes)
    requires start <= bytes && (0 in start || FeedAll(READY, start).Refused?)
    ensures !CleanText(bytes)
  {
    assert bytes == start + bytes[|start|..];
    FeedAllSplits(READY, start, bytes[|start|..]);
    RefusedForGood(bytes[|start|..]);
  }

  lemma {:induction false} ZeroStaysZero(cs: seq<Scalar>)
    ensures 0 in EncodeAll(cs) <==> 0 in cs
  {
    if cs != [] {
      ZeroStaysZero(cs[1..]);
      assert cs == [cs[0]] + cs[1..];
      assert Encode(cs[0])[0] == 0 <==> cs[0] == 0;
    }
  }

  /** A clean text file is the encoding of Unicode scalar values other than zero, and nothing else is. */
  lemma CleanIffEncoding(bytes: Bytes)
    ensures CleanText(bytes) <==> exists cs :: 0 !in cs && EncodeAll(cs) == bytes
  {
    if CleanText(bytes) {
      var cs := AcceptedIsEncoding(bytes);
      ZeroStaysZero(cs);
    }
    forall cs | 0 !in cs && EncodeAll(cs) == bytes ensures CleanText(bytes) {
      EncodingsAreAccepted(cs);
      ZeroStaysZero(cs);
    }
  }
}
