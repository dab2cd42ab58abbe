/**
 * The vault's base64url codec (section 5 of RFC 4648, unpadded), built like the
 * source from the runtime's padded base64 by replacing two letters and dropping
 * or restoring the padding, and the key pattern checked at startup.
 */
module Base64Url {
  import opened Wrappers

  const MAX_ENVELOPE: nat := 24 * 1024

  /** Two bits. Binary and sextets are both whole numbers of them, most significant first. */
  type Digit = d: int | 0 <= d < 4

  datatype Octet = Octet(a: Digit, b: Digit, c: Digit, d: Digit)

  datatype Sextet = Sextet(a: Digit, b: Digit, c: Digit)

  type Binary = seq<Octet>

  // ---- Letters ---------------------------------------------------------------

  function Number(v: Sextet): (n: int)
    ensures 0 <= n < 64
  {
    16 * v.a + 4 * v.b + v.c
  }

  function OfNumber(n: int): (v: Sextet)
    requires 0 <= n < 64
    ensures Number(v) == n
  {
    assert n == n / 4 * 4 + n % 4 && n / 4 == n / 16 * 4 + n / 4 % 4;
    Sextet(n / 16, n / 4 % 4, n % 4)
  }

  lemma NumberInjective(u: Sextet, v: Sextet)
    ensures Number(u) == Number(v) ==> u == v
  {}

  /** The standard alphabet. */
  function Letter(v: Sextet): char {
    var n := Number(v);
    if n < 26 then 'A' + n as char
    else if n < 52 then 'a' + (n - 26) as char
    else if n < 62 then '0' + (n - 52) as char
    else if n == 62 then '+' else '/'
  }

  function NumberOf(c: char): (n: Option<int>)
    ensures n.Some? ==> 0 <= n.value < 64
  {
    if 'A' <= c <= 'Z' then Some((c - 'A') as int)
    else if 'a' <= c <= 'z' then Some((c - 'a') as int + 26)
    else if '0' <= c <= '9' then Some((c - '0') as int + 52)
    else if c == '+' then Some(62) else if c == '/' then Some(63) else None
  }

  lemma LetterRoundTrip(v: Sextet)
    ensures NumberOf(Letter(v)) == Some(Number(v))
  {}

  function UrlSafe(c: char): char { if c == '+' then '-' else if c == '/' then '_' else c }

  function Standard(c: char): char { if c == '-' then '+' else if c == '_' then '/' else c }

  /** [A-Za-z0-9_-] */
  predicate InAlphabet(c: char) { 'A' <= c <= 'Z' || 'a' <= c <= 'z' || '0' <= c <= '9' || c == '_' || c == '-' }

  // ---- Bits ------------------------------------------------------------------

  /** Three bytes are four sextets; a short last group is filled up with zero bits. */
  function Sextets(b: Binary): seq<Sextet> {
    if |b| == 0 then []
    else if |b| == 1 then [Sextet(b[0].a, b[0].b, b[0].c), Sextet(b[0].d, 0, 0)]
    else if |b| == 2 then
      [Sextet(b[0].a, b[0].b, b[0].c), Sextet(b[0].d, b[1].a, b[1].b), Sextet(b[1].c, b[1].d, 0)]
    else
      [Sextet(b[0].a, b[0].b, b[0].c), Sextet(b[0].d, b[1].a, b[1].b), Sextet(b[1].c, b[1].d, b[2].a),
       Sextet(b[2].b, b[2].c, b[2].d)]
      + Sextets(b[3..])
  }

  /** The bits of a short last group that do not fill a byte are discarded; a single sextet fills none. */
  function Octets(v: seq<Sextet>): Binary {
    if |v| <= 1 then []
    else if |v| == 2 then [Octet(v[0].a, v[0].b, v[0].c, v[1].a)]
    else if |v| == 3 then [Octet(v[0].a, v[0].b, v[0].c, v[1].a), Octet(v[1].b, v[1].c, v[2].a, v[2].b)]
    else
      [Octet(v[0].a, v[0].b, v[0].c, v[1].a), Octet(v[1].b, v[1].c, v[2].a, v[2].b),
       Octet(v[2].c, v[3].a, v[3].b, v[3].c)]
      + Octets(v[4..])
  }

  lemma {:induction false} Lengths(b: Binary)
    ensures |Sextets(b)| == (4 * |b| + 2) / 3 && |Sextets(b)| % 4 != 1
  {
    if |b| > 2 { Lengths(b[3..]); }
  }

  lemma {:induction false} OctetsLength(v: seq<Sextet>)
    requires |v| % 4 != 1
    ensures |Octets(v)| == 3 * |v| / 4
  {
    if |v| > 3 { OctetsLength(v[4..]); }
  }

  lemma {:induction false} OctetsOfSextets(b: Binary)
    ensures Octets(Sextets(b)) == b
  {
    if |b| > 2 {
      OctetsOfSextets(b[3..]);
      assert Sextets(b)[4..] == Sextets(b[3..]);
    }
  }

  /** The bits nobody reads are zero. */
  predicate Clean(v: seq<Sextet>) {
    && (|v| % 4 == 2 ==> v[|v| - 1].b == 0 && v[|v| - 1].c == 0)
    && (|v| % 4 == 3 ==> v[|v| - 1].c == 0)
  }

  lemma SextetsOfThree(x: Octet, y: Octet, z: Octet, rest: Binary)
    ensures Sextets([x, y, z] + rest) ==
      [Sextet(x.a, x.b, x.c), Sextet(x.d, y.a, y.b), Sextet(y.c, y.d, z.a), Sextet(z.b, z.c, z.d)] + Sextets(rest)
  {
    var b := [x, y, z] + rest;
    assert b[0] == x && b[1] == y && b[2] == z && b[3..] == rest;
  }

  lemma OctetsOfFour(p: Sextet, q: Sextet, r: Sextet, t: Sextet, rest: seq<Sextet>)
    ensures Octets([p, q, r, t] + rest) ==
      [Octet(p.a, p.b, p.c, q.a), Octet(q.b, q.c, r.a, r.b), Octet(r.c, t.a, t.b, t.c)] + Octets(rest)
  {
    var v := [p, q, r, t] + rest;
    assert v[0] == p && v[1] == q && v[2] == r && v[3] == t && v[4..] == rest;
  }

  lemma GroupOfOctets(p: Sextet, q: Sextet, r: Sextet, t: Sextet, rest: seq<Sextet>)
    ensures Sextets(Octets([p, q, r, t] + rest)) == [p, q, r, t] + Sextets(Octets(rest))
  {
    OctetsOfFour(p, q, r, t, rest);
    var (x, y, z) := (Octet(p.a, p.b, p.c, q.a), Octet(q.b, q.c, r.a, r.b), Octet(r.c, t.a, t.b, t.c));
    SextetsOfThree(x, y, z, Octets(rest));
  }

  /** A last group of two or three sextets. */
  lemma ShortGroup(v: seq<Sextet>)
    requires |v| == 2 || |v| == 3
    ensures Sextets(Octets(v)) == v <==> Clean(v)
  {
    var o := Octets(v);
    if |v| == 2 {
      assert Sextets(o) == [v[0], Sextet(v[1].a, 0, 0)] && v == [v[0], v[1]];
      assert Sextets(o) == v <==> Sextets(o)[1] == v[1];
    } else {
      assert Sextets(o) == [v[0], v[1], Sextet(v[2].a, v[2].b, 0)] && v == [v[0], v[1], v[2]];
      assert Sextets(o) == v <==> Sextets(o)[2] == v[2];
    }
  }

  lemma CleanIsInTheTail(v: seq<Sextet>)
    requires |v| >= 4 && |v| % 4 != 1
    ensures Clean(v) <==> Clean(v[4..])
  {
    assert |v| == 4 || v[4..][|v| - 5] == v[|v| - 1];
  }

  lemma {:induction false} SextetsOfOctets(v: seq<Sextet>)
    requires |v| % 4 != 1
    ensures Sextets(Octets(v)) == v <==> Clean(v)
    decreases v
  {
    if |v| >= 4 {
      SextetsOfOctets(v[4..]);
      CleanIsInTheTail(v);
      GroupOfOctets(v[0], v[1], v[2], v[3], v[4..]);
      var first := [v[0], v[1], v[2], v[3]];
      var rest := Sextets(Octets(v[4..]));
      assert v == first + v[4..] && (first + rest)[4..] == rest;
    } else if v != [] {
      ShortGroup(v);
    }
  }

  // ---- The runtime's functions ------------------------------------------------

  function Letters(v: seq<Sextet>): string { seq(|v|, i requires 0 <= i < |v| => Letter(v[i])) }

  function Padding(n: nat): string { seq(n, _ => '=') }

  function Btoa(b: Binary): string { Letters(Sextets(b)) + Padding((3 - |b| % 3) % 3) }

  predicate AllStandard(s: string) { forall i | 0 <= i < |s| :: NumberOf(s[i]).Some? }

  function Values(s: string): (v: seq<Sextet>)
    requires AllStandard(s)
  {
    seq(|s|, i requires 0 <= i < |s| => OfNumber(NumberOf(s[i]).value))
  }

  function Unpadded(s: string): string {
    if |s| > 1 && |s| % 4 == 0 && s[|s| - 1] == '=' then
      if s[|s| - 2] == '=' then s[..|s| - 2] else s[..|s| - 1]
    else s
  }

  /** Forgiving base64 decoding: up to two padding characters, left-over bits ignored. */
  function Atob(s: string): Option<Binary> {
    var t := Unpadded(s);
    if |t| % 4 == 1 || !AllStandard(t) then None else Some(Octets(Values(t)))
  }

  // ---- The codec ----------------------------------------------------------------

  function Replaced(s: string, f: char -> char): string { seq(|s|, i requires 0 <= i < |s| => f(s[i])) }

  function Stripped(s: string): string
    decreases s
  {
    if s != [] && s[|s| - 1] == '=' then Stripped(s[..|s| - 1]) else s
  }

  function Encode(b: Binary): string { Stripped(Replaced(Btoa(b), UrlSafe)) }

  predicate Acceptable(s: string) {
    s != [] && (forall i | 0 <= i < |s| :: InAlphabet(s[i])) && |s| % 4 != 1 && |s| <= MAX_ENVELOPE
  }

  /** Alphabet and length first, then the runtime's decoder, and only canonical spellings. */
  function Decode(s: string): Option<Binary> {
    if !Acceptable(s) then None
    else
      var binary := Atob(Replaced(s, Standard) + Padding((4 - |s| % 4) % 4));
      if binary.None? || Encode(binary.value) != s then None else binary
  }

  /** The decoder's characters are copied into a byte array one by one. */
  method Copied(binary: Binary) returns (bytes: Binary)
    ensures bytes == binary
  {
    var decoded := new Octet[|binary|];
    var index := 0;
    while index < |binary|
      invariant 0 <= index <= |binary| && decoded[..index] == binary[..index]
    {
      decoded[index] := binary[index];
      index := index + 1;
    }
    bytes := decoded[..];
  }

  /** Decoding as the vault does it. */
  method DecodeBase64Url(s: string) returns (decoded: Option<Binary>)
    ensures decoded == Decode(s)
  {
    if !Acceptable(s) { return None; }
    var binary := Atob(Replaced(s, Standard) + Padding((4 - |s| % 4) % 4));
    if binary.None? { return None; }
    var bytes := Copied(binary.value);
    decoded := if Encode(bytes) == s then Some(bytes) else None;
  }

  // ---- What the codec computes ----------------------------------------------------

  function UrlLetters(v: seq<Sextet>): string { seq(|v|, i requires 0 <= i < |v| => UrlSafe(Letter(v[i]))) }

  lemma {:induction false} PaddingIsStripped(s: string, n: nat)
    requires s == [] || s[|s| - 1] != '='
    ensures Stripped(s + Padding(n)) == s
    decreases n
  {
    if n == 0 {
      assert s + Padding(n) == s;
    } else {
      assert (s + Padding(n))[..|s| + n - 1] == s + Padding(n - 1);
      PaddingIsStripped(s, n - 1);
    }
  }

  lemma ReplacedConcat(s: string, t: string, f: char -> char)
    ensures Replaced(s + t, f) == Replaced(s, f) + Replaced(t, f)
  {}

  lemma ReplacedPadding(n: nat)
    ensures Replaced(Padding(n), UrlSafe) == Padding(n)
  {
    var p := Padding(n);
    forall i | 0 <= i < n ensures Replaced(p, UrlSafe)[i] == p[i] { assert p[i] == '=' && UrlSafe(p[i]) == '='; }
  }

  /** Encoding is the alphabet applied to the sextets, without padding. */
  lemma EncodeIsUnpadded(b: Binary)
    ensures Encode(b) == UrlLetters(Sextets(b))
  {
    var n := (3 - |b| % 3) % 3;
    var letters := UrlLetters(Sextets(b));
    ReplacedConcat(Letters(Sextets(b)), Padding(n), UrlSafe);
    assert Replaced(Letters(Sextets(b)), UrlSafe) == letters;
    ReplacedPadding(n);
    assert forall i | 0 <= i < |letters| :: letters[i] != '=';
    PaddingIsStripped(letters, n);
  }

  function SextetOf(c: char): (v: Sextet)
    requires InAlphabet(c)
    ensures UrlSafe(Letter(v)) == c && NumberOf(Standard(c)) == Some(Number(v))
  {
    OfNumber(NumberOf(Standard(c)).value)
  }

  function SextetsIn(s: string): (v: seq<Sextet>)
    requires forall i | 0 <= i < |s| :: InAlphabet(s[i])
    ensures |v| == |s| && UrlLetters(v) == s
    ensures forall i | 0 <= i < |s| :: v[i] == SextetOf(s[i])
  {
    var v := seq(|s|, i requires 0 <= i < |s| => SextetOf(s[i]));
    assert UrlLetters(v) == s;
    v
  }

  lemma UnpaddedRestores(t: string, n: nat)
    requires n <= 2 && (|t| + n) % 4 == 0 && (forall i | 0 <= i < |t| :: t[i] != '=') && t != []
    ensures Unpadded(t + Padding(n)) == t
  {}

  lemma ValuesAreSextets(s: string)
    requires forall i | 0 <= i < |s| :: InAlphabet(s[i])
    ensures var t := Replaced(s, Standard);
      AllStandard(t) && Values(t) == SextetsIn(s) && forall i | 0 <= i < |t| :: t[i] != '='
  {
    var t := Replaced(s, Standard);
    forall i | 0 <= i < |t| ensures NumberOf(t[i]) == Some(Number(SextetsIn(s)[i])) && t[i] != '=' {
      assert SextetsIn(s)[i] == SextetOf(s[i]);
    }
    forall i | 0 <= i < |t| ensures Values(t)[i] == SextetsIn(s)[i] { NumberInjective(Values(t)[i], SextetsIn(s)[i]); }
  }

  /** On acceptable strings the runtime's decoder reads exactly the sextets. */
  lemma AtobReadsSextets(s: string)
    requires Acceptable(s)
    ensures Atob(Replaced(s, Standard) + Padding((4 - |s| % 4) % 4)) == Some(Octets(SextetsIn(s)))
  {
    ValuesAreSextets(s);
    UnpaddedRestores(Replaced(s, Standard), (4 - |s| % 4) % 4);
  }

  lemma UrlLettersInjective(u: seq<Sextet>, v: seq<Sextet>)
    requires UrlLetters(u) == UrlLetters(v)
    ensures u == v
  {
    forall i | 0 <= i < |u| ensures u[i] == v[i] {
      assert UrlLetters(u)[i] == UrlLetters(v)[i];
      LetterRoundTrip(u[i]);
      LetterRoundTrip(v[i]);
      NumberInjective(u[i], v[i]);
    }
  }

  lemma CanonicalIffClean(s: string, v: seq<Sextet>)
    requires |v| % 4 != 1 && UrlLetters(v) == s
    ensures Encode(Octets(v)) == s <==> Clean(v)
  {
    EncodeIsUnpadded(Octets(v));
    SextetsOfOctets(v);
    if Encode(Octets(v)) == s { UrlLettersInjective(Sextets(Octets(v)), v); }
  }

  /** What decodes, and to what. */
  lemma DecodeReadsCleanSextets(s: string)
    ensures Decode(s) == if Acceptable(s) && Clean(SextetsIn(s)) then Some(Octets(SextetsIn(s))) else None
  {
    if Acceptable(s) {
      AtobReadsSextets(s);
      CanonicalIffClean(s, SextetsIn(s));
    }
  }

  // ---- Main results --------------------------------------------------------

  /**
   * Decoding an encoding gives the bytes back, except for the empty string and
   * for more than 18432 bytes, whose encodings the decoder refuses.
   */
  lemma RoundTrip(b: Binary)
    ensures Decode(Encode(b)) == if 0 < |b| <= 18432 then Some(b) else None
  {
    var s := Encode(b);
    EncodeIsUnpadded(b);
    OctetsOfSextets(b);
    Lengths(b);
    forall i | 0 <= i < |s| ensures InAlphabet(s[i]) {}
    UrlLettersInjective(SextetsIn(s), Sextets(b));
    SextetsOfOctets(Sextets(b));
    DecodeReadsCleanSextets(s);
    assert Acceptable(s) <==> 0 < |b| <= 18432;
  }

  /** The empty byte string is encoded, but its encoding is not decoded. */
  lemma EmptyDoesNotRoundTrip()
    ensures Encode([]) == [] && Decode(Encode([])) == None
  {
    EncodeIsUnpadded([]);
    RoundTrip([]);
  }

  /** Only canonical spellings are accepted: exactly the encodings of 1 to 18432 bytes. */
  lemma AcceptsOnlyEncodings(s: string)
    ensures Decode(s).Some? <==> exists b: Binary :: 0 < |b| <= 18432 && Encode(b) == s
  {
    if Decode(s).Some? {
      var b := Decode(s).value;
      assert Encode(b) == s;
      RoundTrip(b);
    }
    forall b: Binary | 0 < |b| <= 18432 && Encode(b) == s ensures Decode(s).Some? { RoundTrip(b); }
  }

  /** [AEIMQUYcgkosw048] */
  predicate IsLastLetter(c: char) {
    || c == 'A' || c == 'E' || c == 'I' || c == 'M' || c == 'Q' || c == 'U' || c == 'Y'
    || c == 'c' || c == 'g' || c == 'k' || c == 'o' || c == 's' || c == 'w'
    || c == '0' || c == '4' || c == '8'
  }

  /** [A-Za-z0-9_-]{42}[AEIMQUYcgkosw048] */
  predicate KeyPattern(s: string) {
    && |s| == 43 && (forall i | 0 <= i < 42 :: InAlphabet(s[i]))
    && IsLastLetter(s[42])
  }

  lemma LastLetterNumbers(c: char)
    requires InAlphabet(c)
    ensures IsLastLetter(c) <==> NumberOf(Standard(c)).Some? && NumberOf(Standard(c)).value % 4 == 0
  {}

  /** The sixteen last letters are those whose two lowest bits are zero. */
  lemma LastLetterIff(c: char)
    ensures IsLastLetter(c) <==> InAlphabet(c) && SextetOf(c).c == 0
  {
    if InAlphabet(c) {
      LastLetterNumbers(c);
      LowestBits(SextetOf(c));
    }
  }

  lemma LowestBits(v: Sextet)
    ensures Number(v) % 4 == v.c
  {}

  lemma PatternIsAccepted(s: string)
    requires KeyPattern(s)
    ensures Acceptable(s) && SextetOf(s[42]).c == 0
  {
    LastLetterIff(s[42]);
    forall i | 0 <= i < |s| ensures InAlphabet(s[i]) { assert i < 42 || i == 42; }
  }

  lemma AcceptedIsPattern(s: string)
    requires |s| == 43 && Acceptable(s) && SextetOf(s[42]).c == 0
    ensures KeyPattern(s)
  {
    LastLetterIff(s[42]);
  }

  lemma ThirtyTwoBytes(v: seq<Sextet>)
    requires |v| % 4 != 1
    ensures |Octets(v)| == 32 <==> |v| == 43
  {
    OctetsLength(v);
  }

  lemma LastSextet(s: string)
    requires Acceptable(s) && |s| == 43
    ensures Clean(SextetsIn(s)) <==> SextetOf(s[42]).c == 0
  {}

  lemma DecodesToThirtyTwoIff(s: string)
    requires Acceptable(s)
    ensures (Decode(s).Some? && |Decode(s).value| == 32) <==> (|s| == 43 && SextetOf(s[42]).c == 0)
  {
    DecodeReadsCleanSextets(s);
    ThirtyTwoBytes(SextetsIn(s));
    if |s| == 43 { LastSextet(s); }
  }

  /** The startup pattern accepts exactly the keys the vault can decode to 32 bytes. */
  lemma KeyPatternIffThirtyTwoBytes(s: string)
    ensures KeyPattern(s) <==> Decode(s).Some? && |Decode(s).value| == 32
  {
    if Acceptable(s) { DecodesToThirtyTwoIff(s); }
    if KeyPattern(s) { PatternIsAccepted(s); }
    if |s| == 43 && Acceptable(s) && SextetOf(s[42]).c == 0 { AcceptedIsPattern(s); }
  }
}
