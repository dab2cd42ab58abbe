/**
 * The canonical printer whose output is hashed into a command's fingerprint.
 * Strings are sequences of UTF-16 code units, as in the source's runtime.
 */
module CanonicalJson {
  import opened Wrappers

  type Unit = u: int | 0 <= u < 65536
  type Text = seq<Unit>

  const QUOTE: Unit := 34
  const COMMA: Unit := 44
  const COLON: Unit := 58
  const OPEN_BRACKET: Unit := 91
  const BACKSLASH: Unit := 92
  const CLOSE_BRACKET: Unit := 93
  const OPEN_BRACE: Unit := 123
  const CLOSE_BRACE: Unit := 125
  const NULL_TEXT: Text := [110, 117, 108, 108]
  const TRUE_TEXT: Text := [116, 114, 117, 101]
  const FALSE_TEXT: Text := [102, 97, 108, 115, 101]
  const ZERO_TEXT: Text := [48]

  /**
   * A number is known by its shortest decimal text. Parsing also produces a
   * negative zero and, for literals out of range, the infinities.
   */
  datatype Number = Finite(text: Text) | NegativeZero | Infinite(negative: bool)

  datatype Value = Null | Bool(b: bool) | Num(n: Number) | Str(s: Text) | Arr(items: Items) | Obj(fields: Fields)
  datatype Items = NoItems | Item(head: Value, tail: Items)
  datatype Fields = NoFields | Field(key: Text, value: Value, rest: Fields)

  /** The JSON value meant: objects are finite maps, so the order of keys is gone. */
  datatype Meaning =
    | MNull | MBool(b: bool) | MNum(text: Text) | MStr(s: Text)
    | MArr(items: seq<Meaning>) | MObj(fields: map<Text, Meaning>)

  function MeaningOf(v: Value): Meaning {
    match v
    case Null => MNull
    case Bool(b) => MBool(b)
    case Num(Finite(text)) => MNum(text)
    case Num(NegativeZero) => MNum(ZERO_TEXT)
    case Num(Infinite(_)) => MNull
    case Str(s) => MStr(s)
    case Arr(items) => MArr(MeaningOfItems(items))
    case Obj(fields) => MObj(MeaningOfFields(fields))
  }

  function MeaningOfItems(items: Items): seq<Meaning> {
    match items
    case NoItems => []
    case Item(head, tail) => [MeaningOf(head)] + MeaningOfItems(tail)
  }

  function MeaningOfFields(fields: Fields): map<Text, Meaning> {
    match fields
    case NoFields => map[]
    case Field(key, value, rest) => MeaningOfFields(rest)[key := MeaningOf(value)]
  }

  function Keys(fields: Fields): set<Text> {
    match fields
    case NoFields => {}
    case Field(key, _, rest) => {key} + Keys(rest)
  }

  predicate NumberUnit(u: Unit) { 48 <= u <= 57 || u == 45 || u == 43 || u == 46 || u == 101 || u == 69 }

  /** Digits, sign, point and exponent, starting with a digit or a minus. */
  predicate NumberText(t: Text) {
    t != [] && (48 <= t[0] <= 57 || t[0] == 45) && forall i | 0 <= i < |t| :: NumberUnit(t[i])
  }

  /** What the parser produces: proper number texts, and no key twice in one object. */
  predicate Parsed(v: Value) {
    match v
    case Num(Finite(text)) => NumberText(text)
    case Arr(items) => ParsedItems(items)
    case Obj(fields) => ParsedFields(fields)
    case _ => true
  }

  predicate ParsedItems(items: Items) { items.Item? ==> Parsed(items.head) && ParsedItems(items.tail) }

  predicate ParsedFields(fields: Fields) {
    fields.Field? ==> fields.key !in Keys(fields.rest) && Parsed(fields.value) && ParsedFields(fields.rest)
  }

  // ---- Strings -----------------------------------------------------------------

  predicate High(u: Unit) { 0xD800 <= u <= 0xDBFF }
  predicate Low(u: Unit) { 0xDC00 <= u <= 0xDFFF }
  predicate Pair(s: Text) { |s| >= 2 && High(s[0]) && Low(s[1]) }

  function HexDigit(n: int): Unit
    requires 0 <= n < 16
  {
    if n < 10 then 48 + n else 87 + n
  }

  function Escaped(u: Unit): Text {
    var (a, b, c) := (u / 16, u / 16 / 16, u / 16 / 16 / 16);
    [BACKSLASH, 117, HexDigit(c), HexDigit(b % 16), HexDigit(a % 16), HexDigit(u % 16)]
  }

  /** How many units the next piece takes: a surrogate pair stays together. */
  function Width(s: Text): nat
    requires s != []
  {
    if Pair(s) then 2 else 1
  }

  /** The text of the next piece. */
  function Piece(s: Text): Text
    requires s != []
  {
    var u := s[0];
    if Pair(s) then [s[0], s[1]]
    else if u == QUOTE then [BACKSLASH, QUOTE]
    else if u == BACKSLASH then [BACKSLASH, BACKSLASH]
    else if u == 8 then [BACKSLASH, 98]
    else if u == 12 then [BACKSLASH, 102]
    else if u == 10 then [BACKSLASH, 110]
    else if u == 13 then [BACKSLASH, 114]
    else if u == 9 then [BACKSLASH, 116]
    else if u < 32 || High(u) || Low(u) then Escaped(u)
    else [u]
  }

  function Quoted(s: Text): Text
    decreases |s|
  {
    if s == [] then [] else Piece(s) + Quoted(s[Width(s)..])
  }

  function Stringify(s: Text): Text { [QUOTE] + Quoted(s) + [QUOTE] }

  // ---- The printer ---------------------------------------------------------------

  /** Order of code units, the order in which keys are sorted. */
  predicate Before(a: Text, b: Text)
    decreases a
  {
    if b == [] then false
    else if a == [] then true
    else a[0] < b[0] || (a[0] == b[0] && Before(a[1..], b[1..]))
  }

  datatype Entry = Entry(key: Text, text: Text)

  function InsertEntry(e: Entry, es: seq<Entry>): seq<Entry> {
    if es == [] || Before(e.key, es[0].key) then [e] + es else [es[0]] + InsertEntry(e, es[1..])
  }

  function Join(ts: seq<Text>): Text {
    if ts == [] then [] else if |ts| == 1 then ts[0] else ts[0] + [COMMA] + Join(ts[1..])
  }

  function EntryTexts(es: seq<Entry>): seq<Text> {
    seq(|es|, i requires 0 <= i < |es| => Stringify(es[i].key) + [COLON] + es[i].text)
  }

  function NumberString(n: Number): Text {
    match n
    case Finite(text) => text
    case NegativeZero => ZERO_TEXT
    case Infinite(_) => NULL_TEXT
  }

  function Canonical(v: Value): Text {
    match v
    case Null => NULL_TEXT
    case Bool(b) => if b then TRUE_TEXT else FALSE_TEXT
    case Num(n) => NumberString(n)
    case Str(s) => Stringify(s)
    case Arr(items) => [OPEN_BRACKET] + Join(CanonicalItems(items)) + [CLOSE_BRACKET]
    case Obj(fields) => [OPEN_BRACE] + Join(EntryTexts(SortedEntries(fields))) + [CLOSE_BRACE]
  }

  function CanonicalItems(items: Items): seq<Text> {
    match items
    case NoItems => []
    case Item(head, tail) => [Canonical(head)] + CanonicalItems(tail)
  }

  /** The fields by sorted key, each with its canonical text. */
  function SortedEntries(fields: Fields): seq<Entry> {
    match fields
    case NoFields => []
    case Field(key, value, rest) => InsertEntry(Entry(key, Canonical(value)), SortedEntries(rest))
  }

  // ---- A normal form, and printing it in front of a given text ---------------------

  function InsertField(key: Text, value: Value, fields: Fields): Fields {
    match fields
    case NoFields => Field(key, value, NoFields)
    case Field(k, v, rest) =>
      if Before(key, k) then Field(key, value, fields) else Field(k, v, InsertField(key, value, rest))
  }

  function Norm(v: Value): Value {
    match v
    case Num(NegativeZero) => Num(Finite(ZERO_TEXT))
    case Num(Infinite(_)) => Null
    case Arr(items) => Arr(NormItems(items))
    case Obj(fields) => Obj(NormFields(fields))
    case _ => v
  }

  function NormItems(items: Items): Items {
    match items
    case NoItems => NoItems
    case Item(head, tail) => Item(Norm(head), NormItems(tail))
  }

  function NormFields(fields: Fields): Fields {
    match fields
    case NoFields => NoFields
    case Field(key, value, rest) => InsertField(key, Norm(value), NormFields(rest))
  }

  function QuotedOnto(s: Text, tail: Text): Text
    decreases |s|
  {
    if s == [] then [QUOTE] + tail else Piece(s) + QuotedOnto(s[Width(s)..], tail)
  }

  function PrintOnto(v: Value, tail: Text): Text
    decreases v
  {
    match v
    case Null => NULL_TEXT + tail
    case Bool(b) => (if b then TRUE_TEXT else FALSE_TEXT) + tail
    case Num(n) => NumberString(n) + tail
    case Str(s) => [QUOTE] + QuotedOnto(s, tail)
    case Arr(items) => [OPEN_BRACKET] + ItemsOnto(items, true, tail)
    case Obj(fields) => [OPEN_BRACE] + FieldsOnto(fields, true, tail)
  }

  function ItemsOnto(items: Items, first: bool, tail: Text): Text
    decreases items
  {
    match items
    case NoItems => [CLOSE_BRACKET] + tail
    case Item(head, more) => (if first then [] else [COMMA]) + PrintOnto(head, ItemsOnto(more, false, tail))
  }

  function FieldsOnto(fields: Fields, first: bool, tail: Text): Text
    decreases fields
  {
    match fields
    case NoFields => [CLOSE_BRACE] + tail
    case Field(key, value, rest) =>
      (if first then [] else [COMMA])
        + ([QUOTE] + QuotedOnto(key, [COLON] + PrintOnto(value, FieldsOnto(rest, false, tail))))
  }

  // ---- Canonical text is the normal form printed ------------------------------------

  lemma {:induction false} QuotedThenTail(s: Text, tail: Text)
    ensures QuotedOnto(s, tail) == Quoted(s) + [QUOTE] + tail
    decreases |s|
  {
    if s != [] {
      QuotedThenTail(s[Width(s)..], tail);
      assert QuotedOnto(s, tail) == Piece(s) + (Quoted(s[Width(s)..]) + [QUOTE] + tail);
    }
  }

  function Texts(items: Items): seq<Text> {
    match items
    case NoItems => []
    case Item(head, tail) => [PrintOnto(head, [])] + Texts(tail)
  }

  function Entries(fields: Fields): seq<Entry> {
    match fields
    case NoFields => []
    case Field(key, value, rest) => [Entry(key, PrintOnto(value, []))] + Entries(rest)
  }

  function JoinMore(ts: seq<Text>): Text { if ts == [] then [] else [COMMA] + Join(ts) }

  lemma JoinSplits(t: Text, ts: seq<Text>)
    ensures Join([t] + ts) == t + JoinMore(ts)
  {}

  /** Printing in front of a text is printing, then the text. */
  lemma {:induction false} PrintThenTail(v: Value, tail: Text)
    ensures PrintOnto(v, tail) == PrintOnto(v, []) + tail
    decreases v
  {
    match v
    case Str(s) => QuotedThenTail(s, tail); QuotedThenTail(s, []);
    case Arr(items) => ItemsThenTail(items, true, tail); ItemsThenTail(items, true, []);
    case Obj(fields) => FieldsThenTail(fields, true, tail); FieldsThenTail(fields, true, []);
    case _ =>
  }

  lemma {:induction false} ItemsThenTail(items: Items, first: bool, tail: Text)
    ensures ItemsOnto(items, first, tail) ==
      (if first then Join(Texts(items)) else JoinMore(Texts(items))) + [CLOSE_BRACKET] + tail
    decreases items
  {
    if items.Item? {
      ItemsThenTail(items.tail, false, tail);
      PrintThenTail(items.head, ItemsOnto(items.tail, false, tail));
      JoinSplits(PrintOnto(items.head, []), Texts(items.tail));
    }
  }

  function TextOf(e: Entry): Text { Stringify(e.key) + [COLON] + e.text }

  lemma FieldThenTail(key: Text, text: Text, more: Text)
    ensures [QUOTE] + QuotedOnto(key, [COLON] + (text + more)) == TextOf(Entry(key, text)) + more
  {
    QuotedThenTail(key, [COLON] + (text + more));
    assert [QUOTE] + (Quoted(key) + [QUOTE] + ([COLON] + (text + more))) ==
      ([QUOTE] + Quoted(key) + [QUOTE] + [COLON] + text) + more;
  }

  lemma {:induction false} FieldsThenTail(fields: Fields, first: bool, tail: Text)
    ensures FieldsOnto(fields, first, tail)
      == (if first then Join(EntryTexts(Entries(fields))) else JoinMore(EntryTexts(Entries(fields)))) + [CLOSE_BRACE]
        + tail
    decreases fields
  {
    if fields.Field? {
      var more := FieldsOnto(fields.rest, false, tail);
      var e := Entry(fields.key, PrintOnto(fields.value, []));
      var ts := EntryTexts(Entries(fields.rest));
      FieldsThenTail(fields.rest, false, tail);
      PrintThenTail(fields.value, more);
      FieldThenTail(fields.key, e.text, more);
      assert EntryTexts(Entries(fields)) == [TextOf(e)] + ts;
      JoinSplits(TextOf(e), ts);
      Assembled(first, TextOf(e), more, JoinMore(ts), tail);
    }
  }

  lemma Assembled(first: bool, t: Text, more: Text, joined: Text, tail: Text)
    requires more == joined + [CLOSE_BRACE] + tail
    ensures
      var comma: Text := if first then [] else [COMMA];
      comma + (t + more) == comma + (t + joined) + [CLOSE_BRACE] + tail
  {}

  lemma {:induction false} InsertingPrints(key: Text, value: Value, fields: Fields)
    ensures Entries(InsertField(key, value, fields)) == InsertEntry(Entry(key, PrintOnto(value, [])), Entries(fields))
  {
    if fields.Field? {
      var es := Entries(fields);
      assert es[1..] == Entries(fields.rest) && es[0].key == fields.key;
      if !Before(key, fields.key) { InsertingPrints(key, value, fields.rest); }
    }
  }

  /** The canonical text of a value is its normal form printed. */
  lemma {:induction false} CanonicalPrintsNorm(v: Value)
    ensures Canonical(v) == PrintOnto(Norm(v), [])
    decreases v
  {
    match v
    case Str(s) => QuotedThenTail(s, []);
    case Arr(items) =>
      CanonicalItemsPrintNorm(items);
      ItemsThenTail(NormItems(items), true, []);
    case Obj(fields) =>
      CanonicalFieldsPrintNorm(fields);
      FieldsThenTail(NormFields(fields), true, []);
    case _ =>
  }

  lemma {:induction false} CanonicalItemsPrintNorm(items: Items)
    ensures CanonicalItems(items) == Texts(NormItems(items))
    decreases items
  {
    if items.Item? {
      CanonicalPrintsNorm(items.head);
      CanonicalItemsPrintNorm(items.tail);
    }
  }

  lemma {:induction false} CanonicalFieldsPrintNorm(fields: Fields)
    ensures SortedEntries(fields) == Entries(NormFields(fields))
    decreases fields
  {
    if fields.Field? {
      CanonicalPrintsNorm(fields.value);
      CanonicalFieldsPrintNorm(fields.rest);
      InsertingPrints(fields.key, Norm(fields.value), NormFields(fields.rest));
    }
  }

  // ---- Printed text can be read back ------------------------------------------------

  lemma HexDigitInjective(m: int, n: int)
    requires 0 <= m < 16 && 0 <= n < 16 && HexDigit(m) == HexDigit(n)
    ensures m == n
  {}

  lemma HexInjective(u: Unit, v: Unit)
    requires Escaped(u) == Escaped(v)
    ensures u == v
  {
    var (x, y) := (Escaped(u), Escaped(v));
    assert x[2] == y[2] && x[3] == y[3] && x[4] == y[4] && x[5] == y[5];
    HexDigitInjective(u / 16 / 16 / 16, v / 16 / 16 / 16);
    HexDigitInjective(u / 16 / 16 % 16, v / 16 / 16 % 16);
    HexDigitInjective(u / 16 % 16, v / 16 % 16);
    HexDigitInjective(u % 16, v % 16);
  }

  predicate Shape(s: Text, w: nat)
    requires s != []
  {
    && |Piece(s)| == w
    && (w == 1 ==> Piece(s)[0] != BACKSLASH && Piece(s)[0] != QUOTE && !High(Piece(s)[0]))
    && (w == 2 ==>
          (Piece(s)[0] == BACKSLASH && Piece(s)[1] != 117) || (Pair(s) && Piece(s)[0] == s[0] && Piece(s)[1] == s[1]))
    && (w == 6 ==> Piece(s)[0] == BACKSLASH && Piece(s)[1] == 117)
  }

  lemma PieceShapes(s: Text)
    requires s != []
    ensures Shape(s, 1) || Shape(s, 2) || Shape(s, 6)
  {}

  /** The first units tell how long a piece is. */
  lemma PieceLength(s: Text, t: Text, x: Text, y: Text)
    requires s != [] && t != [] && Piece(s) + x == Piece(t) + y
    ensures |Piece(s)| == |Piece(t)|
  {
    PieceShapes(s);
    PieceShapes(t);
    var z := Piece(s) + x;
    assert z[0] == Piece(s)[0] && z[0] == Piece(t)[0];
    if |Piece(s)| > 1 && |Piece(t)| > 1 { assert z[1] == Piece(s)[1] && z[1] == Piece(t)[1]; }
  }

  lemma PieceInjective(s: Text, t: Text)
    requires s != [] && t != [] && Piece(s) == Piece(t)
    ensures Width(s) == Width(t) && s[..Width(s)] == t[..Width(t)]
  {
    if |Piece(s)| == 6 { HexInjective(s[0], t[0]); }
    assert s[..1] == [s[0]] && t[..1] == [t[0]];
    if Pair(s) { assert s[..2] == Piece(s); }
    if Pair(t) { assert t[..2] == Piece(t); }
  }

  lemma SamePrefix(a: Text, b: Text, x: Text, y: Text)
    requires a + x == b + y && |a| == |b|
    ensures a == b && x == y
  {
    assert a == (a + x)[..|a|] && b == (b + y)[..|b|];
    assert x == (a + x)[|a|..] && y == (b + y)[|b|..];
  }

  lemma QuotedStart(s: Text, x: Text)
    ensures QuotedOnto(s, x) != [] && (s == [] <==> QuotedOnto(s, x)[0] == QUOTE)
  {}

  /** A quoted string ends at its closing quote. */
  lemma {:induction false} QuotedPrefix(s: Text, t: Text, x: Text, y: Text)
    requires QuotedOnto(s, x) == QuotedOnto(t, y)
    ensures s == t && x == y
    decreases |s|
  {
    QuotedStart(s, x);
    QuotedStart(t, y);
    if s == [] {
      SamePrefix([QUOTE], [QUOTE], x, y);
    } else {
      var (x1, y1) := (QuotedOnto(s[Width(s)..], x), QuotedOnto(t[Width(t)..], y));
      PieceLength(s, t, x1, y1);
      SamePrefix(Piece(s), Piece(t), x1, y1);
      PieceInjective(s, t);
      QuotedPrefix(s[Width(s)..], t[Width(t)..], x, y);
      assert s == s[..Width(s)] + s[Width(s)..] && t == t[..Width(t)] + t[Width(t)..];
    }
  }

  /** What may follow a value: nothing, a comma, or a closing bracket. */
  predicate Ends(x: Text) { x == [] || x[0] == COMMA || x[0] == CLOSE_BRACKET || x[0] == CLOSE_BRACE }

  lemma NumberNotLonger(a: Text, b: Text, x: Text, y: Text)
    requires NumberText(b) && Ends(x) && a + x == b + y
    ensures |b| <= |a|
  {
    var z := a + x;
    assert b == z[..|b|];
    assert |a| < |z| ==> z[|a|] == x[0];
    assert |a| < |b| ==> NumberUnit(z[|a|]);
  }

  lemma NumberPrefix(a: Text, b: Text, x: Text, y: Text)
    requires NumberText(a) && NumberText(b) && Ends(x) && Ends(y) && a + x == b + y
    ensures a == b && x == y
  {
    NumberNotLonger(a, b, x, y);
    NumberNotLonger(b, a, y, x);
    SamePrefix(a, b, x, y);
  }

  /** No special numbers are left. */
  predicate Plain(v: Value) {
    match v
    case Num(n) => n.Finite? && NumberText(n.text)
    case Arr(items) => PlainItems(items)
    case Obj(fields) => PlainFields(fields)
    case _ => true
  }

  predicate PlainItems(items: Items) { items.Item? ==> Plain(items.head) && PlainItems(items.tail) }

  predicate PlainFields(fields: Fields) { fields.Field? ==> Plain(fields.value) && PlainFields(fields.rest) }

  /** The first unit of a printed value tells its kind. */
  function FirstUnit(v: Value): Unit
    requires Plain(v)
  {
    match v
    case Null => 110
    case Bool(b) => if b then 116 else 102
    case Num(n) => n.text[0]
    case Str(_) => QUOTE
    case Arr(_) => OPEN_BRACKET
    case Obj(_) => OPEN_BRACE
  }

  lemma StartsWithFirstUnit(v: Value, tail: Text)
    requires Plain(v)
    ensures PrintOnto(v, tail) != [] && PrintOnto(v, tail)[0] == FirstUnit(v)
  {}

  lemma FirstUnitTellsKind(a: Value, b: Value)
    requires Plain(a) && Plain(b) && FirstUnit(a) == FirstUnit(b)
    ensures a.Null? == b.Null? && a.Num? == b.Num? && a.Str? == b.Str? && a.Arr? == b.Arr? && a.Obj? == b.Obj?
    ensures a.Bool? && b.Bool? ==> a == b
    ensures a.Bool? == b.Bool?
  {}

  /** A printed value is read back uniquely, together with what follows it. */
  lemma {:induction false} PrintPrefix(a: Value, b: Value, x: Text, y: Text)
    requires Plain(a) && Plain(b) && Ends(x) && Ends(y) && PrintOnto(a, x) == PrintOnto(b, y)
    ensures a == b && x == y
    decreases a
  {
    StartsWithFirstUnit(a, x);
    StartsWithFirstUnit(b, y);
    FirstUnitTellsKind(a, b);
    match a
    case Null => SamePrefix(NULL_TEXT, NULL_TEXT, x, y);
    case Bool(v) => SamePrefix(if v then TRUE_TEXT else FALSE_TEXT, if v then TRUE_TEXT else FALSE_TEXT, x, y);
    case Num(n) => NumberPrefix(n.text, b.n.text, x, y);
    case Str(s) =>
      SamePrefix([QUOTE], [QUOTE], QuotedOnto(s, x), QuotedOnto(b.s, y));
      QuotedPrefix(s, b.s, x, y);
    case Arr(items) =>
      SamePrefix([OPEN_BRACKET], [OPEN_BRACKET], ItemsOnto(items, true, x), ItemsOnto(b.items, true, y));
      ItemsPrefix(items, b.items, true, x, y);
    case Obj(fields) =>
      SamePrefix([OPEN_BRACE], [OPEN_BRACE], FieldsOnto(fields, true, x), FieldsOnto(b.fields, true, y));
      FieldsPrefix(fields, b.fields, true, x, y);
  }

  lemma ItemsStart(items: Items, first: bool, tail: Text)
    requires PlainItems(items)
    ensures
      var z := ItemsOnto(items, first, tail);
      z != [] && z[0] == if items.NoItems? then CLOSE_BRACKET else if first then FirstUnit(items.head) else COMMA
  {}

  lemma {:induction false} ItemsPrefix(i: Items, j: Items, first: bool, x: Text, y: Text)
    requires PlainItems(i) && PlainItems(j) && ItemsOnto(i, first, x) == ItemsOnto(j, first, y)
    ensures i == j && x == y
    decreases i
  {
    ItemsStart(i, first, x);
    ItemsStart(j, first, y);
    if i.NoItems? {
      SamePrefix([CLOSE_BRACKET], [CLOSE_BRACKET], x, y);
    } else {
      var comma: Text := if first then [] else [COMMA];
      var (x1, y1) := (ItemsOnto(i.tail, false, x), ItemsOnto(j.tail, false, y));
      ItemsStart(i.tail, false, x);
      ItemsStart(j.tail, false, y);
      SamePrefix(comma, comma, PrintOnto(i.head, x1), PrintOnto(j.head, y1));
      PrintPrefix(i.head, j.head, x1, y1);
      ItemsPrefix(i.tail, j.tail, false, x, y);
    }
  }

  lemma FieldsStart(fields: Fields, first: bool, tail: Text)
    ensures
      var z := FieldsOnto(fields, first, tail);
      z != [] && z[0] == if fields.NoFields? then CLOSE_BRACE else if first then QUOTE else COMMA
  {}

  lemma OneField(comma: Text, k: Text, l: Text, x: Text, y: Text)
    requires comma + ([QUOTE] + QuotedOnto(k, [COLON] + x)) == comma + ([QUOTE] + QuotedOnto(l, [COLON] + y))
    ensures k == l && x == y
  {
    SamePrefix(comma, comma, [QUOTE] + QuotedOnto(k, [COLON] + x), [QUOTE] + QuotedOnto(l, [COLON] + y));
    SamePrefix([QUOTE], [QUOTE], QuotedOnto(k, [COLON] + x), QuotedOnto(l, [COLON] + y));
    QuotedPrefix(k, l, [COLON] + x, [COLON] + y);
    SamePrefix([COLON], [COLON], x, y);
  }

  lemma {:induction false} FieldsPrefix(f: Fields, g: Fields, first: bool, x: Text, y: Text)
    requires PlainFields(f) && PlainFields(g) && FieldsOnto(f, first, x) == FieldsOnto(g, first, y)
    ensures f == g && x == y
    decreases f
  {
    FieldsStart(f, first, x);
    FieldsStart(g, first, y);
    if f.NoFields? {
      SamePrefix([CLOSE_BRACE], [CLOSE_BRACE], x, y);
    } else {
      var comma: Text := if first then [] else [COMMA];
      var (x1, y1) := (FieldsOnto(f.rest, false, x), FieldsOnto(g.rest, false, y));
      var (x2, y2) := (PrintOnto(f.value, x1), PrintOnto(g.value, y1));
      FieldsStart(f.rest, false, x);
      FieldsStart(g.rest, false, y);
      OneField(comma, f.key, g.key, x2, y2);
      PrintPrefix(f.value, g.value, x1, y1);
      FieldsPrefix(f.rest, g.rest, false, x, y);
    }
  }

  // ---- The normal form has the same meaning, and only one spelling ------------------

  lemma {:induction false} InsertMeans(key: Text, value: Value, fields: Fields)
    requires key !in Keys(fields)
    ensures MeaningOfFields(InsertField(key, value, fields)) == MeaningOfFields(fields)[key := MeaningOf(value)]
    ensures Keys(InsertField(key, value, fields)) == Keys(fields) + {key}
  {
    if fields.Field? && !Before(key, fields.key) { InsertMeans(key, value, fields.rest); }
  }

  lemma {:induction false} NormMeans(v: Value)
    requires Parsed(v)
    ensures MeaningOf(Norm(v)) == MeaningOf(v) && Plain(Norm(v))
    decreases v
  {
    match v
    case Arr(items) => NormItemsMean(items);
    case Obj(fields) => NormFieldsMean(fields);
    case _ =>
  }

  lemma {:induction false} NormItemsMean(items: Items)
    requires ParsedItems(items)
    ensures MeaningOfItems(NormItems(items)) == MeaningOfItems(items) && PlainItems(NormItems(items))
    decreases items
  {
    if items.Item? {
      NormMeans(items.head);
      NormItemsMean(items.tail);
    }
  }

  lemma {:induction false} InsertPlain(key: Text, value: Value, fields: Fields)
    requires Plain(value) && PlainFields(fields)
    ensures PlainFields(InsertField(key, value, fields))
  {
    if fields.Field? && !Before(key, fields.key) { InsertPlain(key, value, fields.rest); }
  }

  lemma {:induction false} NormFieldsMean(fields: Fields)
    requires ParsedFields(fields)
    ensures MeaningOfFields(NormFields(fields)) == MeaningOfFields(fields) && PlainFields(NormFields(fields))
    ensures Keys(NormFields(fields)) == Keys(fields)
    decreases fields
  {
    if fields.Field? {
      NormMeans(fields.value);
      NormFieldsMean(fields.rest);
      InsertMeans(fields.key, Norm(fields.value), NormFields(fields.rest));
      InsertPlain(fields.key, Norm(fields.value), NormFields(fields.rest));
    }
  }

  lemma {:induction false} BeforeIsTotal(a: Text, b: Text)
    ensures a == b || Before(a, b) || Before(b, a)
    ensures !(Before(a, b) && Before(b, a))
    decreases a
  {
    if a != [] && b != [] {
      BeforeIsTotal(a[1..], b[1..]);
      if a[0] == b[0] && a[1..] == b[1..] { assert a == [a[0]] + a[1..] && b == [b[0]] + b[1..]; }
    }
  }

  lemma {:induction false} BeforeIsTransitive(a: Text, b: Text, c: Text)
    requires Before(a, b) && Before(b, c)
    ensures Before(a, c)
    decreases a
  {
    if a != [] && a[0] == b[0] && b[0] == c[0] { BeforeIsTransitive(a[1..], b[1..], c[1..]); }
  }

  /** Every key comes after this one. */
  predicate Above(key: Text, fields: Fields) { forall k | k in Keys(fields) :: Before(key, k) }

  predicate Normal(v: Value) {
    match v
    case Arr(items) => NormalItems(items)
    case Obj(fields) => NormalFields(fields)
    case Num(n) => n.Finite?
    case _ => true
  }

  predicate NormalItems(items: Items) { items.Item? ==> Normal(items.head) && NormalItems(items.tail) }

  predicate NormalFields(fields: Fields) {
    fields.Field? ==> Above(fields.key, fields.rest) && Normal(fields.value) && NormalFields(fields.rest)
  }

  lemma {:induction false} InsertNormal(key: Text, value: Value, fields: Fields)
    requires key !in Keys(fields) && Normal(value) && NormalFields(fields)
    ensures NormalFields(InsertField(key, value, fields))
    ensures Keys(InsertField(key, value, fields)) == Keys(fields) + {key}
  {
    InsertMeans(key, value, fields);
    if fields.Field? {
      if Before(key, fields.key) {
        forall k | k in Keys(fields) ensures Before(key, k) {
          if k != fields.key { BeforeIsTransitive(key, fields.key, k); }
        }
      } else {
        BeforeIsTotal(key, fields.key);
        InsertNormal(key, value, fields.rest);
      }
    }
  }

  lemma {:induction false} NormIsNormal(v: Value)
    requires Parsed(v)
    ensures Normal(Norm(v))
    decreases v
  {
    match v
    case Arr(items) => NormItemsNormal(items);
    case Obj(fields) => NormFieldsNormal(fields);
    case _ =>
  }

  lemma {:induction false} NormItemsNormal(items: Items)
    requires ParsedItems(items)
    ensures NormalItems(NormItems(items))
    decreases items
  {
    if items.Item? {
      NormIsNormal(items.head);
      NormItemsNormal(items.tail);
    }
  }

  lemma {:induction false} NormFieldsNormal(fields: Fields)
    requires ParsedFields(fields)
    ensures NormalFields(NormFields(fields))
    decreases fields
  {
    if fields.Field? {
      NormIsNormal(fields.value);
      NormFieldsNormal(fields.rest);
      NormFieldsMean(fields.rest);
      InsertNormal(fields.key, Norm(fields.value), NormFields(fields.rest));
    }
  }

  lemma {:induction false} MeaningKeys(fields: Fields)
    ensures MeaningOfFields(fields).Keys == Keys(fields)
  {
    if fields.Field? { MeaningKeys(fields.rest); }
  }

  /** Two normal forms of one meaning are the same value. */
  lemma {:induction false} NormalIsUnique(a: Value, b: Value)
    requires Normal(a) && Normal(b) && MeaningOf(a) == MeaningOf(b)
    ensures a == b
    decreases a
  {
    match a
    case Arr(items) => NormalItemsUnique(items, b.items);
    case Obj(fields) => NormalFieldsUnique(fields, b.fields);
    case _ =>
  }

  lemma {:induction false} NormalItemsUnique(i: Items, j: Items)
    requires NormalItems(i) && NormalItems(j) && MeaningOfItems(i) == MeaningOfItems(j)
    ensures i == j
    decreases i
  {
    if i.Item? {
      var (mi, mj) := (MeaningOfItems(i), MeaningOfItems(j));
      assert mi[0] == MeaningOf(i.head) && mi[1..] == MeaningOfItems(i.tail);
      assert mj[0] == MeaningOf(j.head) && mj[1..] == MeaningOfItems(j.tail);
      NormalIsUnique(i.head, j.head);
      NormalItemsUnique(i.tail, j.tail);
    }
  }

  lemma {:induction false} NormalFieldsUnique(f: Fields, g: Fields)
    requires NormalFields(f) && NormalFields(g) && MeaningOfFields(f) == MeaningOfFields(g)
    ensures f == g
    decreases f
  {
    MeaningKeys(f);
    MeaningKeys(g);
    assert g.Field? ==> g.key in Keys(f);
    if f.Field? {
      assert f.key in Keys(g);
      BeforeIsTotal(f.key, g.key);
      assert f.key == g.key;
      BeforeIsTotal(f.key, f.key);
      assert MeaningOfFields(f)[f.key] == MeaningOf(f.value) && MeaningOfFields(g)[g.key] == MeaningOf(g.value);
      MeaningKeys(f.rest);
      MeaningKeys(g.rest);
      assert MeaningOfFields(f.rest) == MeaningOfFields(f) - {f.key};
      assert MeaningOfFields(g.rest) == MeaningOfFields(g) - {g.key};
      NormalIsUnique(f.value, g.value);
      NormalFieldsUnique(f.rest, g.rest);
    }
  }

  // ---- Main results --------------------------------------------------------

  /** Two parsed commands have the same canonical text exactly when they mean the same JSON value. */
  lemma CanonicalIffSameMeaning(a: Value, b: Value)
    requires Parsed(a) && Parsed(b)
    ensures Canonical(a) == Canonical(b) <==> MeaningOf(a) == MeaningOf(b)
  {
    CanonicalPrintsNorm(a);
    CanonicalPrintsNorm(b);
    NormMeans(a);
    NormMeans(b);
    if Canonical(a) == Canonical(b) { PrintPrefix(Norm(a), Norm(b), [], []); }
    if MeaningOf(a) == MeaningOf(b) {
      NormIsNormal(a);
      NormIsNormal(b);
      NormalIsUnique(Norm(a), Norm(b));
    }
  }

  /** Swapping two neighbouring keys changes nothing. */
  lemma KeyOrderIsForgotten(k: Text, v: Value, l: Text, w: Value, rest: Fields)
    requires k != l && Parsed(Obj(Field(k, v, Field(l, w, rest))))
    ensures Canonical(Obj(Field(k, v, Field(l, w, rest)))) == Canonical(Obj(Field(l, w, Field(k, v, rest))))
  {
    var (f, g) := (Field(l, w, rest), Field(k, v, rest));
    assert ParsedFields(Field(k, v, f)) && ParsedFields(f) && ParsedFields(rest);
    assert k !in Keys(f) && l !in Keys(rest);
    assert ParsedFields(g) && l !in Keys(g);
    assert MeaningOfFields(f) == MeaningOfFields(rest)[l := MeaningOf(w)]
      && MeaningOfFields(g) == MeaningOfFields(rest)[k := MeaningOf(v)];
    assert MeaningOfFields(Field(k, v, f)) == MeaningOfFields(Field(l, w, g));
    CanonicalIffSameMeaning(Obj(Field(k, v, f)), Obj(Field(l, w, g)));
  }

  /** The printer is not injective on every parsed value: a literal out of range prints like null, and -0 like 0. */
  lemma OutOfRangePrintsNull(key: Text, negative: bool)
    ensures
      var a := Obj(Field(key, Num(Infinite(negative)), NoFields));
      var b := Obj(Field(key, Null, NoFields));
      a != b && Parsed(a) && Parsed(b) && Canonical(a) == Canonical(b)
    ensures Canonical(Num(NegativeZero)) == Canonical(Num(Finite(ZERO_TEXT)))
  {
    var (f, g) := (Field(key, Num(Infinite(negative)), NoFields), Field(key, Null, NoFields));
    assert MeaningOfFields(NoFields) == map[] && MeaningOf(f.value) == MNull;
    assert MeaningOfFields(f) == map[key := MNull] && MeaningOfFields(g) == map[key := MNull];
    assert ParsedFields(NoFields) && ParsedFields(f) && ParsedFields(g);
    CanonicalIffSameMeaning(Obj(f), Obj(g));
  }
}
