/** How a build request becomes a cache key, a tag and a set of labels.

The key hashes a compact JSON header, a zero byte and the context.  The header is written by
Python's ASCII-only JSON encoder: two-character escapes and `\u` escapes as in section 7 of
RFC 8259, with code points above U+FFFF written as a surrogate pair. */
module CacheKey {

  type Byte = n: int | 0 <= n < 0x100
  type CodePoint = n: int | 0 <= n < 0x11_0000  // a Python character, surrogates included
  type Unit = n: int | 0 <= n < 0x1_0000        // a UTF-16 code unit

  datatype Option<+T> = None | Some(value: T)

  const QUOTE: Byte := 0x22
  const BACKSLASH: Byte := 0x5c
  const LOWER_U: Byte := 0x75
  const NUL: Byte := 0

  // ---------- Writing the header ----------

  function HexDigit(n: int): Byte
    requires 0 <= n < 16
  {
    if n < 10 then 0x30 + n else 0x57 + n
  }

  /** One unit of a JSON string. */
  function Escaped(u: Unit): seq<Byte> {
    if u == 0x22 || u == 0x5c then [BACKSLASH, u]
    else if u == 0x0a then [BACKSLASH, 0x6e]
    else if u == 0x0d then [BACKSLASH, 0x72]
    else if u == 0x09 then [BACKSLASH, 0x74]
    else if u == 0x0c then [BACKSLASH, 0x66]
    else if u == 0x08 then [BACKSLASH, 0x62]
    else if 0x20 <= u <= 0x7e then [u]
    else [BACKSLASH, LOWER_U, HexDigit(u / 0x1000), HexDigit(u / 0x100 % 16),
          HexDigit(u / 16 % 16), HexDigit(u % 16)]
  }

  /** The UTF-16 form of one character. */
  function Units(c: CodePoint): seq<Unit> {
    if c < 0x1_0000 then [c]
    else [0xd800 + (c - 0x1_0000) / 0x400, 0xdc00 + (c - 0x1_0000) % 0x400]
  }

  /** The images of the elements of `s`, one after another. */
  function FlatMap<A, B>(f: A -> seq<B>, s: seq<A>): seq<B> {
    if s == [] then [] else f(s[0]) + FlatMap(f, s[1..])
  }

  function Utf16(s: seq<CodePoint>): seq<Unit> {
    FlatMap(Units, s)
  }

  function EscapedUnits(units: seq<Unit>): seq<Byte> {
    FlatMap(Escaped, units)
  }

  /** The body of a JSON string, character by character. */
  function EscapedString(s: seq<CodePoint>): seq<Byte> {
    FlatMap(c => EscapedUnits(Units(c)), s)
  }

  /** `["context-v1","` */
  const HEADER_START: seq<Byte> := [
    0x5b, 0x22, 0x63, 0x6f, 0x6e, 0x74, 0x65, 0x78, 0x74, 0x2d, 0x76, 0x31, 0x22, 0x2c, 0x22]

  const HEADER_END: seq<Byte> := [QUOTE, 0x5d]

  /** What is hashed for a Dockerfile selector and a context. */
  function Preimage(dockerfile: seq<CodePoint>, context: seq<Byte>): seq<Byte> {
    HEADER_START + EscapedString(dockerfile) + HEADER_END + [NUL] + context
  }

  // ---------- Reading it back ----------

  function HexValue(b: Byte): Option<int> {
    if 0x30 <= b <= 0x39 then Some(b - 0x30)
    else if 0x61 <= b <= 0x66 then Some(b - 0x57)
    else None
  }

  /** The first unit of a JSON string body and what follows it; None at its closing quote. */
  function ReadUnit(b: seq<Byte>): (r: Option<(Unit, seq<Byte>)>)
    ensures r.Some? ==> |r.value.1| < |b|
  {
    if b == [] || b[0] == QUOTE then None
    else if b[0] != BACKSLASH then Some((b[0], b[1..]))
    else if |b| < 2 then None
    else if b[1] != LOWER_U then
      var unit := if b[1] == 0x6e then 0x0a else if b[1] == 0x72 then 0x0d
                  else if b[1] == 0x74 then 0x09 else if b[1] == 0x66 then 0x0c
                  else if b[1] == 0x62 then 0x08 else b[1];
      Some((unit, b[2..]))
    else if |b| < 6 then None
    else
      match (HexValue(b[2]), HexValue(b[3]), HexValue(b[4]), HexValue(b[5]))
      case (Some(h3), Some(h2), Some(h1), Some(h0)) =>
        Some((0x1000 * h3 + 0x100 * h2 + 16 * h1 + h0, b[6..]))
      case _ => None
  }

  /** The units of a JSON string body and what follows it. */
  function ReadUnits(b: seq<Byte>): (seq<Unit>, seq<Byte>)
    decreases |b|
  {
    match ReadUnit(b)
    case None => ([], b)
    case Some((unit, rest)) =>
      var (units, tail) := ReadUnits(rest);
      ([unit] + units, tail)
  }

  /** The Dockerfile selector, in UTF-16, and the context of a preimage. */
  function Decoded(b: seq<Byte>): Option<(seq<Unit>, seq<Byte>)> {
    if !(HEADER_START <= b) then None
    else
      var (units, tail) := ReadUnits(b[|HEADER_START|..]);
      if HEADER_END + [NUL] <= tail then Some((units, tail[3..])) else None
  }

  // ---------- The preimage determines the request ----------

  lemma Associative<T>(a: seq<T>, b: seq<T>, c: seq<T>)
    ensures (a + b) + c == a + (b + c)
  {
  }

  lemma HexDigits(u: Unit)
    ensures u / 0x1000 < 16
    ensures 0x1000 * (u / 0x1000) + 0x100 * (u / 0x100 % 16) + 16 * (u / 16 % 16) + u % 16 == u
  {
    assert u / 0x100 / 16 == u / 0x1000 && u / 16 / 16 == u / 0x100;
  }

  lemma ReadsHexDigit(n: int)
    requires 0 <= n < 16
    ensures HexValue(HexDigit(n)) == Some(n) && HexDigit(n) != QUOTE
  {
  }

  lemma ReadsEscaped(u: Unit, rest: seq<Byte>)
    ensures ReadUnit(Escaped(u) + rest) == Some((u, rest))
  {
    var e := Escaped(u);
    var b := e + rest;
    assert b[|e|..] == rest;
    if |e| == 6 {
      var h3, h2, h1, h0 := u / 0x1000, u / 0x100 % 16, u / 16 % 16, u % 16;
      HexDigits(u);
      ReadsHexDigit(h3);
      ReadsHexDigit(h2);
      ReadsHexDigit(h1);
      ReadsHexDigit(h0);
      assert b[2] == e[2] && b[3] == e[3] && b[4] == e[4] && b[5] == e[5];
    } else {
      assert b[0] == e[0];
      assert |e| == 2 ==> b[1] == e[1];
    }
  }

  lemma ReadUnitsStep(b: seq<Byte>, unit: Unit, rest: seq<Byte>, units: seq<Unit>, tail: seq<Byte>)
    requires ReadUnit(b) == Some((unit, rest)) && ReadUnits(rest) == (units, tail)
    ensures ReadUnits(b) == ([unit] + units, tail)
  {
  }

  lemma {:induction false} ReadsEscapedUnits(units: seq<Unit>, rest: seq<Byte>)
    requires rest != [] && rest[0] == QUOTE
    ensures ReadUnits(EscapedUnits(units) + rest) == (units, rest)
  {
    if units == [] {
      assert EscapedUnits(units) + rest == rest;
    } else {
      var tail := EscapedUnits(units[1..]) + rest;
      ReadsEscaped(units[0], tail);
      ReadsEscapedUnits(units[1..], rest);
      Associative(Escaped(units[0]), EscapedUnits(units[1..]), rest);
      ReadUnitsStep(Escaped(units[0]) + tail, units[0], tail, units[1..], rest);
      assert [units[0]] + units[1..] == units;
    }
  }

  lemma {:induction false} FlatMapAppend<A, B>(f: A -> seq<B>, a: seq<A>, b: seq<A>)
    ensures FlatMap(f, a + b) == FlatMap(f, a) + FlatMap(f, b)
  {
    if a == [] {
      assert a + b == b;
    } else {
      FlatMapAppend(f, a[1..], b);
      assert (a + b)[0] == a[0] && (a + b)[1..] == a[1..] + b;
      Associative(f(a[0]), FlatMap(f, a[1..]), FlatMap(f, b));
    }
  }

  lemma {:induction false} FlatMapCompose<A, B, C>(f: A -> seq<B>, g: B -> seq<C>, fg: A -> seq<C>, s: seq<A>)
    requires forall x :: fg(x) == FlatMap(g, f(x))
    ensures FlatMap(fg, s) == FlatMap(g, FlatMap(f, s))
  {
    if s != [] {
      FlatMapCompose(f, g, fg, s[1..]);
      FlatMapAppend(g, f(s[0]), FlatMap(f, s[1..]));
    }
  }

  lemma EscapedStringIsUtf16(s: seq<CodePoint>)
    ensures EscapedString(s) == EscapedUnits(Utf16(s))
  {
    FlatMapCompose(Units, Escaped, c => EscapedUnits(Units(c)), s);
  }

  /** A preimage gives back the request it was made from, the selector in its UTF-16 form. */
  lemma DecodedPreimage(dockerfile: seq<CodePoint>, context: seq<Byte>)
    ensures Decoded(Preimage(dockerfile, context)) == Some((Utf16(dockerfile), context))
  {
    var rest := HEADER_END + [NUL] + context;
    var b := Preimage(dockerfile, context);
    EscapedStringIsUtf16(dockerfile);
    ReadsEscapedUnits(Utf16(dockerfile), rest);
    assert b[|HEADER_START|..] == EscapedUnits(Utf16(dockerfile)) + rest;
    assert rest[..3] == HEADER_END + [NUL];
    assert rest[3..] == context;
  }

  // ---------- When the selector itself can be recovered ----------

  predicate High(u: int) { 0xd800 <= u < 0xdc00 }

  predicate Low(u: int) { 0xdc00 <= u < 0xe000 }

  /** No high surrogate stands directly before a low one. */
  predicate Unpaired(s: seq<CodePoint>) {
    forall i | 0 <= i < |s| - 1 :: !(High(s[i]) && Low(s[i + 1]))
  }

  /** A string of Unicode scalar values. */
  predicate Scalar(s: seq<CodePoint>) {
    forall i | 0 <= i < |s| :: !High(s[i]) && !Low(s[i])
  }

  /** The characters of a UTF-16 string, surrogate pairs joined. */
  function FromUtf16(units: seq<Unit>): seq<CodePoint> {
    if units == [] then []
    else if |units| >= 2 && High(units[0]) && Low(units[1]) then
      [0x1_0000 + 0x400 * (units[0] - 0xd800) + (units[1] - 0xdc00)] + FromUtf16(units[2..])
    else [units[0]] + FromUtf16(units[1..])
  }

  /** Whether the first two characters are a surrogate pair. */
  predicate StartsPaired(s: seq<CodePoint>) {
    |s| >= 2 && High(s[0]) && Low(s[1])
  }

  lemma UnpairedTail(s: seq<CodePoint>)
    requires s != []
    ensures Unpaired(s) <==> !StartsPaired(s) && Unpaired(s[1..])
  {
    var tail := s[1..];
    if !StartsPaired(s) && Unpaired(tail) {
      forall i | 0 <= i < |s| - 1 ensures !(High(s[i]) && Low(s[i + 1])) {
        if i > 0 {
          assert tail[i - 1] == s[i] && tail[i] == s[i + 1];
        }
      }
    }
    if Unpaired(s) {
      forall i | 0 <= i < |tail| - 1 ensures !(High(tail[i]) && Low(tail[i + 1])) {
        assert tail[i] == s[i + 1] && tail[i + 1] == s[i + 2];
      }
    }
  }

  lemma JoinsOnePair(c: CodePoint, units: seq<Unit>)
    requires c >= 0x1_0000
    ensures FromUtf16(Units(c) + units) == [c] + FromUtf16(units)
  {
    assert (Units(c) + units)[2..] == units;
  }

  lemma FirstUnit(s: seq<CodePoint>)
    requires s != []
    ensures Utf16(s) != [] && (Low(Utf16(s)[0]) <==> Low(s[0]))
  {
    assert Utf16(s)[0] == Units(s[0])[0];
  }

  lemma JoinStep(s: seq<CodePoint>)
    requires s != [] && !StartsPaired(s)
    ensures FromUtf16(Utf16(s)) == [s[0]] + FromUtf16(Utf16(s[1..]))
  {
    var rest := Utf16(s[1..]);
    assert Utf16(s) == Units(s[0]) + rest;
    if s[0] >= 0x1_0000 {
      JoinsOnePair(s[0], rest);
    } else {
      assert (Units(s[0]) + rest)[1..] == rest;
      if s[1..] != [] {
        FirstUnit(s[1..]);
      }
    }
  }

  lemma PairStep(s: seq<CodePoint>)
    requires StartsPaired(s)
    ensures |FromUtf16(Utf16(s))| == 1 + |FromUtf16(Utf16(s[2..]))|
  {
    var rest := Utf16(s[2..]);
    assert s[1..][1..] == s[2..] && Utf16(s[1..]) == [s[1]] + rest;
    assert Utf16(s) == [s[0]] + ([s[1]] + rest);
    assert Utf16(s)[2..] == rest;
  }

  /** Joining a string's UTF-16 form never lengthens it, and gives the string back exactly when no
      high surrogate in it stands directly before a low one. */
  lemma {:induction false} FromUtf16Inverts(s: seq<CodePoint>)
    ensures |FromUtf16(Utf16(s))| <= |s|
    ensures FromUtf16(Utf16(s)) == s <==> Unpaired(s)
    decreases |s|
  {
    if s == [] {
    } else if StartsPaired(s) {
      UnpairedTail(s);
      PairStep(s);
      FromUtf16Inverts(s[2..]);
    } else {
      UnpairedTail(s);
      JoinStep(s);
      FromUtf16Inverts(s[1..]);
      assert FromUtf16(Utf16(s))[1..] == FromUtf16(Utf16(s[1..]));
      assert s == [s[0]] + s[1..];
    }
  }

  lemma {:induction false} Utf16Inverts(units: seq<Unit>)
    ensures Utf16(FromUtf16(units)) == units
  {
    if units == [] {
    } else if |units| >= 2 && High(units[0]) && Low(units[1]) {
      Utf16Inverts(units[2..]);
      var joined := FromUtf16(units);
      assert joined[1..] == FromUtf16(units[2..]);
      assert Units(joined[0]) == [units[0], units[1]];
      assert units == [units[0], units[1]] + units[2..];
    } else {
      Utf16Inverts(units[1..]);
      assert FromUtf16(units)[1..] == FromUtf16(units[1..]);
      assert units == [units[0]] + units[1..];
    }
  }

  /** The hashed bytes are equal exactly for selectors with one UTF-16 form and equal contexts. */
  lemma EqualPreimages(d1: seq<CodePoint>, c1: seq<Byte>, d2: seq<CodePoint>, c2: seq<Byte>)
    ensures Preimage(d1, c1) == Preimage(d2, c2) <==> Utf16(d1) == Utf16(d2) && c1 == c2
  {
    DecodedPreimage(d1, c1);
    DecodedPreimage(d2, c2);
    EscapedStringIsUtf16(d1);
    EscapedStringIsUtf16(d2);
  }

  lemma ScalarsAreUnpaired(s: seq<CodePoint>)
    requires Scalar(s)
    ensures Unpaired(s)
  {
  }

  /** Among selectors in which no high surrogate stands directly before a low one, all strings of
      Unicode scalar values included, equal bytes are equal requests. */
  lemma EqualRequests(d1: seq<CodePoint>, c1: seq<Byte>, d2: seq<CodePoint>, c2: seq<Byte>)
    requires Unpaired(d1) && Unpaired(d2)
    ensures Preimage(d1, c1) == Preimage(d2, c2) <==> d1 == d2 && c1 == c2
  {
    EqualPreimages(d1, c1, d2, c2);
    FromUtf16Inverts(d1);
    FromUtf16Inverts(d2);
  }

  /** No larger class of selectors will do: any other has the bytes of one of these. */
  lemma PairsCollide(s: seq<CodePoint>, context: seq<Byte>)
    ensures var joined := FromUtf16(Utf16(s));
            Unpaired(joined) && Preimage(joined, context) == Preimage(s, context) && (joined == s <==> Unpaired(s))
  {
    var joined := FromUtf16(Utf16(s));
    Utf16Inverts(Utf16(s));
    FromUtf16Inverts(s);
    FromUtf16Inverts(joined);
    EqualPreimages(joined, context, s, context);
  }

  /** A character above U+FFFF and its two surrogates, which are different Python strings, have the
      same bytes. */
  lemma SurrogatePairCollides(context: seq<Byte>)
    ensures Preimage([0x1_f600], context) == Preimage([0xd83d, 0xde00], context)
    ensures !Unpaired([0xd83d, 0xde00])
  {
    var one: seq<CodePoint>, two: seq<CodePoint> := [0x1_f600], [0xd83d, 0xde00];
    assert High(two[0]) && Low(two[1]);
    assert two[1..][1..] == [] && one[1..] == [];
    calc {
      Utf16(two);
      [0xd83d] + (Units(two[1..][0]) + Utf16([]));
      [0xd83d, 0xde00];
      Units(one[0]) + Utf16([]);
      Utf16(one);
    }
    EqualPreimages(one, context, two, context);
  }

  // ---------- Keys, tags and labels ----------

  type Labels = map<string, string>

  const MANAGED_BY_LABEL := "me.zaidkhan.docker-sandbox-broker.managed"
  const BROKER_ID_LABEL := "me.zaidkhan.docker-sandbox-broker.broker-id"
  const BUILD_KEY_LABEL := "me.zaidkhan.docker-sandbox-broker.build-key"

  /** The cache key, for a function that gives the hexadecimal digest of its argument. */
  function Key(digest: seq<Byte> -> string, dockerfile: seq<CodePoint>, context: seq<Byte>): string {
    "context-v1-" + digest(Preimage(dockerfile, context))
  }

  function TagPrefix(brokerId: string): string {
    "docker-sandbox-broker/" + brokerId + ":"
  }

  function Tag(brokerId: string, key: string): string {
    TagPrefix(brokerId) + key
  }

  /** The labels a reused image must carry. */
  function KeyLabels(brokerId: string, key: string): Labels {
    map[MANAGED_BY_LABEL := "true", BROKER_ID_LABEL := brokerId, BUILD_KEY_LABEL := key]
  }

  /** The three labels by which the broker knows its build of a key. */
  predicate Carries(labels: Labels, brokerId: string, key: string) {
    && MANAGED_BY_LABEL in labels && labels[MANAGED_BY_LABEL] == "true"
    && BROKER_ID_LABEL in labels && labels[BROKER_ID_LABEL] == brokerId
    && BUILD_KEY_LABEL in labels && labels[BUILD_KEY_LABEL] == key
  }

  /** `text.rsplit(":", 1)[1]`, or all of a text without a colon. */
  function AfterLastColon(text: string): string {
    if text == [] || text[|text| - 1] == ':' then ""
    else AfterLastColon(text[..|text| - 1]) + [text[|text| - 1]]
  }

  /** The labels put on a new image, whose key is read off its tag. */
  function BuiltLabels(brokerId: string, tag: string): Labels {
    KeyLabels(brokerId, AfterLastColon(tag))
  }

  lemma {:induction false} AfterLastColonAppend(front: string, key: string)
    requires ':' !in key
    ensures AfterLastColon(front + ":" + key) == key
  {
    var text := front + ":" + key;
    if key != "" {
      assert text[..|text| - 1] == front + ":" + key[..|key| - 1];
      AfterLastColonAppend(front, key[..|key| - 1]);
    }
  }

  /** A build puts on the image the labels that the reuse check will ask for, whatever colons the
      broker id holds. */
  lemma BuiltLabelsAreKeyLabels(brokerId: string, key: string)
    requires ':' !in key
    ensures AfterLastColon(Tag(brokerId, key)) == key
    ensures BuiltLabels(brokerId, Tag(brokerId, key)) == KeyLabels(brokerId, key)
  {
    AfterLastColonAppend("docker-sandbox-broker/" + brokerId, key);
  }

  ghost predicate Injective(digest: seq<Byte> -> string) {
    forall a, b :: digest(a) == digest(b) ==> a == b
  }

  lemma EqualKeys(digest: seq<Byte> -> string, brokerId: string,
                  d1: seq<CodePoint>, c1: seq<Byte>, d2: seq<CodePoint>, c2: seq<Byte>)
    requires Injective(digest)
    ensures Tag(brokerId, Key(digest, d1, c1)) == Tag(brokerId, Key(digest, d2, c2))
            <==> Preimage(d1, c1) == Preimage(d2, c2)
  {
    var k1, k2 := Key(digest, d1, c1), Key(digest, d2, c2);
    assert Tag(brokerId, k1)[|TagPrefix(brokerId)|..] == k1;
    assert Tag(brokerId, k2)[|TagPrefix(brokerId)|..] == k2;
    assert k1[|"context-v1-"|..] == digest(Preimage(d1, c1));
    assert k2[|"context-v1-"|..] == digest(Preimage(d2, c2));
  }

  /** With a collision-free digest, two requests get one tag exactly when they are one request. */
  lemma EqualTags(digest: seq<Byte> -> string, brokerId: string,
                  d1: seq<CodePoint>, c1: seq<Byte>, d2: seq<CodePoint>, c2: seq<Byte>)
    requires Injective(digest) && Unpaired(d1) && Unpaired(d2)
    ensures Tag(brokerId, Key(digest, d1, c1)) == Tag(brokerId, Key(digest, d2, c2)) <==> d1 == d2 && c1 == c2
  {
    EqualKeys(digest, brokerId, d1, c1, d2, c2);
    EqualRequests(d1, c1, d2, c2);
  }
}
