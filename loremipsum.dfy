/**
 * The random text generator of internal/loremipsum/loremipsum.go: a run of
 * characters drawn from the canonical Lorem ipsum paragraph, returned as the
 * UTF-8 bytes a `strings.Builder` accumulates.
 *
 * The two uses of `math/rand` are oracles: `bound(c)` is the value of
 * `rand.Intn(maximumRandomCharacters)` evaluated in the loop condition before
 * iteration `c`, and `index(c)` is the value of `rand.Intn(len(chars))` drawn
 * in iteration `c`. Each draw lies in the range `rand.Intn` promises.
 */
module LoremIpsum {
  import opened Primitives

  // The canonical Lorem ipsum paragraph, one sentence per constant, each in short pieces.

  const Sentence1a: string := "Lorem ipsum dolor sit amet, "
  const Sentence1b: string := "consectetur adipiscing elit, sed do "
  const Sentence1c: string := "eiusmod tempor incididunt ut labore "
  const Sentence1d: string := "et dolore magna aliqua. "
  const Sentence1: string := Sentence1a + Sentence1b + Sentence1c + Sentence1d

  const Sentence2a: string := "Ut enim ad minim veniam, quis "
  const Sentence2b: string := "nostrud exercitation ullamco "
  const Sentence2c: string := "laboris nisi ut aliquip ex ea "
  const Sentence2d: string := "commodo consequat. "
  const Sentence2: string := Sentence2a + Sentence2b + Sentence2c + Sentence2d

  const Sentence3a: string := "Duis aute irure dolor in "
  const Sentence3b: string := "reprehenderit in voluptate velit "
  const Sentence3c: string := "esse cillum dolore eu fugiat nulla "
  const Sentence3d: string := "pariatur. "
  const Sentence3: string := Sentence3a + Sentence3b + Sentence3c + Sentence3d

  const Sentence4a: string := "Excepteur sint occaecat cupidatat "
  const Sentence4b: string := "non proident, sunt in culpa qui "
  const Sentence4c: string := "officia deserunt mollit anim id est "
  const Sentence4d: string := "laborum."
  const Sentence4: string := Sentence4a + Sentence4b + Sentence4c + Sentence4d

  /** The phrase: the paragraph with the newline before and after it that the raw string literal keeps. */
  const Phrase: string := "\n" + Sentence1 + Sentence2 + Sentence3 + Sentence4 + "\n"

  /** The limit on the number of generated characters. */
  const MaximumRandomCharacters: int := 1_000_000

  /** The rune slice `[]rune(phrase)`; a Dafny `char` is a Unicode scalar value, so it is the phrase itself. */
  const Chars: seq<char> := Phrase

  /** A value of `rand.Intn(maximumRandomCharacters)`. */
  type BoundDraw = n: int | 0 <= n < MaximumRandomCharacters

  /** A value of `rand.Intn(len(chars))`. */
  type IndexDraw = i: int | 0 <= i < |Chars|

  predicate IsAscii(s: string) {
    forall i :: 0 <= i < |s| ==> s[i] as int < 0x80
  }

  predicate OccursAt(s: string, part: string, i: nat) {
    i + |part| <= |s| && s[i..i + |part|] == part
  }

  ghost predicate Contains(s: string, part: string) {
    exists i: nat :: OccursAt(s, part, i)
  }

  lemma AsciiAppend(a: string, b: string)
    requires IsAscii(a) && IsAscii(b)
    ensures IsAscii(a + b)
  {
  }

  lemma Sentence1aIsAscii() ensures IsAscii(Sentence1a) {}
  lemma Sentence1bIsAscii() ensures IsAscii(Sentence1b) {}
  lemma Sentence1cIsAscii() ensures IsAscii(Sentence1c) {}
  lemma Sentence1dIsAscii() ensures IsAscii(Sentence1d) {}

  lemma Sentence1IsAscii()
    ensures IsAscii(Sentence1)
  {
    Sentence1aIsAscii();
    Sentence1bIsAscii();
    Sentence1cIsAscii();
    Sentence1dIsAscii();
    AsciiAppend(Sentence1a, Sentence1b);
    AsciiAppend(Sentence1a + Sentence1b, Sentence1c);
    AsciiAppend(Sentence1a + Sentence1b + Sentence1c, Sentence1d);
  }

  lemma Sentence2aIsAscii() ensures IsAscii(Sentence2a) {}
  lemma Sentence2bIsAscii() ensures IsAscii(Sentence2b) {}
  lemma Sentence2cIsAscii() ensures IsAscii(Sentence2c) {}
  lemma Sentence2dIsAscii() ensures IsAscii(Sentence2d) {}

  lemma Sentence2IsAscii()
    ensures IsAscii(Sentence2)
  {
    Sentence2aIsAscii();
    Sentence2bIsAscii();
    Sentence2cIsAscii();
    Sentence2dIsAscii();
    AsciiAppend(Sentence2a, Sentence2b);
    AsciiAppend(Sentence2a + Sentence2b, Sentence2c);
    AsciiAppend(Sentence2a + Sentence2b + Sentence2c, Sentence2d);
  }

  lemma Sentence3aIsAscii() ensures IsAscii(Sentence3a) {}
  lemma Sentence3bIsAscii() ensures IsAscii(Sentence3b) {}
  lemma Sentence3cIsAscii() ensures IsAscii(Sentence3c) {}
  lemma Sentence3dIsAscii() ensures IsAscii(Sentence3d) {}

  lemma Sentence3IsAscii()
    ensures IsAscii(Sentence3)
  {
    Sentence3aIsAscii();
    Sentence3bIsAscii();
    Sentence3cIsAscii();
    Sentence3dIsAscii();
    AsciiAppend(Sentence3a, Sentence3b);
    AsciiAppend(Sentence3a + Sentence3b, Sentence3c);
    AsciiAppend(Sentence3a + Sentence3b + Sentence3c, Sentence3d);
  }

  lemma Sentence4aIsAscii() ensures IsAscii(Sentence4a) {}
  lemma Sentence4bIsAscii() ensures IsAscii(Sentence4b) {}
  lemma Sentence4cIsAscii() ensures IsAscii(Sentence4c) {}
  lemma Sentence4dIsAscii() ensures IsAscii(Sentence4d) {}

  lemma Sentence4IsAscii()
    ensures IsAscii(Sentence4)
  {
    Sentence4aIsAscii();
    Sentence4bIsAscii();
    Sentence4cIsAscii();
    Sentence4dIsAscii();
    AsciiAppend(Sentence4a, Sentence4b);
    AsciiAppend(Sentence4a + Sentence4b, Sentence4c);
    AsciiAppend(Sentence4a + Sentence4b + Sentence4c, Sentence4d);
  }

  /** Every rune of the phrase is ASCII, so each is written as a single byte. */
  lemma CharsAreAscii()
    ensures IsAscii(Chars)
  {
    Sentence1IsAscii();
    Sentence2IsAscii();
    Sentence3IsAscii();
    Sentence4IsAscii();
    var nl := "\n";
    assert IsAscii(nl);
    AsciiAppend(nl, Sentence1);
    AsciiAppend(nl + Sentence1, Sentence2);
    AsciiAppend(nl + Sentence1 + Sentence2, Sentence3);
    AsciiAppend(nl + Sentence1 + Sentence2 + Sentence3, Sentence4);
    AsciiAppend(nl + Sentence1 + Sentence2 + Sentence3 + Sentence4, nl);
  }

  /** The rune slice has 447 runes: the 445-character paragraph and a newline at each end. */
  lemma CharsLength()
    ensures |Chars| == 447 && Chars[0] == '\n' && Chars[446] == '\n'
  {
  }

  lemma OccursWithin(x: string, a: string, y: string, part: string, i: nat)
    requires OccursAt(a, part, i)
    ensures OccursAt(x + a, part, |x| + i) && OccursAt(a + y, part, i)
  {
    assert (x + a)[|x| + i..|x| + i + |part|] == a[i..i + |part|];
    assert (a + y)[i..i + |part|] == a[i..i + |part|];
  }

  lemma Sentence1StartsWithLoremIpsum()
    ensures OccursAt(Sentence1, "Lorem ipsum", 0)
  {
  }

  /** The phrase contains "Lorem ipsum". */
  lemma PhraseContainsLoremIpsum()
    ensures Contains(Phrase, "Lorem ipsum")
  {
    var part := "Lorem ipsum";
    var nl := "\n";
    Sentence1StartsWithLoremIpsum();
    OccursWithin(nl, Sentence1, Sentence2, part, 0);
    OccursWithin(nl, nl + Sentence1, Sentence2, part, 1);
    OccursWithin(nl, nl + Sentence1 + Sentence2, Sentence3, part, 1);
    OccursWithin(nl, nl + Sentence1 + Sentence2 + Sentence3, Sentence4, part, 1);
    OccursWithin(nl, nl + Sentence1 + Sentence2 + Sentence3 + Sentence4, nl, part, 1);
  }

  /** The number of bytes UTF-8 uses for a rune whose first byte is `lead`. */
  function Utf8Length(lead: byte): nat {
    if lead < 0x80 then 1 else if lead < 0xE0 then 2 else if lead < 0xF0 then 3 else 4
  }

  /** The scalar value of a well-formed UTF-8 encoding of one rune. */
  function DecodeRune(bs: seq<byte>): int
    requires 1 <= |bs| <= 4
  {
    var b0 := bs[0] as int;
    if |bs| == 1 then b0
    else if |bs| == 2 then (b0 - 0xC0) * 0x40 + Continuation(bs[1])
    else if |bs| == 3 then (b0 - 0xE0) * 0x1000 + Continuation(bs[1]) * 0x40 + Continuation(bs[2])
    else (b0 - 0xF0) * 0x4_0000 + Continuation(bs[1]) * 0x1000 + Continuation(bs[2]) * 0x40 + Continuation(bs[3])
  }

  /** The six payload bits of a continuation byte. */
  function Continuation(b: byte): int {
    b as int - 0x80
  }

  predicate IsContinuation(b: byte) {
    0x80 <= b < 0xC0
  }

  function Encode2(n: int): (bs: seq<byte>)
    requires 0x80 <= n < 0x800
    ensures |bs| == 2 && 0xC0 <= bs[0] < 0xE0 && IsContinuation(bs[1])
    ensures DecodeRune(bs) == n
  {
    [0xC0 + n / 0x40, 0x80 + n % 0x40]
  }

  function Encode3(n: int): (bs: seq<byte>)
    requires 0x800 <= n < 0x1_0000
    ensures |bs| == 3 && 0xE0 <= bs[0] < 0xF0 && IsContinuation(bs[1]) && IsContinuation(bs[2])
    ensures DecodeRune(bs) == n
  {
    var hi, lo := n / 0x40, n % 0x40;
    assert n == hi * 0x40 + lo;
    assert hi == hi / 0x40 * 0x40 + hi % 0x40;
    [0xE0 + hi / 0x40, 0x80 + hi % 0x40, 0x80 + lo]
  }

  function Encode4(n: int): (bs: seq<byte>)
    requires 0x1_0000 <= n < 0x11_0000
    ensures |bs| == 4 && 0xF0 <= bs[0] && IsContinuation(bs[1]) && IsContinuation(bs[2]) && IsContinuation(bs[3])
    ensures DecodeRune(bs) == n
  {
    var hi, lo := n / 0x40, n % 0x40;
    var top, mid := hi / 0x40, hi % 0x40;
    assert n == hi * 0x40 + lo;
    assert hi == top * 0x40 + mid;
    assert top == top / 0x40 * 0x40 + top % 0x40;
    [0xF0 + top / 0x40, 0x80 + top % 0x40, 0x80 + mid, 0x80 + lo]
  }

  /**
   * The bytes `WriteRune` appends for rune `r`: its UTF-8 encoding. The lead
   * byte announces the length, the other bytes are continuation bytes, the
   * encoding decodes back to `r`, and exactly the ASCII runes take one byte.
   */
  function EncodeRune(r: char): (bs: seq<byte>)
    ensures 1 <= |bs| <= 4 && |bs| == Utf8Length(bs[0])
    ensures forall k :: 1 <= k < |bs| ==> IsContinuation(bs[k])
    ensures DecodeRune(bs) == r as int
    ensures |bs| == 1 <==> r as int < 0x80
    ensures |bs| == (if r as int < 0x80 then 1 else if r as int < 0x800 then 2 else if r as int < 0x1_0000 then 3 else 4)
  {
    var n := r as int;
    if n < 0x80 then [n]
    else if n < 0x800 then Encode2(n)
    else if n < 0x1_0000 then Encode3(n)
    else Encode4(n)
  }

  /** The bytes of `[]byte(s)` for the string `s` written rune by rune: the concatenated encodings. */
  function Utf8(runes: seq<char>): (bs: seq<byte>)
    ensures |runes| <= |bs| <= 4 * |runes|
    ensures IsAscii(runes) ==> |bs| == |runes| && forall i :: 0 <= i < |runes| ==> bs[i] == runes[i] as int
  {
    if runes == [] then []
    else
      var init := runes[..|runes| - 1];
      assert forall i :: 0 <= i < |init| ==> init[i] == runes[i];
      Utf8(init) + EncodeRune(runes[|runes| - 1])
  }

  /** The first `n` runes drawn: iteration `c` writes `chars[index(c)]`. */
  function Drawn(index: nat -> IndexDraw, n: nat): seq<char> {
    seq(n, c requires 0 <= c => Chars[index(c)])
  }

  lemma DrawnStep(index: nat -> IndexDraw, n: nat)
    ensures Drawn(index, n + 1) == Drawn(index, n) + [Chars[index(n)]]
  {
  }

  lemma DrawnIsAscii(index: nat -> IndexDraw, n: nat)
    ensures IsAscii(Drawn(index, n))
  {
    CharsAreAscii();
  }

  /** Writing one more rune appends exactly that rune's encoding to the bytes written so far. */
  lemma Utf8Append(runes: seq<char>, r: char)
    ensures Utf8(runes + [r]) == Utf8(runes) + EncodeRune(r)
  {
    assert (runes + [r])[..|runes|] == runes;
  }

  /**
   * The number of iterations of the loop in `RandomCharacters`, counted from
   * iteration `c`: the bound is drawn afresh before each iteration, so the loop
   * stops at the first `n` whose draw is at most `n`.
   */
  function StopFrom(bound: nat -> BoundDraw, c: nat): (n: nat)
    requires c < MaximumRandomCharacters
    ensures c <= n < MaximumRandomCharacters
    ensures bound(n) <= n
    ensures forall k :: c <= k < n ==> k < bound(k)
    decreases MaximumRandomCharacters - c
  {
    if c < bound(c) then StopFrom(bound, c + 1) else c
  }

  /** The number of characters `RandomCharacters` produces under the bound draws `bound`. */
  function Length(bound: nat -> BoundDraw): nat {
    StopFrom(bound, 0)
  }

  /** The length is the first iteration whose bound draw does not exceed it, and no other. */
  lemma LengthIsFirstStop(bound: nat -> BoundDraw, n: nat)
    ensures (bound(n) <= n && forall k :: 0 <= k < n ==> k < bound(k)) <==> n == Length(bound)
  {
  }

  /**
   * The bytes of `n` drawn runes: one byte per rune, the `c`-th being the
   * rune `chars[index(c)]` itself.
   */
  lemma DrawnBytes(index: nat -> IndexDraw, n: nat)
    ensures |Utf8(Drawn(index, n))| == n
    ensures forall c :: 0 <= c < n ==> Utf8(Drawn(index, n))[c] == Chars[index(c)] as int
  {
    DrawnIsAscii(index, n);
  }

  /** No characters are produced exactly when the first bound draw is zero. */
  lemma EmptyOnlyOnZeroDraw(bound: nat -> BoundDraw)
    ensures Length(bound) == 0 <==> bound(0) == 0
  {
  }

  /**
   * `RandomCharacters`: write the rune `chars[rand.Intn(len(chars))]` to a string
   * builder while the iteration count is below a fresh `rand.Intn(1e6)`, then
   * return the builder's bytes.
   */
  method RandomCharacters(bound: nat -> BoundDraw, index: nat -> IndexDraw) returns (bs: seq<byte>)
    ensures bs == Utf8(Drawn(index, Length(bound)))
    ensures |bs| == Length(bound) < MaximumRandomCharacters
  {
    var builder: seq<byte> := [];
    ghost var runes: string := [];
    var c: nat := 0;
    while c < bound(c)
      invariant c <= Length(bound)
      invariant StopFrom(bound, c) == Length(bound)
      invariant runes == Drawn(index, c) && builder == Utf8(runes)
      decreases MaximumRandomCharacters - c
    {
      var r := Chars[index(c)];
      DrawnStep(index, c);
      Utf8Append(runes, r);
      builder := builder + EncodeRune(r);
      runes := runes + [r];
      c := c + 1;
    }
    DrawnBytes(index, c);
    bs := builder;
  }
}
