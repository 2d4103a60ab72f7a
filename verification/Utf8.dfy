/** Go strings as raw bytes: UTF-8 decoding with replacement, encoding, and the grammar of section 4 of RFC 3629. */
module Utf8 {
  type byte = b: int | 0 <= b < 256

  const RuneError := 0xFFFD

  /** A Unicode scalar value. */
  predicate IsRune(r: int) {
    0 <= r < 0xD800 || 0xE000 <= r <= 0x10FFFF
  }

  /** Sequence length announced by the first byte; 0 when no sequence starts with it. */
  function Width(b: byte): nat {
    if b < 0x80 then 1 else if b < 0xC2 then 0 else if b < 0xE0 then 2
    else if b < 0xF0 then 3 else if b < 0xF5 then 4 else 0
  }

  /** Accepted range of the second byte. */
  predicate SecondOk(b0: byte, b1: byte) {
    (if b0 == 0xE0 then 0xA0 else if b0 == 0xF0 then 0x90 else 0x80) <= b1
    <= (if b0 == 0xED then 0x9F else if b0 == 0xF4 then 0x8F else 0xBF)
  }

  predicate Tail(b: byte) {
    0x80 <= b <= 0xBF
  }

  /** Appends six payload bits. */
  function Pack(high: int, tail: int): int {
    high * 0x40 + (tail - 0x80)
  }

  datatype Decoded = Decoded(rune: int, width: nat)

  /** `utf8.DecodeRune`: an ill-formed start consumes one byte and yields the replacement rune. */
  function DecodeFirst(s: seq<byte>): (d: Decoded)
    requires s != []
    ensures 1 <= d.width <= |s| && IsRune(d.rune)
  {
    var w := Width(s[0]);
    if w == 1 then Decoded(s[0], 1)
    else if w == 0 || |s| < w || !SecondOk(s[0], s[1]) then Decoded(RuneError, 1)
    else if w == 2 then Decoded(Pack(s[0] - 0xC0, s[1]), 2)
    else if !Tail(s[2]) then Decoded(RuneError, 1)
    else if w == 3 then Decoded(Pack(Pack(s[0] - 0xE0, s[1]), s[2]), 3)
    else if !Tail(s[3]) then Decoded(RuneError, 1)
    else Decoded(Pack(Pack(Pack(s[0] - 0xF0, s[1]), s[2]), s[3]), 4)
  }

  /** `[]rune(s)`. */
  function Decode(s: seq<byte>): (rs: seq<int>)
    ensures |rs| <= |s| && forall i :: 0 <= i < |rs| ==> IsRune(rs[i])
  {
    if s == [] then [] else [DecodeFirst(s).rune] + Decode(s[DecodeFirst(s).width..])
  }

  function EncodeRune(r: int): seq<byte>
    requires IsRune(r)
  {
    if r < 0x80 then [r]
    else if r < 0x800 then [0xC0 + r / 0x40, 0x80 + r % 0x40]
    else if r < 0x10000 then [0xE0 + r / 0x1000, 0x80 + r / 0x40 % 0x40, 0x80 + r % 0x40]
    else [0xF0 + r / 0x40000, 0x80 + r / 0x1000 % 0x40, 0x80 + r / 0x40 % 0x40, 0x80 + r % 0x40]
  }

  predicate AllRunes(rs: seq<int>) {
    forall i :: 0 <= i < |rs| ==> IsRune(rs[i])
  }

  /** `string(runes)`. */
  function Encode(rs: seq<int>): seq<byte>
    requires AllRunes(rs)
  {
    if rs == [] then [] else EncodeRune(rs[0]) + Encode(rs[1..])
  }

  function RuneCount(s: seq<byte>): nat {
    |Decode(s)|
  }

  // ---------------------------------------------------------------- the grammar of RFC 3629

  /** One `UTF8-char`: a row of the well-formed byte sequences table. */
  predicate Utf8Char(c: seq<byte>) {
    match |c|
    case 1 => c[0] <= 0x7F
    case 2 => 0xC2 <= c[0] <= 0xDF && Tail(c[1])
    case 3 =>
      && Tail(c[2])
      && (|| (c[0] == 0xE0 && 0xA0 <= c[1] <= 0xBF)
          || (0xE1 <= c[0] <= 0xEC && Tail(c[1]))
          || (c[0] == 0xED && 0x80 <= c[1] <= 0x9F)
          || (0xEE <= c[0] <= 0xEF && Tail(c[1])))
    case 4 =>
      && Tail(c[2]) && Tail(c[3])
      && (|| (c[0] == 0xF0 && 0x90 <= c[1] <= 0xBF)
          || (0xF1 <= c[0] <= 0xF3 && Tail(c[1]))
          || (c[0] == 0xF4 && 0x80 <= c[1] <= 0x8F))
    case _ => false
  }

  /** Length of the grammar character at the front of the text; 0 if there is none. */
  function CharLength(s: seq<byte>): (k: nat)
    ensures k <= |s| && k <= 4 && (k > 0 ==> Utf8Char(s[..k]))
  {
    if |s| >= 1 && Utf8Char(s[..1]) then 1
    else if |s| >= 2 && Utf8Char(s[..2]) then 2
    else if |s| >= 3 && Utf8Char(s[..3]) then 3
    else if |s| >= 4 && Utf8Char(s[..4]) then 4
    else 0
  }

  /** The text starts with `n` grammar characters, or consists of fewer. */
  predicate WellFormedFor(s: seq<byte>, n: nat) {
    n == 0 || s == [] || (CharLength(s) > 0 && WellFormedFor(s[CharLength(s)..], n - 1))
  }

  /** `UTF8-octets`. */
  predicate Valid(s: seq<byte>) {
    s == [] || (CharLength(s) > 0 && Valid(s[CharLength(s)..]))
  }

  /** No grammar character is a proper prefix of another. */
  lemma CharLengthUnique(s: seq<byte>, k: nat)
    requires 1 <= k <= |s| && k <= 4 && Utf8Char(s[..k])
    ensures CharLength(s) == k
  {
    var j := CharLength(s);
    assert s[..k][0] == s[0];
    if j > 0 {
      assert s[..j][0] == s[0];
    }
  }

  // ---------------------------------------------------------------- encoding and decoding

  lemma DecodeEncodeRune(r: int, rest: seq<byte>)
    requires IsRune(r)
    ensures EncodeRune(r) != [] && DecodeFirst(EncodeRune(r) + rest) == Decoded(r, |EncodeRune(r)|)
  {
    var s := EncodeRune(r) + rest;
    if r < 0x80 {
    } else if r < 0x800 {
    } else if r < 0x10000 {
      assert r / 0x40 / 0x40 == r / 0x1000;
    } else {
      assert r / 0x40 / 0x40 == r / 0x1000 && r / 0x1000 / 0x40 == r / 0x40000;
    }
  }

  lemma Unpack(high: int, tail: byte)
    requires Tail(tail)
    ensures Pack(high, tail) / 0x40 == high && 0x80 + Pack(high, tail) % 0x40 == tail
  {
  }

  lemma EncodeTwo(a: byte, b: byte)
    requires Utf8Char([a, b])
    ensures IsRune(Pack(a - 0xC0, b)) && EncodeRune(Pack(a - 0xC0, b)) == [a, b]
  {
    Unpack(a - 0xC0, b);
  }

  /** Two packed tails taken apart again. */
  lemma UnpackTwice(top: int, b: byte, c: byte)
    requires Tail(b) && Tail(c) && top >= 0
    ensures var r := Pack(Pack(top, b), c);
      r / 0x1000 == top && 0x80 + r / 0x40 % 0x40 == b && 0x80 + r % 0x40 == c
  {
    var high := Pack(top, b);
    Unpack(top, b);
    Unpack(high, c);
    DivTwice(Pack(high, c));
  }

  lemma DivTwice(r: int)
    requires r >= 0
    ensures r / 0x40 / 0x40 == r / 0x1000
  {
  }

  lemma EncodeThree(a: byte, b: byte, c: byte)
    requires Utf8Char([a, b, c])
    ensures var r := Pack(Pack(a - 0xE0, b), c); IsRune(r) && EncodeRune(r) == [a, b, c]
  {
    ThreeRange(a, b, c);
    UnpackTwice(a - 0xE0, b, c);
  }

  lemma ThreeRange(a: byte, b: byte, c: byte)
    requires Utf8Char([a, b, c])
    ensures Tail(b) && Tail(c) && a >= 0xE0
    ensures var r := Pack(Pack(a - 0xE0, b), c); 0x800 <= r < 0xD800 || 0xE000 <= r < 0x10000
  {
  }

  lemma EncodeFour(a: byte, b: byte, c: byte, d: byte)
    requires Utf8Char([a, b, c, d])
    ensures var r := Pack(Pack(Pack(a - 0xF0, b), c), d); IsRune(r) && EncodeRune(r) == [a, b, c, d]
  {
    var top := Pack(a - 0xF0, b);
    var high := Pack(top, c);
    var r := Pack(high, d);
    Unpack(a - 0xF0, b);
    Unpack(top, c);
    Unpack(high, d);
    assert r / 0x1000 == high / 0x40 && r / 0x40000 == top / 0x40;
  }

  /** A grammar character decodes to the rune it encodes. */
  lemma CharDecodes(s: seq<byte>, k: nat)
    requires 1 <= k <= |s| && k <= 4 && Utf8Char(s[..k])
    ensures DecodeFirst(s).width == k && EncodeRune(DecodeFirst(s).rune) == s[..k]
  {
    if k == 1 {
      assert s[..1] == [s[0]];
    } else if k == 2 {
      assert s[..2] == [s[0], s[1]];
      EncodeTwo(s[0], s[1]);
    } else if k == 3 {
      assert s[..3] == [s[0], s[1], s[2]];
      EncodeThree(s[0], s[1], s[2]);
    } else {
      assert s[..4] == [s[0], s[1], s[2], s[3]];
      EncodeFour(s[0], s[1], s[2], s[3]);
    }
  }

  lemma {:induction false} DecodeEncode(rs: seq<int>)
    requires AllRunes(rs)
    ensures Decode(Encode(rs)) == rs
  {
    if rs != [] {
      DecodeEncodeRune(rs[0], Encode(rs[1..]));
      var s := Encode(rs);
      assert s[|EncodeRune(rs[0])|..] == Encode(rs[1..]);
      DecodeEncode(rs[1..]);
    }
  }

  lemma {:induction false} EncodeDecodePrefix(s: seq<byte>, n: nat)
    requires WellFormedFor(s, n) && n <= RuneCount(s)
    ensures Encode(Decode(s)[..n]) <= s
    decreases n
  {
    if n > 0 {
      var k := CharLength(s);
      TakeChar(s, n);
      EncodeDecodePrefix(s[k..], n - 1);
      PrependPrefix(s, s[..k], Encode(Decode(s[k..])[..n - 1]));
    }
  }

  /** A grammar character in front is encoded back as it stands. */
  lemma TakeChar(s: seq<byte>, n: nat)
    requires 0 < n <= RuneCount(s) && CharLength(s) > 0
    ensures var k := CharLength(s);
      n - 1 <= RuneCount(s[k..]) && Encode(Decode(s)[..n]) == s[..k] + Encode(Decode(s[k..])[..n - 1])
  {
    CharDecodes(s, CharLength(s));
    TakeFirst(s, n);
  }

  lemma PrependPrefix(s: seq<byte>, c: seq<byte>, tail: seq<byte>)
    requires c <= s
    ensures c + tail <= s <==> tail <= s[|c|..]
  {
    if c + tail <= s {
      assert tail == s[|c|..][..|tail|];
    }
  }

  /** Re-encoding the first runes, one step at a time. */
  lemma TakeFirst(s: seq<byte>, n: nat)
    requires 0 < n <= RuneCount(s)
    ensures var d := DecodeFirst(s);
      && n - 1 <= RuneCount(s[d.width..])
      && Encode(Decode(s)[..n]) == EncodeRune(d.rune) + Encode(Decode(s[d.width..])[..n - 1])
  {
    var d := DecodeFirst(s);
    FirstThenRest(d.rune, Decode(s[d.width..]), n);
    EncodeCons(d.rune, Decode(s[d.width..])[..n - 1]);
  }

  lemma FirstThenRest(r: int, rs: seq<int>, n: nat)
    requires 0 < n <= |rs| + 1
    ensures ([r] + rs)[..n] == [r] + rs[..n - 1]
  {
  }

  lemma EncodeCons(r: int, rs: seq<int>)
    requires IsRune(r) && AllRunes(rs)
    ensures AllRunes([r] + rs) && Encode([r] + rs) == EncodeRune(r) + Encode(rs)
  {
    assert ([r] + rs)[1..] == rs;
  }

  lemma {:induction false} ValidIsWellFormed(s: seq<byte>, n: nat)
    requires Valid(s)
    ensures WellFormedFor(s, n)
    decreases n
  {
    if n > 0 && s != [] {
      ValidIsWellFormed(s[CharLength(s)..], n - 1);
    }
  }

  lemma {:induction false} EncodedIsValid(rs: seq<int>)
    requires AllRunes(rs)
    ensures Valid(Encode(rs))
  {
    if rs != [] {
      var c, s := EncodeRune(rs[0]), Encode(rs);
      RuneIsChar(rs[0]);
      assert s[..|c|] == c && s[|c|..] == Encode(rs[1..]);
      CharLengthUnique(s, |c|);
      EncodedIsValid(rs[1..]);
    }
  }

  lemma RuneIsChar(r: int)
    requires IsRune(r)
    ensures Utf8Char(EncodeRune(r)) && 1 <= |EncodeRune(r)| <= 4
  {
    if 0x800 <= r < 0x10000 {
      assert r / 0x40 / 0x40 == r / 0x1000;
    } else if r >= 0x10000 {
      assert r / 0x1000 / 0x40 == r / 0x40000;
    }
  }

  /** A rune whose encoding is in front of the text was decoded from a grammar character. */
  lemma FrontIsChar(s: seq<byte>)
    requires s != [] && EncodeRune(DecodeFirst(s).rune) <= s
    ensures CharLength(s) == DecodeFirst(s).width == |EncodeRune(DecodeFirst(s).rune)|
  {
    var c := EncodeRune(DecodeFirst(s).rune);
    RuneIsChar(DecodeFirst(s).rune);
    assert s[..|c|] == c;
    CharDecodes(s, |c|);
    CharLengthUnique(s, |c|);
  }

  /** If the encoded first runes are a prefix of the text, those runes were grammar characters. */
  lemma {:induction false} PrefixIsWellFormed(s: seq<byte>, n: nat)
    requires n <= RuneCount(s) && Encode(Decode(s)[..n]) <= s
    ensures WellFormedFor(s, n)
    decreases n
  {
    if n > 0 {
      var c := EncodeRune(DecodeFirst(s).rune);
      var tail := Encode(Decode(s[DecodeFirst(s).width..])[..n - 1]);
      TakeFirst(s, n);
      assert c <= c + tail <= s;
      FrontIsChar(s);
      PrependPrefix(s, c, tail);
      PrefixIsWellFormed(s[|c|..], n - 1);
    }
  }

  // ---------------------------------------------------------------- counting runes of joined texts

  /** The first character of a joined text is that of the first part, or begins in it and ends in the second. */
  lemma FirstOfJoin(a: seq<byte>, b: seq<byte>)
    requires a != []
    ensures var w, w' := DecodeFirst(a).width, DecodeFirst(a + b).width;
      w' == w || (w == 1 && |a| < w' && forall i :: 0 <= i < w' - |a| ==> Tail(b[i]))
  {
    var s := a + b;
    assert s[0] == a[0];
    if |s| > 1 { assert s[1] == if |a| > 1 then a[1] else b[0]; }
    if |s| > 2 { assert s[2] == if |a| > 2 then a[2] else b[2 - |a|]; }
    if |s| > 3 { assert s[3] == if |a| > 3 then a[3] else b[3 - |a|]; }
  }

  /** No character starts with a tail byte. */
  lemma {:induction false} TailsCount(s: seq<byte>, n: nat)
    requires n <= |s| && forall i :: 0 <= i < n ==> Tail(s[i])
    ensures RuneCount(s) == n + RuneCount(s[n..])
  {
    if n > 0 {
      assert DecodeFirst(s).width == 1;
      TailsCount(s[1..], n - 1);
      assert s[1..][n - 1..] == s[n..];
    } else {
      assert s[0..] == s;
    }
  }

  /** Joining two texts makes no new characters: where they meet, two parts of one may become one. */
  lemma {:induction false} RuneCountJoin(a: seq<byte>, b: seq<byte>)
    ensures RuneCount(a + b) <= RuneCount(a) + RuneCount(b)
    decreases |a|
  {
    if a == [] {
      assert a + b == b;
    } else {
      var w, w' := DecodeFirst(a).width, DecodeFirst(a + b).width;
      FirstOfJoin(a, b);
      if w' == w {
        assert (a + b)[w..] == a[w..] + b;
        RuneCountJoin(a[w..], b);
      } else {
        assert (a + b)[w'..] == b[w' - |a|..];
        TailsCount(b, w' - |a|);
      }
    }
  }
}
