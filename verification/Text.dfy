/** Strings as the agent sees them after JSON or YAML decoding: sequences of Unicode characters.
    The trimming, case folding and searching below are those of Go's `strings` package. */
module Text {
  datatype Option<+T> = None | Some(value: T)

  datatype Result<+T, +E> = Success(value: T) | Failure(error: E)

  /** The characters `strings.TrimSpace` removes (Unicode White_Space). */
  predicate IsSpace(c: char) {
    c in " \t\n\U{0B}\U{0C}\r" || c == '\U{85}' || c == '\U{A0}' || c == '\U{1680}'
    || '\U{2000}' <= c <= '\U{200A}' || c == '\U{2028}' || c == '\U{2029}' || c == '\U{202F}'
    || c == '\U{205F}' || c == '\U{3000}'
  }

  function TrimLeft(s: string): string {
    if s != "" && IsSpace(s[0]) then TrimLeft(s[1..]) else s
  }

  function TrimRight(s: string): string {
    if s != "" && IsSpace(s[|s| - 1]) then TrimRight(s[..|s| - 1]) else s
  }

  function Trim(s: string): string {
    TrimRight(TrimLeft(s))
  }

  /** Neither end is white space: exactly the strings `Trim` leaves alone. */
  predicate Trimmed(s: string) {
    s != "" ==> !IsSpace(s[0]) && !IsSpace(s[|s| - 1])
  }

  lemma {:induction false} TrimRightShape(s: string)
    ensures TrimRight(s) <= s
    ensures TrimRight(s) != "" ==> !IsSpace(TrimRight(s)[|TrimRight(s)| - 1])
    ensures forall i :: |TrimRight(s)| <= i < |s| ==> IsSpace(s[i])
  {
    if s != "" && IsSpace(s[|s| - 1]) {
      TrimRightShape(s[..|s| - 1]);
    }
  }

  lemma {:induction false} TrimLeftShape(s: string)
    ensures |TrimLeft(s)| <= |s| && TrimLeft(s) == s[|s| - |TrimLeft(s)|..]
    ensures TrimLeft(s) != "" ==> !IsSpace(TrimLeft(s)[0])
    ensures forall i :: 0 <= i < |s| - |TrimLeft(s)| ==> IsSpace(s[i])
  {
    if s != "" && IsSpace(s[0]) {
      TrimLeftShape(s[1..]);
      forall i | 0 <= i < |s| - |TrimLeft(s)| ensures IsSpace(s[i]) {
        if i > 0 { assert s[i] == s[1..][i - 1]; }
      }
    }
  }

  /** `Trim` is a projection onto the trimmed strings. */
  lemma TrimIsTrimmed(s: string)
    ensures Trimmed(Trim(s)) && Trim(Trim(s)) == Trim(s)
    ensures Trim(s) == s <==> Trimmed(s)
  {
    TrimLeftShape(s);
    TrimRightShape(TrimLeft(s));
    if Trimmed(s) { assert TrimLeft(s) == s; }
  }

  /** What surrounds the trimmed text is white space. */
  lemma TrimSplit(s: string) returns (left: string, right: string)
    ensures s == left + Trim(s) + right
    ensures forall c :: c in left || c in right ==> IsSpace(c) && c in s
  {
    TrimLeftShape(s);
    var t := TrimLeft(s);
    TrimRightShape(t);
    left := s[..|s| - |t|];
    right := t[|Trim(s)|..];
    assert s == left + t && t == Trim(s) + right;
  }

  /** `strings.ToLower` on one character. Beyond ASCII only the two letters that fold into ASCII are
      mapped, so comparisons with the ASCII state names below are those of the source. */
  function LowerChar(c: char): char {
    if 'A' <= c <= 'Z' then c + 32 as char
    else if c == '\U{130}' then 'i'
    else if c == '\U{212A}' then 'k'
    else c
  }

  function ToLower(s: string): (r: string)
    ensures |r| == |s| && forall i :: 0 <= i < |s| ==> r[i] == LowerChar(s[i])
  {
    if s == "" then "" else [LowerChar(s[0])] + ToLower(s[1..])
  }

  /** The same letter, in either case. */
  predicate SameLetter(c: char, d: char) {
    c == d || ('A' <= c <= 'Z' && d as int == c as int + 32) || ('A' <= d <= 'Z' && c as int == d as int + 32)
  }

  lemma SameFold(c: char, d: char)
    requires c < '\U{80}' && d < '\U{80}'
    ensures LowerChar(c) == LowerChar(d) <==> SameLetter(c, d)
  {
  }

  /** ASCII texts fold to the same exactly when they agree letter by letter. */
  lemma {:induction false} FoldExactly(s: string, t: string)
    requires |s| == |t| && forall i :: 0 <= i < |s| ==> s[i] < '\U{80}' && t[i] < '\U{80}'
    ensures ToLower(s) == ToLower(t) <==> forall i :: 0 <= i < |s| ==> SameLetter(s[i], t[i])
  {
    if s != "" {
      SameFold(s[0], t[0]);
      FoldExactly(s[1..], t[1..]);
      assert ToLower(s) == [LowerChar(s[0])] + ToLower(s[1..]) && ToLower(t) == [LowerChar(t[0])] + ToLower(t[1..]);
      assert ToLower(s)[1..] == ToLower(s[1..]) && ToLower(t)[1..] == ToLower(t[1..]);
      LettersFromFirst(s, t);
    }
  }

  lemma LettersFromFirst(s: string, t: string)
    requires |s| == |t| > 0
    ensures (forall i :: 0 <= i < |s| ==> SameLetter(s[i], t[i])) <==>
      SameLetter(s[0], t[0]) && forall i :: 0 <= i < |s[1..]| ==> SameLetter(s[1..][i], t[1..][i])
  {
    if SameLetter(s[0], t[0]) && forall i :: 0 <= i < |s[1..]| ==> SameLetter(s[1..][i], t[1..][i]) {
      forall i | 0 <= i < |s| ensures SameLetter(s[i], t[i]) {
        assert i > 0 ==> SameLetter(s[1..][i - 1], t[1..][i - 1]);
      }
    }
  }

  predicate Contains(s: string, t: string) {
    exists i {:trigger s[i..]} :: 0 <= i <= |s| && t <= s[i..]
  }

  predicate ContainsAny(s: string, chars: string) {
    exists c :: c in s && c in chars
  }

  predicate HasPrefix(s: string, t: string) {
    t <= s
  }

  /** `len(s)` in Go: bytes of the UTF-8 form. */
  function ByteLength(s: string): nat {
    if s == "" then 0 else CharWidth(s[0]) + ByteLength(s[1..])
  }

  function CharWidth(c: char): nat {
    if c < '\U{80}' then 1 else if c < '\U{800}' then 2 else if c < '\U{10000}' then 3 else 4
  }
}
