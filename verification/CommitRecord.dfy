/** Reading one commit back from `git log -1 -z --format=%H%x00%s%x00%an <%ae>`, on raw bytes. */
module CommitRecord {
  import opened Text
  import opened Utf8
  import opened BoundedText

  const NUL: byte := 0
  const GT: byte := 0x3E

  /** Unicode White_Space, as `strings.TrimSpace` uses it. */
  predicate IsSpaceRune(r: int) {
    9 <= r <= 13 || r == 0x20 || r == 0x85 || r == 0xA0 || r == 0x1680 || 0x2000 <= r <= 0x200A
    || r == 0x2028 || r == 0x2029 || r == 0x202F || r == 0x205F || r == 0x3000
  }

  /** Bytes and text are trimmed of the same characters. */
  lemma SameSpaces(c: char)
    ensures IsSpaceRune(c as int) <==> IsSpace(c)
  {
  }

  function TrimLeftBytes(s: seq<byte>): (t: seq<byte>)
    ensures |t| <= |s| && t == s[|s| - |t|..]
    ensures t != [] ==> !IsSpaceRune(DecodeFirst(t).rune)
  {
    if s != [] && IsSpaceRune(DecodeFirst(s).rune) then TrimLeftBytes(s[DecodeFirst(s).width..]) else s
  }

  /** Start of the last rune: back over at most three continuation bytes. */
  function LastStart(s: seq<byte>, from: nat, limit: nat): (k: nat)
    requires from < |s|
    ensures k <= from
    decreases limit
  {
    if Tail(s[from]) && from > 0 && limit > 0 then LastStart(s, from - 1, limit - 1) else from
  }

  /** `utf8.DecodeLastRune`. */
  function DecodeLast(s: seq<byte>): (d: Decoded)
    requires s != []
    ensures 1 <= d.width <= |s|
  {
    var k := LastStart(s, |s| - 1, 3);
    var d := DecodeFirst(s[k..]);
    if k + d.width == |s| then d else Decoded(RuneError, 1)
  }

  function TrimRightBytes(s: seq<byte>): (t: seq<byte>)
    ensures t <= s
  {
    if s != [] && IsSpaceRune(DecodeLast(s).rune) then TrimRightBytes(s[..|s| - DecodeLast(s).width]) else s
  }

  function TrimBytes(s: seq<byte>): seq<byte> {
    TrimRightBytes(TrimLeftBytes(s))
  }

  /** `strings.Split` at NUL. */
  function SplitNul(s: seq<byte>): (r: seq<seq<byte>>)
    ensures |r| >= 1
  {
    if s == [] then [[]]
    else if s[0] == NUL then [[]] + SplitNul(s[1..])
    else
      var rest := SplitNul(s[1..]);
      [[s[0]] + rest[0]] + rest[1..]
  }

  function TrimNulSuffix(s: seq<byte>): seq<byte> {
    if s != [] && s[|s| - 1] == NUL then s[..|s| - 1] else s
  }

  datatype Commit = Commit(sha: seq<byte>, subject: seq<byte>, author: seq<byte>)

  /** The fields between the NULs; a fourth empty piece is dropped. `None` is "unexpected git log format". */
  function FromPieces(split: seq<seq<byte>>): Option<Commit> {
    var parts := if |split| == 4 && split[3] == [] then split[..3] else split;
    if |parts| != 3 then None else Some(Commit(TrimBytes(parts[0]), TrimBytes(parts[1]), TrimBytes(parts[2])))
  }

  /** The three trimmed fields. `runGit` trims standard output once, `readCommitObservation` once more. */
  function Fields(out: seq<byte>): Option<Commit> {
    FromPieces(SplitNul(TrimNulSuffix(TrimBytes(TrimBytes(out)))))
  }

  function Bounded(c: Commit): Commit {
    Commit(c.sha, TruncateRunes(c.subject, 9000), TruncateRunes(c.author, 500))
  }

  function ParseCommit(out: seq<byte>): Option<Commit> {
    var c := Fields(out);
    if c.None? then None else Some(Bounded(c.value))
  }

  function Nuls(k: nat): seq<byte> {
    if k == 0 then [] else [NUL] + Nuls(k - 1)
  }

  /** Standard output of the log command: three fields and whatever terminators git appends. */
  function LogOutput(hash: seq<byte>, subject: seq<byte>, author: seq<byte>, terminators: nat): seq<byte> {
    hash + [NUL] + subject + [NUL] + author + Nuls(terminators)
  }

  // ---------------------------------------------------------------- trimming

  /** A NUL after the text never completes a rune, so it does not change how the front decodes. */
  lemma DecodeBeforeNul(s: seq<byte>, rest: seq<byte>)
    requires s != []
    ensures DecodeFirst(s + [NUL] + rest) == DecodeFirst(s)
  {
    var t := s + [NUL] + rest;
    assert t[0] == s[0];
    if |s| > 1 { assert t[1] == s[1]; } else { assert t[1] == NUL; }
    if |s| > 2 { assert t[2] == s[2]; } else if |s| == 2 { assert t[2] == NUL; }
    if |s| > 3 { assert t[3] == s[3]; } else if |s| == 3 { assert t[3] == NUL; }
  }

  lemma {:induction false} TrimLeftBeforeNul(s: seq<byte>, rest: seq<byte>)
    ensures TrimLeftBytes(s + [NUL] + rest) == TrimLeftBytes(s) + [NUL] + rest
    decreases |s|
  {
    if s == [] {
      assert s + [NUL] + rest == [NUL] + rest;
    } else {
      DecodeBeforeNul(s, rest);
      var d := DecodeFirst(s);
      if IsSpaceRune(d.rune) {
        assert (s + [NUL] + rest)[d.width..] == s[d.width..] + [NUL] + rest;
        TrimLeftBeforeNul(s[d.width..], rest);
      }
    }
  }

  lemma TrimRightStops(s: seq<byte>)
    requires s != [] && (s[|s| - 1] == NUL || s[|s| - 1] == GT)
    ensures TrimRightBytes(s) == s
  {
    LastIsAscii(s);
  }

  lemma LastIsAscii(s: seq<byte>)
    requires s != [] && (s[|s| - 1] == NUL || s[|s| - 1] == GT)
    ensures !IsSpaceRune(DecodeLast(s).rune)
  {
    var last := s[|s| - 1..];
    assert last == [s[|s| - 1]];
    assert LastStart(s, |s| - 1, 3) == |s| - 1;
    assert DecodeFirst(last).rune == s[|s| - 1];
  }

  /** Trimming the raw output touches nothing but white space before the hash. */
  lemma TrimOutput(hash: seq<byte>, rest: seq<byte>)
    requires rest != [] && (rest[|rest| - 1] == NUL || rest[|rest| - 1] == GT)
    ensures TrimBytes(TrimBytes(hash + [NUL] + rest)) == TrimLeftBytes(hash) + [NUL] + rest
  {
    var h := TrimLeftBytes(hash);
    var raw := h + [NUL] + rest;
    TrimLeftBeforeNul(hash, rest);
    TrimLeftBeforeNul(h, rest);
    assert TrimLeftBytes(h) == h;
    TrimRightStops(raw);
  }

  // ---------------------------------------------------------------- splitting

  predicate NulFree(s: seq<byte>) {
    NUL !in s
  }

  lemma {:induction false} SplitField(f: seq<byte>, rest: seq<byte>)
    requires NulFree(f)
    ensures SplitNul(f + [NUL] + rest) == [f] + SplitNul(rest)
    decreases |f|
  {
    var s := f + [NUL] + rest;
    if f == [] {
      assert s[0] == NUL && s[1..] == rest;
    } else {
      assert s[0] == f[0] && s[1..] == f[1..] + [NUL] + rest;
      SplitField(f[1..], rest);
      assert [f[0]] + f[1..] == f;
    }
  }

  lemma {:induction false} SplitWhole(f: seq<byte>)
    requires NulFree(f)
    ensures SplitNul(f) == [f]
    decreases |f|
  {
    if f != [] {
      SplitWhole(f[1..]);
      assert [f[0]] + f[1..] == f;
    }
  }

  /** Each terminator that is left adds one empty piece. */
  lemma {:induction false} SplitTerminators(f: seq<byte>, k: nat)
    requires NulFree(f)
    ensures SplitNul(f + Nuls(k))[0] == f && |SplitNul(f + Nuls(k))| == k + 1
    ensures k == 1 ==> SplitNul(f + Nuls(k)) == [f, []]
    decreases k
  {
    if k == 0 {
      assert f + Nuls(0) == f;
      SplitWhole(f);
    } else {
      assert f + Nuls(k) == f + [NUL] + Nuls(k - 1);
      SplitField(f, Nuls(k - 1));
      SplitTerminators([], k - 1);
      assert [] + Nuls(k - 1) == Nuls(k - 1);
      if k == 1 {
        assert SplitNul(Nuls(0)) == [[]];
      }
    }
  }

  lemma {:induction false} NulsEnd(k: nat)
    ensures |Nuls(k)| == k && (k > 0 ==> Nuls(k)[k - 1] == NUL && Nuls(k)[..k - 1] == Nuls(k - 1))
  {
    if k > 0 {
      NulsEnd(k - 1);
      if k > 1 {
        assert Nuls(k)[..k - 1] == [NUL] + Nuls(k - 1)[..k - 2];
      }
    }
  }

  /** The pieces left after one terminator has been removed. */
  lemma SplitRecord(h: seq<byte>, subject: seq<byte>, author: seq<byte>, k: nat)
    requires NulFree(h) && NulFree(subject) && NulFree(author)
    ensures var parts := SplitNul(h + [NUL] + (subject + [NUL] + (author + Nuls(k))));
      |parts| == k + 3 && parts[..3] == [h, subject, author] && (k == 1 ==> parts[3] == [])
  {
    var tail := author + Nuls(k);
    SplitField(h, subject + [NUL] + tail);
    SplitField(subject, tail);
    SplitTerminators(author, k);
  }

  /** Output with the white space before the hash and one terminator removed. */
  lemma TrimmedOutput(hash: seq<byte>, subject: seq<byte>, author: seq<byte>, terminators: nat)
    requires author != [] && author[|author| - 1] == GT
    ensures TrimNulSuffix(TrimBytes(TrimBytes(LogOutput(hash, subject, author, terminators))))
         == TrimLeftBytes(hash) + [NUL] + (subject + [NUL] + (author + Nuls(if terminators == 0 then 0 else terminators - 1)))
  {
    var rest := subject + [NUL] + (author + Nuls(terminators));
    NulsEnd(terminators);
    assert LogOutput(hash, subject, author, terminators) == hash + [NUL] + rest;
    TrimOutput(hash, rest);
    DropTerminator(TrimLeftBytes(hash), subject, author, terminators);
  }

  lemma DropTerminator(h: seq<byte>, subject: seq<byte>, author: seq<byte>, terminators: nat)
    requires author != [] && author[|author| - 1] == GT
    ensures TrimNulSuffix(h + [NUL] + (subject + [NUL] + (author + Nuls(terminators))))
         == h + [NUL] + (subject + [NUL] + (author + Nuls(if terminators == 0 then 0 else terminators - 1)))
  {
    NulsEnd(terminators);
    var front := h + [NUL] + (subject + [NUL] + author);
    assert h + [NUL] + (subject + [NUL] + (author + Nuls(terminators))) == front + Nuls(terminators);
    if terminators > 0 {
      assert h + [NUL] + (subject + [NUL] + (author + Nuls(terminators - 1))) == front + Nuls(terminators - 1);
      assert (front + Nuls(terminators))[..|front| + terminators - 1] == front + Nuls(terminators)[..terminators - 1];
    }
  }

  /** Three pieces, or three and one empty one, are the accepted shapes. */
  lemma PiecesOfRecord(split: seq<seq<byte>>, h: seq<byte>, subject: seq<byte>, author: seq<byte>)
    requires |split| >= 3 && split[..3] == [h, subject, author] && (|split| == 4 ==> split[3] == [])
    ensures FromPieces(split)
         == if |split| > 4 then None
            else Some(Commit(TrimBytes(h), TrimBytes(subject), TrimBytes(author)))
  {
    assert split[0] == split[..3][0] && split[1] == split[..3][1] && split[2] == split[..3][2];
  }

  lemma TrimLeftTwice(s: seq<byte>)
    ensures TrimBytes(TrimLeftBytes(s)) == TrimBytes(s)
  {
  }

  /** The three fields come back, trimmed, exactly when git appended at most two terminators. */
  lemma FieldsRoundTrip(hash: seq<byte>, subject: seq<byte>, author: seq<byte>, terminators: nat)
    requires NulFree(hash) && NulFree(subject) && NulFree(author)
    requires author != [] && author[|author| - 1] == GT
    ensures Fields(LogOutput(hash, subject, author, terminators))
         == if terminators > 2 then None else Some(Commit(TrimBytes(hash), TrimBytes(subject), TrimBytes(author)))
  {
    var h := TrimLeftBytes(hash);
    var k: nat := if terminators == 0 then 0 else terminators - 1;
    TrimmedOutput(hash, subject, author, terminators);
    SplitRecord(h, subject, author, k);
    PiecesOfRecord(SplitNul(h + [NUL] + (subject + [NUL] + (author + Nuls(k)))), h, subject, author);
    TrimLeftTwice(hash);
  }

  /** Trimmed and bounded, never the format error for zero, one or two terminators, always for more. */
  lemma CommitRoundTrip(hash: seq<byte>, subject: seq<byte>, author: seq<byte>, terminators: nat)
    requires NulFree(hash) && NulFree(subject) && NulFree(author)
    requires author != [] && author[|author| - 1] == GT
    ensures ParseCommit(LogOutput(hash, subject, author, terminators))
         == if terminators > 2 then None
            else Some(Commit(TrimBytes(hash), TruncateRunes(TrimBytes(subject), 9000), TruncateRunes(TrimBytes(author), 500)))
  {
    FieldsRoundTrip(hash, subject, author, terminators);
  }
}
