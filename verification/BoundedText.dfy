/** Bounded failure texts: `truncateRunes` and the bounds stacked on top of each other. */
module BoundedText {
  import opened Utf8

  function TruncateRunes(s: seq<byte>, max: int): seq<byte> {
    if max <= 0 || s == [] then s
    else if RuneCount(s) <= max then s
    else Encode(Decode(s)[..max])
  }

  /** A positive limit is a limit in characters, and what is cut stays cut by replaced runes only; any other
      limit leaves the text alone. */
  lemma TruncateBounds(s: seq<byte>, max: int)
    ensures max <= 0 || RuneCount(s) <= max ==> TruncateRunes(s, max) == s
    ensures max > 0 ==> RuneCount(TruncateRunes(s, max)) == if RuneCount(s) <= max then RuneCount(s) else max
    ensures 0 < max < RuneCount(s) ==> Valid(TruncateRunes(s, max)) && Decode(TruncateRunes(s, max)) == Decode(s)[..max]
  {
    if 0 < max < RuneCount(s) {
      DecodeEncode(Decode(s)[..max]);
      EncodedIsValid(Decode(s)[..max]);
    }
  }

  /** The result is a byte prefix exactly when nothing is cut or the kept part was well-formed. */
  lemma TruncatePrefixExact(s: seq<byte>, max: int)
    requires max > 0
    ensures TruncateRunes(s, max) <= s <==> RuneCount(s) <= max || WellFormedFor(s, max)
  {
    if RuneCount(s) > max {
      if WellFormedFor(s, max) {
        EncodeDecodePrefix(s, max);
      }
      if TruncateRunes(s, max) <= s {
        PrefixIsWellFormed(s, max);
      }
    }
  }

  lemma TruncateValid(s: seq<byte>, max: int)
    requires Valid(s)
    ensures TruncateRunes(s, max) <= s && Valid(TruncateRunes(s, max))
  {
    if max > 0 {
      ValidIsWellFormed(s, max);
      TruncatePrefixExact(s, max);
      TruncateBounds(s, max);
    }
  }

  /** Nested bounds compose: truncating twice is truncating at the smaller limit, for every byte string. */
  lemma TruncateCompose(s: seq<byte>, m: int, n: int)
    requires m > 0 && n > 0
    ensures TruncateRunes(TruncateRunes(s, m), n) == TruncateRunes(s, if m <= n then m else n)
  {
    TruncateBounds(s, m);
    if RuneCount(s) > m && n < m {
      assert Decode(s)[..m][..n] == Decode(s)[..n];
    }
  }

  const ColonSpace: seq<byte> := [0x3A, 0x20]

  /** `runGit`'s error text. */
  function GitFailure(exec: seq<byte>, stderr: seq<byte>): seq<byte> {
    exec + ColonSpace + TruncateRunes(stderr, 4000)
  }

  /** `boundedReason` and `boundedFail` with an error. */
  function BoundedReason(prefix: seq<byte>, err: seq<byte>): seq<byte> {
    TruncateRunes(prefix + ColonSpace + err, 19000)
  }

  /** The reason field of a failed row. */
  function FailedReason(reason: seq<byte>): seq<byte> {
    TruncateRunes(reason, 19000)
  }

  /** A reported failure is the bounded reason itself, at most 19000 characters, and the second bound changes
      nothing; of valid text it is a prefix of the whole message. It is the whole message, the stderr cut only
      by the runner's own bound, exactly when that has at most 19000 characters. */
  lemma ReportedReason(prefix: seq<byte>, exec: seq<byte>, stderr: seq<byte>)
    ensures var text := prefix + ColonSpace + GitFailure(exec, stderr);
      var reported := FailedReason(BoundedReason(prefix, GitFailure(exec, stderr)));
      && reported == BoundedReason(prefix, GitFailure(exec, stderr)) && RuneCount(reported) <= 19000
      && (reported == text <==> RuneCount(text) <= 19000)
      && (Valid(text) ==> reported <= text)
  {
    var text := prefix + ColonSpace + GitFailure(exec, stderr);
    TruncateCompose(text, 19000, 19000);
    TruncateBounds(text, 19000);
    if Valid(text) {
      TruncateValid(text, 19000);
    }
  }

  /** Whatever stderr holds, it is reported up to the runner's bound when the prefix and the exec error have at most
      14996 characters between them: 19000 less 4000 and the two separators. */
  lemma RoomForStderr(prefix: seq<byte>, exec: seq<byte>, stderr: seq<byte>)
    requires RuneCount(prefix) + RuneCount(exec) <= 14996
    ensures FailedReason(BoundedReason(prefix, GitFailure(exec, stderr)))
         == prefix + ColonSpace + (exec + ColonSpace + TruncateRunes(stderr, 4000))
  {
    var cut := TruncateRunes(stderr, 4000);
    TruncateBounds(stderr, 4000);
    SeparatorCount();
    RuneCountJoin(exec, ColonSpace);
    RuneCountJoin(exec + ColonSpace, cut);
    RuneCountJoin(prefix, ColonSpace);
    RuneCountJoin(prefix + ColonSpace, GitFailure(exec, stderr));
    ReportedReason(prefix, exec, stderr);
  }

  lemma SeparatorCount()
    ensures RuneCount(ColonSpace) == 2
  {
    assert ColonSpace[1..] == [0x20] && ColonSpace[1..][1..] == [];
    assert DecodeFirst(ColonSpace).width == 1 && DecodeFirst(ColonSpace[1..]).width == 1;
  }
}
