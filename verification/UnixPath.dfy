/** Lexical path algebra of Go's `path/filepath` on Unix, as operations on component lists. */
module UnixPath {
  import opened Text

  /** The text between slashes, empty pieces included. */
  function Split(s: string): (r: seq<string>)
    ensures |r| >= 1
    ensures forall c :: c in r ==> '/' !in c
  {
    if s == "" then [""]
    else if s[0] == '/' then [""] + Split(s[1..])
    else
      var rest := Split(s[1..]);
      [[s[0]] + rest[0]] + rest[1..]
  }

  function Join(cs: seq<string>): string {
    if cs == [] then "" else if |cs| == 1 then cs[0] else cs[0] + "/" + Join(cs[1..])
  }

  /** One component met while walking down a path with a stack of kept components. */
  function Push(rooted: bool, stack: seq<string>, c: string): seq<string> {
    if c == "" || c == "." then stack
    else if c == ".." then
      if stack != [] && stack[|stack| - 1] != ".." then stack[..|stack| - 1]
      else if rooted then stack
      else stack + [c]
    else stack + [c]
  }

  function Walk(rooted: bool, stack: seq<string>, cs: seq<string>): seq<string>
    decreases |cs|
  {
    if cs == [] then stack else Walk(rooted, Push(rooted, stack, cs[0]), cs[1..])
  }

  predicate IsAbs(p: string) {
    p != "" && p[0] == '/'
  }

  /** The components a path denotes once `.`, `..` and empty pieces are resolved. */
  function Components(p: string): seq<string> {
    Walk(IsAbs(p), [], Split(p))
  }

  /** Text of a resolved component list. */
  function Render(rooted: bool, cs: seq<string>): string {
    if rooted then "/" + Join(cs) else Join(cs)
  }

  function Clean(p: string): string {
    if !IsAbs(p) && Components(p) == [] then "." else Render(IsAbs(p), Components(p))
  }

  /** `filepath.Join` of two elements: empty elements are skipped, the rest cleaned. */
  function JoinPath(a: string, b: string): string {
    if a == "" && b == "" then "" else if a == "" then Clean(b) else if b == "" then Clean(a) else Clean(a + "/" + b)
  }

  /** Everything up to and including the last slash. */
  function UpToLastSlash(p: string): string {
    if p == "" || p[|p| - 1] == '/' then p else UpToLastSlash(p[..|p| - 1])
  }

  function Dir(p: string): string {
    Clean(UpToLastSlash(p))
  }

  /** A component that survives cleaning of a rooted path. */
  predicate Plain(c: string) {
    c != "" && c != "." && c != ".." && '/' !in c
  }

  predicate AllPlain(cs: seq<string>) {
    forall i :: 0 <= i < |cs| ==> Plain(cs[i])
  }

  // ---------------------------------------------------------------- walking

  lemma {:induction false} WalkPlain(stack: seq<string>, cs: seq<string>)
    requires AllPlain(stack) && forall c :: c in cs ==> '/' !in c
    ensures AllPlain(Walk(true, stack, cs))
    decreases |cs|
  {
    if cs != [] {
      WalkPlain(Push(true, stack, cs[0]), cs[1..]);
    }
  }

  lemma {:induction false} WalkAppend(rooted: bool, stack: seq<string>, a: seq<string>, b: seq<string>)
    ensures Walk(rooted, stack, a + b) == Walk(rooted, Walk(rooted, stack, a), b)
    decreases |a|
  {
    if a == [] {
      assert a + b == b;
    } else {
      assert (a + b)[1..] == a[1..] + b;
      WalkAppend(rooted, Push(rooted, stack, a[0]), a[1..], b);
    }
  }

  lemma {:induction false} WalkKeepsPlain(rooted: bool, stack: seq<string>, cs: seq<string>)
    requires AllPlain(cs)
    ensures Walk(rooted, stack, cs) == stack + cs
    decreases |cs|
  {
    if cs == [] {
      assert stack + cs == stack;
    } else {
      WalkKeepsPlain(rooted, stack + [cs[0]], cs[1..]);
      assert stack + [cs[0]] + cs[1..] == stack + cs;
    }
  }

  // ---------------------------------------------------------------- splitting

  lemma {:induction false} SplitComponent(c: string)
    requires '/' !in c
    ensures Split(c) == [c]
  {
    if c != "" {
      SplitComponent(c[1..]);
      assert [c[0]] + c[1..] == c;
    }
  }

  lemma SplitCons(c: char, s: string)
    ensures Split([c] + s) == if c == '/' then [""] + Split(s) else [[c] + Split(s)[0]] + Split(s)[1..]
  {
    assert ([c] + s)[1..] == s;
  }

  lemma PiecesInFront(piece: string, s: seq<string>, more: seq<string>)
    ensures [piece] + (s + more) == ([piece] + s) + more
  {
  }

  lemma FrontThenRest(s: seq<string>, more: seq<string>)
    requires s != []
    ensures (s + more)[0] == s[0] && (s + more)[1..] == s[1..] + more
  {
  }

  /** A character in front goes into the first piece, or makes an empty one, whatever follows. */
  lemma SplitConsTwice(c: char, front: string, whole: string, more: seq<string>)
    requires Split(whole) == Split(front) + more
    ensures Split([c] + whole) == Split([c] + front) + more
  {
    SplitCons(c, whole);
    SplitCons(c, front);
    var s := Split(front);
    FrontThenRest(s, more);
    PiecesInFront("", s, more);
    PiecesInFront([c] + s[0], s[1..], more);
  }

  lemma {:induction false} SplitAtSlash(a: string, b: string)
    ensures Split(a + "/" + b) == Split(a) + Split(b)
    decreases |a|
  {
    if a == "" {
      assert a + "/" + b == ['/'] + b;
      SplitCons('/', b);
    } else {
      var tail := a[1..] + "/" + b;
      assert a + "/" + b == [a[0]] + tail && a == [a[0]] + a[1..];
      SplitAtSlash(a[1..], b);
      SplitConsTwice(a[0], a[1..], tail, Split(b));
    }
  }

  lemma {:induction false} SplitJoin(cs: seq<string>)
    requires cs != [] && forall c :: c in cs ==> '/' !in c
    ensures Split(Join(cs)) == cs
  {
    SplitComponent(cs[0]);
    if |cs| > 1 {
      SplitJoin(cs[1..]);
      SplitAtSlash(cs[0], Join(cs[1..]));
    }
  }

  lemma {:induction false} JoinAppend(a: seq<string>, c: string)
    ensures Join(a + [c]) == if a == [] then c else Join(a) + "/" + c
  {
    if |a| > 1 {
      assert (a + [c])[1..] == a[1..] + [c];
      JoinAppend(a[1..], c);
    }
  }

  // ---------------------------------------------------------------- absolute paths

  lemma AbsComponents(p: string)
    requires IsAbs(p)
    ensures AllPlain(Components(p))
    ensures Clean(p) == "/" + Join(Components(p)) && IsAbs(Clean(p))
  {
    WalkPlain([], Split(p));
  }

  lemma RenderedComponents(cs: seq<string>)
    requires AllPlain(cs)
    ensures Components("/" + Join(cs)) == cs && Clean("/" + Join(cs)) == "/" + Join(cs)
  {
    var p := "/" + Join(cs);
    assert p == ['/'] + Join(cs);
    SplitCons('/', Join(cs));
    if cs == [] {
      assert Walk(true, [], ["", ""]) == Walk(true, [], [""]) == [];
    } else {
      SplitJoin(cs);
      assert Split(p)[1..] == cs;
      WalkKeepsPlain(true, [], cs);
      assert [] + cs == cs;
    }
  }

  /** Cleaning an absolute path is idempotent and leaves only plain components behind. */
  lemma CleanIdempotent(p: string)
    requires IsAbs(p)
    ensures Clean(Clean(p)) == Clean(p) && Components(Clean(p)) == Components(p)
    ensures AllPlain(Components(p))
  {
    AbsComponents(p);
    RenderedComponents(Components(p));
  }

  /** Two absolute paths clean to the same text exactly when they denote the same components. */
  lemma CleanInjective(p: string, q: string)
    requires IsAbs(p) && IsAbs(q)
    ensures Clean(p) == Clean(q) <==> Components(p) == Components(q)
  {
    CleanIdempotent(p);
    CleanIdempotent(q);
    AbsComponents(p);
    AbsComponents(q);
  }

  lemma CleanIsRoot(p: string)
    requires IsAbs(p)
    ensures Clean(p) == "/" <==> Components(p) == []
  {
    AbsComponents(p);
    var cs := Components(p);
    if cs != [] {
      assert Plain(cs[0]);
      assert |Join(cs)| >= |cs[0]| > 0;
    }
  }

  /** Joining below an absolute path appends the resolved components. */
  lemma JoinComponents(a: string, b: string)
    requires IsAbs(a) && b != ""
    ensures IsAbs(JoinPath(a, b))
    ensures Components(JoinPath(a, b)) == Walk(true, Components(a), Split(b))
  {
    var p := a + "/" + b;
    SplitAtSlash(a, b);
    WalkAppend(true, [], Split(a), Split(b));
    CleanIdempotent(p);
    AbsComponents(p);
  }

  lemma JoinPlainComponents(a: string, c: string)
    requires IsAbs(a) && Plain(c)
    ensures IsAbs(JoinPath(a, c)) && Components(JoinPath(a, c)) == Components(a) + [c]
  {
    JoinComponents(a, c);
    SplitComponent(c);
    WalkKeepsPlain(true, Components(a), [c]);
  }

  /** The text of a path with one more component. */
  lemma TextWithComponent(a: string, c: string)
    requires IsAbs(a)
    ensures "/" + Join(Components(a) + [c]) == (if Clean(a) == "/" then "" else Clean(a)) + "/" + c
  {
    AbsComponents(a);
    CleanIsRoot(a);
    JoinAppend(Components(a), c);
  }

  lemma JoinIsClean(a: string, c: string)
    requires IsAbs(a) && c != ""
    ensures Clean(JoinPath(a, c)) == JoinPath(a, c)
  {
    CleanIdempotent(a + "/" + c);
  }

  lemma JoinPlain(a: string, c: string)
    requires IsAbs(a) && Plain(c)
    ensures IsAbs(JoinPath(a, c))
    ensures Components(JoinPath(a, c)) == Components(a) + [c]
    ensures JoinPath(a, c) == (if Clean(a) == "/" then "" else Clean(a)) + "/" + c
    ensures Clean(JoinPath(a, c)) == JoinPath(a, c)
  {
    JoinPlainComponents(a, c);
    JoinIsClean(a, c);
    AbsComponents(JoinPath(a, c));
    TextWithComponent(a, c);
  }

  // ---------------------------------------------------------------- containment

  lemma {:induction false} JoinPrefix(a: seq<string>, b: seq<string>)
    requires a != [] && b != []
    ensures Join(a + b) == Join(a) + "/" + Join(b)
    decreases |a|
  {
    if |a| == 1 {
      assert (a + b)[1..] == b;
    } else {
      assert (a + b)[1..] == a[1..] + b;
      JoinPrefix(a[1..], b);
    }
  }

  /** The textual test "equal, or starts with root + separator" on cleaned absolute paths is
      exactly the component-prefix relation. */
  lemma UnderMeansPrefix(p: string, root: string)
    requires IsAbs(p) && IsAbs(root) && Clean(root) != "/"
    ensures (Clean(p) == Clean(root) || HasPrefix(Clean(p), Clean(root) + "/")) <==> Components(root) <= Components(p)
  {
    CleanInjective(p, root);
    CleanIsRoot(root);
    if Components(root) <= Components(p) && Components(root) != Components(p) {
      PrefixMeansUnder(p, root);
    }
    if HasPrefix(Clean(p), Clean(root) + "/") {
      UnderSplits(p, root);
    }
  }

  lemma PrefixMeansUnder(p: string, root: string)
    requires IsAbs(p) && IsAbs(root) && Components(root) != []
    requires Components(root) < Components(p)
    ensures HasPrefix(Clean(p), Clean(root) + "/")
  {
    var pc, rc := Components(p), Components(root);
    AbsComponents(p);
    AbsComponents(root);
    var rest := pc[|rc|..];
    assert pc == rc + rest;
    JoinPrefix(rc, rest);
    StartsWith(Join(rc), Join(rest));
  }

  lemma StartsWith(a: string, b: string)
    ensures "/" + a + "/" <= "/" + (a + "/" + b)
  {
    assert "/" + (a + "/" + b) == "/" + a + "/" + b;
  }

  lemma UnderSplits(p: string, root: string)
    requires IsAbs(p) && IsAbs(root) && Components(root) != [] && HasPrefix(Clean(p), Clean(root) + "/")
    ensures Components(root) <= Components(p)
  {
    var tail := Remainder(Clean(p), Clean(root) + "/");
    SplitAtSlash(Clean(root), tail);
    CleanSplit(p);
    CleanSplit(root);
    SamePieces(Components(p), Components(root), Split(tail));
  }

  function Remainder(s: string, prefix: string): (tail: string)
    requires prefix <= s
    ensures s == prefix + tail
  {
    s[|prefix|..]
  }

  lemma SamePieces(pc: seq<string>, rc: seq<string>, more: seq<string>)
    requires rc != [] && more != []
    requires [""] + (if pc == [] then [""] else pc) == ([""] + rc) + more
    ensures rc <= pc
  {
    var x := if pc == [] then [""] else pc;
    assert |x| == |rc| + |more|;
    assert x == ([""] + x)[1..] && rc + more == (([""] + rc) + more)[1..];
  }

  lemma CleanSplit(p: string)
    requires IsAbs(p)
    ensures Split(Clean(p)) == [""] + (if Components(p) == [] then [""] else Components(p))
  {
    AbsComponents(p);
    var cs := Components(p);
    assert Clean(p)[1..] == Join(cs);
    if cs != [] {
      SplitJoin(cs);
    }
  }
}
