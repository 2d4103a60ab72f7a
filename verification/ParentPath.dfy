/** The parent directory of an accepted deploy path, which a git run validates against the same roots. */
module ParentPath {
  import opened Text
  import opened UnixPath
  import opened DeployPath
  import opened SitePaths

  /** The text after the last slash. */
  function LastPiece(p: string): (last: string)
    ensures '/' !in last && |last| <= |p| && last == p[|p| - |last|..]
    ensures '/' in p ==> |last| < |p| && p[|p| - |last| - 1] == '/'
  {
    if p == "" || p[|p| - 1] == '/' then ""
    else LastPiece(p[..|p| - 1]) + [p[|p| - 1]]
  }

  /** The text before the last slash. */
  function Front(p: string): (front: string)
    requires IsAbs(p)
    ensures p == front + "/" + LastPiece(p)
  {
    p[..|p| - |LastPiece(p)| - 1]
  }

  /** The parent's components, and how the last piece of the path completes them. */
  lemma ParentComponents(p: string)
    requires IsAbs(p)
    ensures IsAbs(Dir(p)) && Components(p) == Push(true, Components(Dir(p)), LastPiece(p))
    ensures AllPlain(Components(Dir(p)))
  {
    var front, last := Front(p), LastPiece(p);
    var up := front + "/";
    LastSlash(front, last);
    assert UpToLastSlash(p) == up;
    assert IsAbs(up) by {
      if front != "" { assert front[0] == p[0]; }
    }
    CleanIdempotent(up);
    AbsComponents(up);
    SplitAtSlash(front, "");
    assert front + "/" + "" == up;
    SplitAtSlash(front, last);
    SplitComponent(last);
    WalkAppend(true, [], Split(front), [""]);
    WalkAppend(true, [], Split(front), [last]);
    var f := Walk(true, [], Split(front));
    assert Walk(true, f, [""]) == f;
    assert Walk(true, f, [last]) == Push(true, f, last);
  }

  /** Some usable root lies strictly above the path, and every entry before it is blank or usable. */
  ghost predicate StrictlyAdmittedBy(roots: seq<string>, p: string) {
    exists i :: 0 <= i < |roots| && StrictlyAdmits(roots[i], p)
      && forall j :: 0 <= j < i ==> Blank(roots[j]) || Usable(roots[j])
  }

  predicate StrictlyAdmits(root: string, p: string) {
    Usable(root) && Components(Trim(root)) < Components(p)
  }

  lemma StrictIsParent(root: string, p: string, last: string)
    requires IsAbs(p) && Components(p) == Components(Dir(p)) + [last]
    ensures StrictlyAdmits(root, p) <==> Admits(root, Dir(p))
  {
    var rc, f := Components(Trim(root)), Components(Dir(p));
    if rc < f + [last] {
      assert rc == (f + [last])[..|rc|] == f[..|rc|];
    }
  }

  lemma StrictlyAdmittedParent(roots: seq<string>, p: string, last: string)
    requires IsAbs(p) && Components(p) == Components(Dir(p)) + [last]
    ensures StrictlyAdmittedBy(roots, p) <==> AdmittedBy(roots, Dir(p))
  {
    if StrictlyAdmittedBy(roots, p) {
      var i :| 0 <= i < |roots| && StrictlyAdmits(roots[i], p) && forall j :: 0 <= j < i ==> Blank(roots[j]) || Usable(roots[j]);
      StrictIsParent(roots[i], p, last);
      assert Admits(roots[i], Dir(p));
    }
    if AdmittedBy(roots, Dir(p)) {
      var i :| 0 <= i < |roots| && Admits(roots[i], Dir(p)) && forall j :: 0 <= j < i ==> Blank(roots[j]) || Usable(roots[j]);
      StrictIsParent(roots[i], p, last);
      assert StrictlyAdmits(roots[i], p);
    }
  }

  lemma ParentVerdict(p: string, roots: seq<string>)
    requires IsAbs(p) && Trimmed(Dir(p))
    ensures ValidateDeployPath(Dir(p), roots).None? <==> NoDots(Components(Dir(p))) && AdmittedBy(roots, Dir(p))
  {
    ParentComponents(p);
    TrimIsTrimmed(Dir(p));
    ValidateExact(Dir(p), roots);
    if AdmittedBy(roots, Dir(p)) {
      AdmittedNonEmpty(roots, Dir(p));
    }
  }

  /** The condition on an accepted path `p` for its parent to pass. */
  ghost predicate ParentAdmitted(p: string, roots: seq<string>) {
    var last := LastPiece(p);
    if last == "" || last == "." then true
    else if last == ".." then NoDots(Components(Dir(p)))
    else StrictlyAdmittedBy(roots, p)
  }

  lemma ParentOfAdmitted(p: string, roots: seq<string>)
    requires IsAbs(p) && NoDots(Components(p)) && AdmittedBy(roots, p)
    ensures NoDots(Components(Dir(p))) && AdmittedBy(roots, Dir(p)) <==> ParentAdmitted(p, roots)
  {
    var last, f := LastPiece(p), Components(Dir(p));
    ParentComponents(p);
    if last == "" || last == "." {
      AdmissionGrows(roots, p, Dir(p));
    } else if last == ".." {
      AdmissionGrows(roots, p, Dir(p));
    } else {
      StrictlyAdmittedParent(roots, p, last);
      assert forall c :: c in f ==> c in f + [last];
    }
  }

  /** When the parent of an accepted deploy path passes too. A path that ends in a name needs a root strictly
      above it; one that ends in a slash or `.` is its own parent; one that ends in `..` has a child for its
      parent, which passes unless a component contains `..`. `TrimmedParentExact` covers the parents
      whose text ends in white space. */
  lemma ParentExact(path: string, roots: seq<string>)
    requires ValidateDeployPath(path, roots).None? && Trimmed(Dir(Trim(path)))
    ensures ValidateDeployPath(Dir(Trim(path)), roots).None? <==> ParentAdmitted(Trim(path), roots)
  {
    ValidateExact(path, roots);
    ParentVerdict(Trim(path), roots);
    ParentOfAdmitted(Trim(path), roots);
  }

  lemma AdmittedNonEmpty(roots: seq<string>, p: string)
    requires AdmittedBy(roots, p)
    ensures Components(p) != []
  {
  }

  // ---------------------------------------------------------------- white space at the end of the parent

  lemma {:induction false} TrimRightPiece(front: string, c: string)
    ensures TrimRight(front + "/" + c) == front + "/" + TrimRight(c)
    decreases |c|
  {
    var s := front + "/" + c;
    if c == "" {
      assert s == front + "/" && s[|s| - 1] == '/';
    } else if IsSpace(c[|c| - 1]) {
      assert s[..|s| - 1] == front + "/" + c[..|c| - 1];
      TrimRightPiece(front, c[..|c| - 1]);
    }
  }

  lemma TrimPath(front: string, c: string)
    requires IsAbs(front + "/" + c)
    ensures Trim(front + "/" + c) == front + "/" + TrimRight(c)
  {
    var p := front + "/" + c;
    assert TrimLeft(p) == p;
    TrimRightPiece(front, c);
  }

  /** The text in front of the last slash of a rendered path. */
  function Above(cs: seq<string>): string {
    if cs == [] then "" else "/" + Join(cs)
  }

  lemma LastPushed(front: seq<string>, t: string)
    requires AllPlain(front) && '/' !in t
    ensures IsAbs(Above(front) + "/" + t) && Components(Above(front) + "/" + t) == Push(true, front, t)
  {
    var p := Above(front);
    SplitAtSlash(p, t);
    SplitComponent(t);
    WalkAppend(true, [], Split(p), [t]);
    if front != [] {
      RenderedComponents(front);
    }
    assert Walk(true, [], Split(p)) == front;
    assert Walk(true, front, [t]) == Push(true, front, t);
  }

  lemma LastComponent(front: seq<string>, c: string)
    ensures "/" + Join(front + [c]) == Above(front) + "/" + c
  {
    JoinAppend(front, c);
  }

  lemma TrimmedComponents(front: seq<string>, c: string)
    requires AllPlain(front) && '/' !in c
    ensures var d := Trim("/" + Join(front + [c])); IsAbs(d) && Components(d) == Push(true, front, TrimRight(c))
  {
    LastComponent(front, c);
    LastPushed(front, c);
    TrimPath(Above(front), c);
    TrimRightShape(c);
    LastPushed(front, TrimRight(c));
  }

  /** The components of the parent as it is checked: trimming its text may shorten its last component, drop it,
      or even make it `..`. */
  function TrimmedParent(p: string): seq<string> {
    var f := Components(Dir(p));
    if f == [] then [] else Push(true, f[..|f| - 1], TrimRight(f[|f| - 1]))
  }

  /** Some usable root is at or above these components, and every entry before it is blank or usable. */
  ghost predicate RootAbove(roots: seq<string>, cs: seq<string>) {
    exists i :: 0 <= i < |roots| && Usable(roots[i]) && Components(Trim(roots[i])) <= cs
      && forall j :: 0 <= j < i ==> Blank(roots[j]) || Usable(roots[j])
  }

  lemma AboveIsAdmitted(roots: seq<string>, p: string)
    ensures RootAbove(roots, Components(p)) <==> AdmittedBy(roots, p)
  {
    if RootAbove(roots, Components(p)) {
      var i :| 0 <= i < |roots| && Usable(roots[i]) && Components(Trim(roots[i])) <= Components(p)
        && forall j :: 0 <= j < i ==> Blank(roots[j]) || Usable(roots[j]);
      assert Admits(roots[i], p);
    }
    if AdmittedBy(roots, p) {
      var i :| 0 <= i < |roots| && Admits(roots[i], p) && forall j :: 0 <= j < i ==> Blank(roots[j]) || Usable(roots[j]);
      assert Usable(roots[i]) && Components(Trim(roots[i])) <= Components(p);
    }
  }

  lemma TrimmedParentIs(p: string)
    requires IsAbs(p)
    ensures IsAbs(Trim(Dir(p))) && Components(Trim(Dir(p))) == TrimmedParent(p)
  {
    var d, f := Dir(p), Components(Dir(p));
    ParentComponents(p);
    ParentIsClean(p);
    AbsComponents(d);
    if f == [] {
      TrimmedRoot(d);
    } else {
      var front, c := f[..|f| - 1], f[|f| - 1];
      assert f == front + [c];
      TrimmedComponents(front, c);
    }
  }

  lemma TrimmedRoot(d: string)
    requires d == "/"
    ensures Trim(d) == d
  {
  }

  lemma ParentIsClean(p: string)
    requires IsAbs(p)
    ensures IsAbs(Dir(p)) && Clean(Dir(p)) == Dir(p)
  {
    var up := UpToLastSlash(p);
    LastSlash(Front(p), LastPiece(p));
    assert up == Front(p) + "/";
    assert IsAbs(up) by {
      if Front(p) != "" { assert Front(p)[0] == p[0]; }
    }
    CleanIdempotent(up);
    AbsComponents(up);
  }

  /** When the parent of any absolute path passes, white space at its end included: no component of the trimmed
      parent contains `..`, and some root is at or above it. */
  lemma TrimmedParentExact(path: string, roots: seq<string>)
    requires IsAbs(Trim(path))
    ensures ValidateDeployPath(Dir(Trim(path)), roots).None? <==>
      NoDots(TrimmedParent(Trim(path))) && RootAbove(roots, TrimmedParent(Trim(path)))
  {
    var d := Dir(Trim(path));
    TrimmedParentIs(Trim(path));
    ValidateExact(d, roots);
    AboveIsAdmitted(roots, Trim(d));
    if AdmittedBy(roots, Trim(d)) {
      AdmittedNonEmpty(roots, Trim(d));
    }
  }

  /** A deploy path that ends in a name and is its only root validates, but no git run for it gets past its parent. */
  lemma SoleRootFails(path: string, root: string)
    requires ValidateDeployPath(path, [root]).None? && Plain(LastPiece(Trim(path)))
    requires Components(Trim(root)) == Components(Trim(path))
    ensures ValidateDeployPath(Dir(Trim(path)), [root]).Some?
  {
    ValidateExact(path, [root]);
    ParentComponents(Trim(path));
    TrimmedParentExact(path, [root]);
  }
}
