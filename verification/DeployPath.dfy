/** Path containment: which deploy paths are accepted, and the web root derived from them. */
module DeployPath {
  import opened Text
  import opened UnixPath

  datatype PathError =
    | EmptyPath | NotAbsolute | FilesystemRoot | Traversal
    | NoRoots | RootNotAbsolute | RootIsFilesystemRoot | OutsideRoots

  /** The search over the allowed roots; `None` is Go's nil error. */
  function SearchRoots(clean: string, roots: seq<string>): Option<PathError> {
    if roots == [] then Some(OutsideRoots)
    else
      var r := Trim(roots[0]);
      if r == "" then SearchRoots(clean, roots[1..])
      else if !IsAbs(r) then Some(RootNotAbsolute)
      else if Clean(r) == "/" then Some(RootIsFilesystemRoot)
      else if clean == Clean(r) || HasPrefix(clean, Clean(r) + "/") then None
      else SearchRoots(clean, roots[1..])
  }

  function ValidateDeployPath(path: string, roots: seq<string>): Option<PathError> {
    var p := Trim(path);
    if p == "" then Some(EmptyPath)
    else if !IsAbs(p) then Some(NotAbsolute)
    else
      var clean := Clean(p);
      if clean == "/" || clean == "." then Some(FilesystemRoot)
      else if Contains(clean, "..") then Some(Traversal)
      else if roots == [] then Some(NoRoots)
      else SearchRoots(clean, roots)
  }

  /** A root entry the search can step over or match: absolute and not the filesystem root. */
  predicate Usable(root: string) {
    IsAbs(Trim(root)) && Components(Trim(root)) != []
  }

  predicate Blank(root: string) {
    Trim(root) == ""
  }

  /** The components of the root are a prefix of the components of `p`. */
  predicate Admits(root: string, p: string) {
    Usable(root) && Components(Trim(root)) <= Components(p)
  }

  /** Some root admits `p`, and every earlier entry is blank or usable. */
  ghost predicate AdmittedBy(roots: seq<string>, p: string) {
    exists i :: 0 <= i < |roots| && Admits(roots[i], p)
      && forall j :: 0 <= j < i ==> Blank(roots[j]) || Usable(roots[j])
  }

  lemma {:induction false} SearchIsAdmission(p: string, roots: seq<string>)
    requires IsAbs(p)
    ensures SearchRoots(Clean(p), roots).None? <==> AdmittedBy(roots, p)
    decreases |roots|
  {
    if roots != [] {
      var r, rest := Trim(roots[0]), roots[1..];
      SearchIsAdmission(p, rest);
      if IsAbs(r) {
        CleanIsRoot(r);
        if Clean(r) != "/" {
          UnderMeansPrefix(p, r);
        }
      }
      AdmittedStep(roots, p);
    }
  }

  lemma AdmittedStep(roots: seq<string>, p: string)
    requires roots != []
    ensures AdmittedBy(roots, p)
       <==> Admits(roots[0], p) || ((Blank(roots[0]) || Usable(roots[0])) && AdmittedBy(roots[1..], p))
  {
    var rest := roots[1..];
    if (Blank(roots[0]) || Usable(roots[0])) && AdmittedBy(rest, p) {
      var i :| 0 <= i < |rest| && Admits(rest[i], p) && forall j :: 0 <= j < i ==> Blank(rest[j]) || Usable(rest[j]);
      assert Admits(roots[i + 1], p);
      forall j | 0 <= j < i + 1 ensures Blank(roots[j]) || Usable(roots[j]) {
        if j > 0 { assert roots[j] == rest[j - 1]; }
      }
    }
    if AdmittedBy(roots, p) && !Admits(roots[0], p) {
      var i :| 0 <= i < |roots| && Admits(roots[i], p) && forall j :: 0 <= j < i ==> Blank(roots[j]) || Usable(roots[j]);
      assert Admits(rest[i - 1], p);
      forall j | 0 <= j < i - 1 ensures Blank(rest[j]) || Usable(rest[j]) {
        assert rest[j] == roots[j + 1];
      }
    }
  }

  // ---------------------------------------------------------------- text ".."

  predicate NoDots(cs: seq<string>) {
    forall c :: c in cs ==> !Contains(c, "..")
  }

  lemma ContainsDots(s: string)
    ensures Contains(s, "..") <==> exists i :: 0 <= i < |s| - 1 && s[i] == '.' && s[i + 1] == '.'
  {
    if Contains(s, "..") {
      var i :| 0 <= i <= |s| && ".." <= s[i..];
      assert s[i..][0] == s[i] && s[i..][1] == s[i + 1];
    }
    if i :| 0 <= i < |s| - 1 && s[i] == '.' && s[i + 1] == '.' {
      assert s[i..][..2] == "..";
      assert ".." <= s[i..];
    }
  }

  lemma DotsAcrossSlash(a: string, b: string)
    ensures Contains(a + "/" + b, "..") <==> Contains(a, "..") || Contains(b, "..")
  {
    var s := a + "/" + b;
    ContainsDots(s);
    ContainsDots(a);
    ContainsDots(b);
    if i :| 0 <= i < |b| - 1 && b[i] == '.' && b[i + 1] == '.' {
      assert s[i + |a| + 1] == '.' && s[i + |a| + 1 + 1] == '.';
    }
    if i :| 0 <= i < |a| - 1 && a[i] == '.' && a[i + 1] == '.' {
      assert s[i] == '.' && s[i + 1] == '.';
    }
    if i :| 0 <= i < |s| - 1 && s[i] == '.' && s[i + 1] == '.' {
      if i > |a| {
        var k := i - |a| - 1;
        assert b[k] == '.' && b[k + 1] == '.';
      }
    }
  }

  lemma {:induction false} DotsInJoin(cs: seq<string>)
    ensures Contains(Join(cs), "..") <==> !NoDots(cs)
  {
    if cs == [] {
      ContainsDots("");
    } else if |cs| > 1 {
      DotsInJoin(cs[1..]);
      DotsAcrossSlash(cs[0], Join(cs[1..]));
      assert cs == [cs[0]] + cs[1..];
    }
  }

  lemma DotsInClean(p: string)
    requires IsAbs(p)
    ensures Contains(Clean(p), "..") <==> !NoDots(Components(p))
  {
    AbsComponents(p);
    DotsInJoin(Components(p));
    DotsAcrossSlash("", Join(Components(p)));
    ContainsDots("");
    assert "" + "/" + Join(Components(p)) == Clean(p);
  }

  /** Exact acceptance: the trimmed path is absolute, resolves to at least one component, none of which
      contains `..`, and lies component-wise below a root reached before any unusable one. */
  lemma ValidateExact(path: string, roots: seq<string>)
    ensures ValidateDeployPath(path, roots).None? <==>
      var p := Trim(path);
      IsAbs(p) && Components(p) != [] && NoDots(Components(p)) && AdmittedBy(roots, p)
  {
    var p := Trim(path);
    if IsAbs(p) {
      CleanIsRoot(p);
      AbsComponents(p);
      DotsInClean(p);
      SearchIsAdmission(p, roots);
    }
  }

  // ---------------------------------------------------------------- web root

  datatype WebRootError = EmptyDeployPath | UnsupportedRuntime

  /** The runtime type after trimming, folding and defaulting. */
  function RuntimeOf(runtimeType: string): string {
    var rt := ToLower(Trim(runtimeType));
    if rt == "" then "static" else rt
  }

  function ResolveWebRoot(deployPath: string, runtimeType: string): Result<string, WebRootError> {
    var dp := Trim(deployPath);
    if dp == "" then Failure(EmptyDeployPath)
    else
      var rt := RuntimeOf(runtimeType);
      if rt == "laravel" then Success(JoinPath(dp, "public"))
      else if rt in ["wordpress", "wp", "php", "static", "custom"] then Success(dp)
      else Failure(UnsupportedRuntime)
  }

  /** Which web root a deploy path and a runtime text give, and when they give none. */
  lemma ResolvesExactly(deployPath: string, runtimeType: string)
    ensures var r, p, t := ResolveWebRoot(deployPath, runtimeType), Trim(deployPath), ToLower(Trim(runtimeType));
      && (r == Failure(EmptyDeployPath) <==> p == "")
      && (r == Failure(UnsupportedRuntime) <==> p != "" && !KnownRuntime(runtimeType))
      && (r.Success? <==> p != "" && KnownRuntime(runtimeType))
      && (r.Success? ==> r.value == if t == "laravel" then JoinPath(p, "public") else p)
  {
  }

  /** The texts an operator may write for a runtime. */
  predicate KnownRuntime(runtimeType: string) {
    ToLower(Trim(runtimeType)) in {"", "static", "laravel", "wordpress", "wp", "php", "custom"}
  }

  lemma PublicIsPlain()
    ensures Plain("public") && !Contains("public", "..")
  {
    ContainsDots("public");
  }

  lemma EndsTrimmed(q: string, prefix: string)
    requires IsAbs(q) && q == prefix + "/" + "public"
    ensures Trim(q) == q
  {
    assert q[|q| - 1] == 'c';
    TrimIsTrimmed(q);
  }

  lemma PublicInherits(p: string, roots: seq<string>)
    requires IsAbs(p) && NoDots(Components(p)) && AdmittedBy(roots, p)
    ensures ValidateDeployPath(JoinPath(p, "public"), roots).None?
    ensures IsAbs(JoinPath(p, "public")) && Components(JoinPath(p, "public")) == Components(p) + ["public"]
  {
    var w := JoinPath(p, "public");
    PublicChild(p);
    ValidateExact(w, roots);
    AdmissionGrows(roots, p, w);
  }

  lemma PublicChild(p: string)
    requires IsAbs(p) && NoDots(Components(p))
    ensures var w := JoinPath(p, "public");
      IsAbs(w) && Trim(w) == w && Components(w) == Components(p) + ["public"] && NoDots(Components(w))
  {
    PublicIsPlain();
    JoinPlain(p, "public");
    EndsTrimmed(JoinPath(p, "public"), if Clean(p) == "/" then "" else Clean(p));
    OneMoreWithoutDots(Components(p), "public");
  }

  lemma OneMoreWithoutDots(cs: seq<string>, c: string)
    requires NoDots(cs) && !Contains(c, "..")
    ensures NoDots(cs + [c])
  {
  }

  /** A deploy path that validates has a web root that validates against the same roots. */
  lemma WebRootInherits(deployPath: string, runtimeType: string, roots: seq<string>)
    requires ValidateDeployPath(deployPath, roots).None?
    requires ResolveWebRoot(Trim(deployPath), runtimeType).Success?
    ensures ValidateDeployPath(ResolveWebRoot(Trim(deployPath), runtimeType).value, roots).None?
    ensures var p, w := Trim(deployPath), ResolveWebRoot(Trim(deployPath), runtimeType).value;
      IsAbs(w) && Components(w) == Components(p) + (if ToLower(Trim(runtimeType)) == "laravel" then ["public"] else [])
  {
    TrimIsTrimmed(deployPath);
    ValidateExact(deployPath, roots);
    if RuntimeOf(runtimeType) == "laravel" {
      PublicInherits(Trim(deployPath), roots);
    }
  }

  lemma AdmissionGrows(roots: seq<string>, p: string, w: string)
    requires AdmittedBy(roots, p) && Components(p) <= Components(w)
    ensures AdmittedBy(roots, w)
  {
    var i :| 0 <= i < |roots| && Admits(roots[i], p) && forall j :: 0 <= j < i ==> Blank(roots[j]) || Usable(roots[j]);
    assert Admits(roots[i], w);
  }
}
