/** Where the nginx configuration of a site lives: one file name in two configured directories. */
module SitePaths {
  import opened Text
  import opened UnixPath

  datatype SitePathError = RootsNotConfigured | EmptySite | InvalidSite | OutsideRoot

  datatype Managed = Managed(available: string, enabled: string)

  function SiteKey(site: string): string {
    ToLower(Trim(site))
  }

  function FileName(site: string): string {
    "rp-" + SiteKey(site) + ".conf"
  }

  /** `pathUnderRoot`: nil exactly when this holds. */
  predicate UnderRoot(p: string, root: string) {
    Clean(p) == Clean(root) || HasPrefix(Clean(p), Clean(root) + "/")
  }

  function SiteConfigPaths(availableRoot: string, enabledRoot: string, site: string): Result<Managed, SitePathError> {
    var ar, er := Trim(availableRoot), Trim(enabledRoot);
    if ar == "" || er == "" then Failure(RootsNotConfigured)
    else if Trim(site) == "" then Failure(EmptySite)
    else
      var name := FileName(site);
      if Contains(name, "..") || Contains(name, "/") then Failure(InvalidSite)
      else
        var ap, ep := JoinPath(ar, name), JoinPath(er, name);
        if !UnderRoot(ap, ar) || !UnderRoot(ep, er) then Failure(OutsideRoot)
        else Success(Managed(ap, ep))
  }

  /** What configuration loading guarantees about the two nginx roots. */
  predicate RootLoaded(root: string) {
    IsAbs(Trim(root)) && Clean(Trim(root)) != "/"
  }

  lemma SlashFree(s: string)
    ensures Contains(s, "/") <==> '/' in s
  {
    if Contains(s, "/") {
      var i :| 0 <= i <= |s| && "/" <= s[i..];
      assert s[i] == s[i..][0];
    }
    if '/' in s {
      var i :| 0 <= i < |s| && s[i] == '/';
      assert s[i..][..1] == "/";
      assert "/" <= s[i..];
    }
  }

  lemma NameIsPlain(site: string)
    requires !Contains(FileName(site), "/")
    ensures Plain(FileName(site))
  {
    SlashFree(FileName(site));
  }

  /** Below an absolute root the joined name is under the root unless the root is `/` itself. */
  lemma UnderUnlessFilesystemRoot(root: string, name: string)
    requires IsAbs(root) && Plain(name)
    ensures UnderRoot(JoinPath(root, name), root) <==> Clean(root) != "/"
  {
    JoinPlain(root, name);
    AbsComponents(root);
    if Clean(root) != "/" {
      assert JoinPath(root, name) == Clean(root) + "/" + name;
      assert Clean(root) + "/" <= Clean(root) + "/" + name;
    } else {
      assert name[0] != '/';
      assert JoinPath(root, name)[1] == name[0];
    }
  }

  /** For absolute roots the "outside root" error means exactly that a root is the filesystem root; with
      roots as configuration loading leaves them the two files sit directly inside the cleaned roots. */
  lemma PathsInsideRoots(ar: string, er: string, site: string)
    requires IsAbs(Trim(ar)) && IsAbs(Trim(er))
    ensures var r, name := SiteConfigPaths(ar, er, site), FileName(site);
      && (r == Failure(OutsideRoot) <==>
            Trim(site) != "" && !Contains(name, "..") && !Contains(name, "/") && !(RootLoaded(ar) && RootLoaded(er)))
      && (r.Success? ==> (
            && Plain(name)
            && r.value == Managed(Clean(Trim(ar)) + "/" + name, Clean(Trim(er)) + "/" + name)
            && Clean(r.value.available) == r.value.available && Clean(r.value.enabled) == r.value.enabled))
  {
    var a, e, name := Trim(ar), Trim(er), FileName(site);
    if Trim(site) != "" && !Contains(name, "..") && !Contains(name, "/") {
      NameIsPlain(site);
      UnderUnlessFilesystemRoot(a, name);
      UnderUnlessFilesystemRoot(e, name);
      JoinPlain(a, name);
      JoinPlain(e, name);
    }
  }

  lemma NameInjective(a: string, b: string)
    ensures FileName(a) == FileName(b) <==> SiteKey(a) == SiteKey(b)
  {
    if FileName(a) == FileName(b) {
      assert SiteKey(a) == FileName(a)[3..|FileName(a)| - 5];
      assert SiteKey(b) == FileName(b)[3..|FileName(b)| - 5];
    }
  }

  lemma SameFile(dir: string, dir': string, name: string, name': string)
    requires '/' !in name && '/' !in name'
    ensures dir + "/" + name == dir' + "/" + name' <==> dir == dir' && name == name'
  {
    LastSlash(dir, name);
    LastSlash(dir', name');
    assert dir == (dir + "/")[..|dir|] && dir' == (dir' + "/")[..|dir'|];
    assert name == (dir + "/" + name)[|dir| + 1..] && name' == (dir' + "/" + name')[|dir'| + 1..];
  }

  /** Sites share a managed path exactly when their trimmed, folded ids agree; a file of one site never
      doubles as the link of another. */
  lemma PathsInjective(ar: string, er: string, a: string, b: string)
    requires RootLoaded(ar) && RootLoaded(er)
    requires SiteConfigPaths(ar, er, a).Success? && SiteConfigPaths(ar, er, b).Success?
    ensures var p, q := SiteConfigPaths(ar, er, a).value, SiteConfigPaths(ar, er, b).value;
      && (p.available == q.available <==> SiteKey(a) == SiteKey(b))
      && (p.enabled == q.enabled <==> SiteKey(a) == SiteKey(b))
      && (p.available == q.enabled <==> SiteKey(a) == SiteKey(b) && Clean(Trim(ar)) == Clean(Trim(er)))
  {
    PathsInsideRoots(ar, er, a);
    PathsInsideRoots(ar, er, b);
    NameInjective(a, b);
    SlashFree(FileName(a));
    SlashFree(FileName(b));
    var ca, ce := Clean(Trim(ar)), Clean(Trim(er));
    SameFile(ca, ca, FileName(a), FileName(b));
    SameFile(ce, ce, FileName(a), FileName(b));
    SameFile(ca, ce, FileName(a), FileName(b));
  }

  /** The directory the atomic write works in is the cleaned available root. */
  lemma DirOfManaged(root: string, name: string)
    requires IsAbs(root) && Clean(root) != "/" && '/' !in name
    ensures Dir(Clean(root) + "/" + name) == Clean(root)
  {
    var c := Clean(root);
    LastSlash(c, name);
    AbsComponents(root);
    var cs := Components(root);
    CleanIdempotent(root);
    CleanIsRoot(root);
    SplitAtSlash(c, "");
    CleanSplit(root);
    assert c + "/" + "" == c + "/";
    assert Split(c + "/")[1..] == cs + [""];
    WalkAppend(true, [], cs, [""]);
    WalkKeepsPlain(true, [], cs);
    assert [] + cs == cs;
    assert Walk(true, cs, [""]) == cs;
  }

  lemma {:induction false} LastSlash(c: string, name: string)
    requires '/' !in name
    ensures UpToLastSlash(c + "/" + name) == c + "/"
    decreases |name|
  {
    var p := c + "/" + name;
    if name == "" {
      assert p == c + "/";
    } else {
      assert p[..|p| - 1] == c + "/" + name[..|name| - 1];
      LastSlash(c, name[..|name| - 1]);
    }
  }
}
