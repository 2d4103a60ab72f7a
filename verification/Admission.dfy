/** Which deploy paths, and which parents of deploy paths, the configured roots admit, and what is wrong with the
    others. */
module Admission {
  import opened Text
  import opened UnixPath
  import opened DeployPath
  import opened ParentPath
  import opened Protocol

  /** The trimmed path is absolute, no component contains `..`, and a configured root admits it. */
  ghost predicate Admitted(cfg: Config, path: string) {
    var p := Trim(path);
    IsAbs(p) && NoDots(Components(p)) && AdmittedBy(cfg.deployRoots, p)
  }

  /** Its parent directory, as it is checked, is below a configured root too. */
  ghost predicate ParentAllowed(cfg: Config, path: string) {
    var above := TrimmedParent(Trim(path));
    NoDots(above) && RootAbove(cfg.deployRoots, above)
  }

  // ---------------------------------------------------------------- blank roots do not matter

  lemma {:induction false} SearchNormalized(clean: string, roots: seq<string>)
    ensures SearchRoots(clean, NormalizeRoots(roots)) == SearchRoots(clean, roots)
    decreases |roots|
  {
    if roots != [] {
      SearchNormalized(clean, roots[1..]);
      TrimIsTrimmed(roots[0]);
      if Trim(roots[0]) != "" {
        var rest := NormalizeRoots(roots[1..]);
        assert ([Trim(roots[0])] + rest)[1..] == rest;
      }
    }
  }

  lemma {:induction false} NormalizedEmpty(roots: seq<string>)
    ensures NormalizeRoots(roots) == [] <==> forall i :: 0 <= i < |roots| ==> Blank(roots[i])
    decreases |roots|
  {
    if roots != [] {
      NormalizedEmpty(roots[1..]);
      if forall i :: 0 <= i < |roots| ==> Blank(roots[i]) {
        forall i | 0 <= i < |roots[1..]| ensures Blank(roots[1..][i]) {
          assert Blank(roots[i + 1]);
        }
      }
      if NormalizeRoots(roots) == [] {
        forall i | 0 <= i < |roots| ensures Blank(roots[i]) {
          assert i > 0 ==> Blank(roots[1..][i - 1]);
        }
      }
    }
  }

  /** With the blank entries dropped and the others trimmed the verdict is that of the roots as configured. */
  lemma SameVerdict(path: string, roots: seq<string>)
    ensures ValidateDeployPath(path, NormalizeRoots(roots)).None? <==> ValidateDeployPath(path, roots).None?
  {
    SearchNormalized(Clean(Trim(path)), roots);
  }

  /** A path passes the check of a run exactly when the configured roots admit it. */
  lemma PathVerdict(cfg: Config, path: string)
    ensures ValidateDeployPath(path, NormalizeRoots(cfg.deployRoots)).None? <==> Admitted(cfg, path)
  {
    SameVerdict(path, cfg.deployRoots);
    ValidateExact(path, cfg.deployRoots);
    if Admitted(cfg, path) {
      AdmittedNonEmpty(cfg.deployRoots, Trim(path));
    }
  }

  lemma ParentPasses(cfg: Config, path: string)
    requires IsAbs(Trim(path))
    ensures ValidateDeployPath(Dir(Trim(path)), NormalizeRoots(cfg.deployRoots)).None? <==> ParentAllowed(cfg, path)
  {
    SameVerdict(Dir(Trim(path)), cfg.deployRoots);
    TrimmedParentExact(path, cfg.deployRoots);
  }

  // ---------------------------------------------------------------- what is wrong with a path

  /** A root the search steps over. */
  predicate SteppedOver(root: string, p: string) {
    Blank(root) || (Usable(root) && !Admits(root, p))
  }

  /** The first entry that the search does not step over. */
  predicate StopsAt(roots: seq<string>, p: string, i: nat) {
    i < |roots| && !SteppedOver(roots[i], p) && forall j :: 0 <= j < i ==> SteppedOver(roots[j], p)
  }

  function StopReason(root: string): Option<PathError> {
    if !IsAbs(Trim(root)) then Some(RootNotAbsolute)
    else if Components(Trim(root)) == [] then Some(RootIsFilesystemRoot)
    else None
  }

  lemma {:induction false} SearchStops(p: string, roots: seq<string>)
    requires IsAbs(p)
    ensures (forall i :: 0 <= i < |roots| ==> SteppedOver(roots[i], p)) ==> SearchRoots(Clean(p), roots) == Some(OutsideRoots)
    ensures forall i: nat :: StopsAt(roots, p, i) ==> SearchRoots(Clean(p), roots) == StopReason(roots[i])
    decreases |roots|
  {
    if roots != [] {
      FirstRoot(p, roots);
      SearchStops(p, roots[1..]);
      if forall i :: 0 <= i < |roots| ==> SteppedOver(roots[i], p) {
        assert SteppedOver(roots[0], p);
        forall i | 0 <= i < |roots[1..]| ensures SteppedOver(roots[1..][i], p) {
          assert SteppedOver(roots[i + 1], p);
        }
      }
      forall i: nat | StopsAt(roots, p, i) ensures SearchRoots(Clean(p), roots) == StopReason(roots[i]) {
        if i > 0 {
          assert SteppedOver(roots[0], p);
          StopsLater(roots, p, i);
        }
      }
    }
  }

  lemma StopsLater(roots: seq<string>, p: string, i: nat)
    requires i > 0 && StopsAt(roots, p, i)
    ensures StopsAt(roots[1..], p, i - 1)
  {
    forall j | 0 <= j < i - 1 ensures SteppedOver(roots[1..][j], p) {
      assert SteppedOver(roots[j + 1], p);
    }
  }

  lemma FirstRoot(p: string, roots: seq<string>)
    requires IsAbs(p) && roots != []
    ensures SearchRoots(Clean(p), roots)
         == if SteppedOver(roots[0], p) then SearchRoots(Clean(p), roots[1..]) else StopReason(roots[0])
  {
    var r := Trim(roots[0]);
    if IsAbs(r) {
      CleanIsRoot(r);
      if Components(r) != [] {
        UnderMeansPrefix(p, r);
        CleanIdempotent(p);
      }
    }
  }

  /** The path itself is in order; only the roots can still refuse it. */
  predicate Locatable(path: string) {
    var p := Trim(path);
    IsAbs(p) && Components(p) != [] && NoDots(Components(p))
  }

  /** When each error of the check is the one reported. */
  ghost predicate Fault(path: string, roots: seq<string>, e: PathError) {
    var p := Trim(path);
    match e
    case EmptyPath => p == ""
    case NotAbsolute => p != "" && !IsAbs(p)
    case FilesystemRoot => IsAbs(p) && Components(p) == []
    case Traversal => IsAbs(p) && Components(p) != [] && !NoDots(Components(p))
    case NoRoots => Locatable(path) && forall i :: 0 <= i < |roots| ==> Blank(roots[i])
    case OutsideRoots =>
      && Locatable(path) && (exists i :: 0 <= i < |roots| && !Blank(roots[i]))
      && forall i :: 0 <= i < |roots| ==> SteppedOver(roots[i], p)
    case _ => Locatable(path) && exists i: nat :: StopsAt(roots, p, i) && StopReason(roots[i]) == Some(e)
  }

  /** The text tests before the search, by components. */
  lemma TextFaults(path: string, roots: seq<string>)
    ensures var p, v := Trim(path), ValidateDeployPath(path, roots);
      && (p == "" ==> v == Some(EmptyPath))
      && (p != "" && !IsAbs(p) ==> v == Some(NotAbsolute))
      && (IsAbs(p) && Components(p) == [] ==> v == Some(FilesystemRoot))
      && (IsAbs(p) && Components(p) != [] && !NoDots(Components(p)) ==> v == Some(Traversal))
      && (Locatable(path) ==> v == if roots == [] then Some(NoRoots) else SearchRoots(Clean(p), roots))
  {
    var p := Trim(path);
    if IsAbs(p) {
      CleanIsRoot(p);
      AbsComponents(p);
      DotsInClean(p);
    }
  }

  /** Where the search ends. */
  lemma SearchEnds(p: string, roots: seq<string>) returns (i: nat)
    requires IsAbs(p)
    ensures i <= |roots| && forall j :: 0 <= j < i ==> SteppedOver(roots[j], p)
    ensures i == |roots| ==> SearchRoots(Clean(p), roots) == Some(OutsideRoots)
    ensures i < |roots| ==> StopsAt(roots, p, i) && SearchRoots(Clean(p), roots) == StopReason(roots[i])
  {
    SearchStops(p, roots);
    if exists k :: 0 <= k < |roots| && !SteppedOver(roots[k], p) {
      i := FirstStop(p, roots);
    } else {
      i := |roots|;
    }
  }

  lemma StopIsFault(path: string, roots: seq<string>, i: nat)
    requires Locatable(path) && StopsAt(roots, Trim(path), i) && StopReason(roots[i]).Some?
    ensures Fault(path, roots, StopReason(roots[i]).value)
  {
  }

  lemma NoRootIsFault(path: string, roots: seq<string>)
    requires Locatable(path) && (exists i :: 0 <= i < |roots| && !Blank(roots[i]))
    requires forall i :: 0 <= i < |roots| ==> SteppedOver(roots[i], Trim(path))
    ensures Fault(path, roots, OutsideRoots)
  {
  }

  /** A path is refused for what is wrong with it, and for nothing else. */
  lemma FaultExactly(path: string, roots: seq<string>, e: PathError)
    requires ValidateDeployPath(path, NormalizeRoots(roots)) == Some(e)
    ensures Fault(path, roots, e)
  {
    TextFaults(path, NormalizeRoots(roots));
    if Locatable(path) {
      NormalizedEmpty(roots);
      SearchNormalized(Clean(Trim(path)), roots);
      if NormalizeRoots(roots) != [] {
        var i := SearchEnds(Trim(path), roots);
        if i < |roots| {
          StopIsFault(path, roots, i);
        } else {
          NoRootIsFault(path, roots);
        }
      }
    }
  }

  lemma {:induction false} FirstStop(p: string, roots: seq<string>) returns (i: nat)
    requires exists k :: 0 <= k < |roots| && !SteppedOver(roots[k], p)
    ensures StopsAt(roots, p, i)
    decreases |roots|
  {
    if !SteppedOver(roots[0], p) {
      i := 0;
    } else {
      var k :| 0 <= k < |roots| && !SteppedOver(roots[k], p);
      assert roots[1..][k - 1] == roots[k];
      var n := FirstStop(p, roots[1..]);
      i := n + 1;
      forall j | 0 <= j < i ensures SteppedOver(roots[j], p) {
        assert j > 0 ==> SteppedOver(roots[1..][j - 1], p);
      }
    }
  }
}
