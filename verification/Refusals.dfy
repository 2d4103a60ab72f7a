/** The failure-free nginx run on every disk: where it converges, and how it ends where it cannot. */
module Refusals {
  import opened Text
  import opened UnixPath
  import opened SitePaths
  import opened Protocol
  import opened NginxLeg
  import opened NginxRuns
  import opened CrashRecovery
  import opened SmoothRun
  import Disk

  /** The available path is a directory. */
  predicate FileBlocked(plan: Plan, d: Disk.Disk)
    requires Ready(plan)
  {
    plan.paths.value.available in d && d[plan.paths.value.available].Dir?
  }

  /** The enabled path is taken by something other than a link. */
  predicate LinkBlocked(plan: Plan, d: Disk.Disk)
    requires Ready(plan)
  {
    plan.paths.value.enabled in d && !d[plan.paths.value.enabled].Link?
  }

  /** The run that ends with a failure receipt on the given disk. */
  function Refused(plan: Plan, w: Web, d: Disk.Disk, reason: Reason): (Web, Option<Row>) {
    (w.(disk := d), Some(FailedRow(plan, reason)))
  }

  /** How the failure-free run ends on any disk at all. */
  function Outcomes(cfg: Config, plan: Plan, w: Web): (Web, Option<Row>)
    requires Ready(plan)
  {
    var d, available := w.disk, Disk.MakeDirs(w.disk, Disk.Ancestry(plan.availableDir));
    if !Disk.Passable(d, Disk.Ancestry(plan.availableDir)) then Refused(plan, w, d, MkdirFailed)
    else if !Disk.Passable(available, Disk.Ancestry(plan.enabledDir)) then Refused(plan, w, available, MkdirFailed)
    else if FileBlocked(plan, d) then Refused(plan, w, Prepared(plan, d), WriteFailed)
    else if LinkBlocked(plan, d) then
      Refused(plan, w, Prepared(plan, d)[plan.paths.value.available := Disk.File(plan.conf.value)], SymlinkFailed)
    else Converged(cfg, plan, w)
  }

  // ---------------------------------------------------------------- one refused call

  lemma RefusedMkdir(d: Disk.Disk, path: string)
    requires !Disk.Passable(d, Disk.Ancestry(path))
    ensures Disk.MkdirAll(d, path, false, 0) == (d, false)
  {
    assert Disk.Ancestry(path)[..0] == [];
  }

  lemma FirstRefused(cfg: Config, w: Web, run: Run, suffix: string)
    requires run.stage.MkdirAvailable? && !Disk.Passable(w.disk, Disk.Ancestry(run.plan.availableDir))
    ensures Finish(cfg, w, run, suffix) == Refused(run.plan, w, w.disk, MkdirFailed)
  {
    RefusedMkdir(w.disk, run.plan.availableDir);
    OneCall(cfg, w, run, suffix, w, run.(stage := Failing(run, MkdirFailed)));
  }

  lemma SecondRefused(cfg: Config, w: Web, run: Run, suffix: string)
    requires run.stage.MkdirEnabled? && !Disk.Passable(w.disk, Disk.Ancestry(run.plan.enabledDir))
    ensures Finish(cfg, w, run, suffix) == Refused(run.plan, w, w.disk, MkdirFailed)
  {
    RefusedMkdir(w.disk, run.plan.enabledDir);
    OneCall(cfg, w, run, suffix, w, run.(stage := Failing(run, MkdirFailed)));
  }

  /** A rename onto a directory fails, and the temporary file is removed again. */
  lemma RenameRefused(cfg: Config, w: Web, run: Run, suffix: string, d: Disk.Disk)
    requires run.stage.WriteTemp? && Ready(run.plan) && run.temp !in d && TempApart(run)
    requires w.disk == d[run.temp := Disk.File("")] && FileBlocked(run.plan, d)
    ensures Finish(cfg, w, run, suffix) == Refused(run.plan, w, d, WriteFailed)
  {
    var text := run.plan.conf.value;
    var w1 := w.(disk := d[run.temp := Disk.File(text)]);
    assert w.disk[run.temp := Disk.File(text)] == w1.disk;
    TextCalls(cfg, w, run, suffix);
    OneCall(cfg, w1, run.(stage := RenameTemp), suffix, w1, run.(stage := DropTemp(false)));
    assert w1.disk - {run.temp} == d;
    var last := run.(stage := Failing(run, WriteFailed));
    OneCall(cfg, w1, run.(stage := DropTemp(false)), suffix, w.(disk := d), last);
  }

  lemma LinkRefused(cfg: Config, w: Web, run: Run, suffix: string)
    requires run.stage.InspectLink? && Ready(run.plan) && LinkBlocked(run.plan, w.disk)
    ensures Finish(cfg, w, run, suffix) == Refused(run.plan, w, w.disk, SymlinkFailed)
  {
    OneCall(cfg, w, run, suffix, w, run.(stage := Failing(run, SymlinkFailed)));
  }

  // ---------------------------------------------------------------- the whole run

  lemma WriteRefused(cfg: Config, w: Web, run: Run, suffix: string)
    requires run.stage.MkdirForFile? && Ready(run.plan) && Shaped(run.plan) && Homed(run.plan) && Passage(run.plan, w.disk)
    requires forall p :: RootAncestor(run.plan, p) ==> p in w.disk
    requires '/' !in suffix && Disk.TempPath(run.plan.availableDir, suffix) !in w.disk
    requires FileBlocked(run.plan, w.disk)
    ensures Finish(cfg, w, run, suffix) == Refused(run.plan, w, w.disk, WriteFailed)
  {
    var temp := Disk.TempPath(run.plan.availableDir, suffix);
    assert TempOf(run.plan, temp);
    TempIsNotManaged(run.plan, temp);
    NewTempCall(cfg, w, run, suffix);
    var w1 := w.(disk := w.disk[temp := Disk.File("")]);
    RenameRefused(cfg, w1, run.(stage := WriteTemp, temp := temp), suffix, w.disk);
    assert w1.(disk := w.disk) == w;
  }

  /** Both roots can be made, but one of the two managed paths is taken. */
  lemma BlockedEnds(cfg: Config, w: Web, run: Run, suffix: string)
    requires run.stage.MkdirAvailable? && Ready(run.plan) && Shaped(run.plan) && Homed(run.plan) && Apart(run.plan)
    requires Passage(run.plan, w.disk) && Unused(run.plan, w.disk, suffix)
    requires FileBlocked(run.plan, w.disk) || LinkBlocked(run.plan, w.disk)
    ensures Finish(cfg, w, run, suffix) == Outcomes(cfg, run.plan, w)
  {
    var plan := run.plan;
    var w1 := w.(disk := Prepared(plan, w.disk));
    PreparedFacts(plan, w.disk);
    MkdirCalls(cfg, w, run, suffix);
    if FileBlocked(plan, w.disk) {
      WriteRefused(cfg, w1, run.(stage := MkdirForFile), suffix);
    } else {
      WriteCalls(cfg, w1, run.(stage := MkdirForFile), suffix);
      var w2 := w.(disk := w1.disk[plan.paths.value.available := Disk.File(plan.conf.value)]);
      var run2 := run.(stage := InspectLink, temp := Disk.TempPath(plan.availableDir, suffix));
      LinkRefused(cfg, w2, run2, suffix);
    }
  }

  /** The failure-free run of a site whose roots are apart, on every disk: it converges, or ends with the
      receipt that names what is in the way. */
  lemma FinishExactly(cfg: Config, w: Web, run: Run, suffix: string)
    requires run.stage.MkdirAvailable? && Ready(run.plan) && Shaped(run.plan) && Homed(run.plan) && Apart(run.plan)
    requires Unused(run.plan, w.disk, suffix)
    ensures Finish(cfg, w, run, suffix) == Outcomes(cfg, run.plan, w)
  {
    var plan := run.plan;
    if !Disk.Passable(w.disk, Disk.Ancestry(plan.availableDir)) {
      FirstRefused(cfg, w, run, suffix);
    } else if !Passage(plan, w.disk) {
      FirstMkdir(cfg, w, run, suffix);
      var d := Disk.MakeDirs(w.disk, Disk.Ancestry(plan.availableDir));
      StillBlocked(plan, w.disk);
      SecondRefused(cfg, w.(disk := d), run.(stage := MkdirEnabled), suffix);
    } else {
      PreparedFacts(plan, w.disk);
      if FileBlocked(plan, w.disk) || LinkBlocked(plan, w.disk) {
        BlockedEnds(cfg, w, run, suffix);
      } else {
        FinishInstalls(cfg, w, run, suffix);
      }
    }
  }

  lemma StillBlocked(plan: Plan, d: Disk.Disk)
    requires !Disk.Passable(d, Disk.Ancestry(plan.enabledDir))
    ensures !Disk.Passable(Disk.MakeDirs(d, Disk.Ancestry(plan.availableDir)), Disk.Ancestry(plan.enabledDir))
  {
    var p :| p in Disk.Ancestry(plan.enabledDir) && p in d && !d[p].Dir?;
  }

  /** The failure-free run converges exactly on the recoverable disks; on every other disk it ends with a
      failure receipt for the directories, the file or the link. */
  lemma ConvergesExactly(cfg: Config, w: Web, run: Run, suffix: string)
    requires run.stage.MkdirAvailable? && Ready(run.plan) && Shaped(run.plan) && Homed(run.plan) && Apart(run.plan)
    requires Unused(run.plan, w.disk, suffix)
    ensures Finish(cfg, w, run, suffix) == Converged(cfg, run.plan, w) <==> Recoverable(run.plan, w.disk)
    ensures !Recoverable(run.plan, w.disk) ==>
      exists reason :: reason in {MkdirFailed, WriteFailed, SymlinkFailed}
        && Finish(cfg, w, run, suffix).1 == Some(FailedRow(run.plan, reason))
  {
    FinishExactly(cfg, w, run, suffix);
    var ended := Outcomes(cfg, run.plan, w);
    if Recoverable(run.plan, w.disk) {
      PreparedFacts(run.plan, w.disk);
    } else {
      RefusedOtherwise(cfg, run.plan, w);
    }
  }

  lemma RefusedOtherwise(cfg: Config, plan: Plan, w: Web)
    requires Ready(plan) && !Recoverable(plan, w.disk)
    ensures var row := Outcomes(cfg, plan, w).1;
      row in {Some(FailedRow(plan, MkdirFailed)), Some(FailedRow(plan, WriteFailed)), Some(FailedRow(plan, SymlinkFailed))}
      && row != Converged(cfg, plan, w).1
  {
    if !Disk.Passable(w.disk, Disk.Ancestry(plan.enabledDir)) {
      StillBlocked(plan, w.disk);
    }
  }

  // ---------------------------------------------------------------- equal roots

  /** How the failure-free run ends when both roots are one directory: the file just written is in the way of
      its own link. */
  function EqualOutcomes(plan: Plan, w: Web): (Web, Option<Row>)
    requires Ready(plan)
  {
    var d := w.disk;
    if !Disk.Passable(d, Disk.Ancestry(plan.availableDir)) then Refused(plan, w, d, MkdirFailed)
    else if FileBlocked(plan, d) then Refused(plan, w, Prepared(plan, d), WriteFailed)
    else Refused(plan, w, Prepared(plan, d)[plan.paths.value.available := Disk.File(plan.conf.value)], SymlinkFailed)
  }

  lemma EqualRootsEnd(cfg: Config, w: Web, run: Run, suffix: string)
    requires run.stage.MkdirAvailable? && Ready(run.plan) && Shaped(run.plan) && Homed(run.plan)
    requires run.plan.availableDir == run.plan.enabledDir && !RootAncestor(run.plan, run.plan.paths.value.available)
    requires Unused(run.plan, w.disk, suffix)
    ensures Finish(cfg, w, run, suffix) == EqualOutcomes(run.plan, w)
  {
    var plan := run.plan;
    if !Disk.Passable(w.disk, Disk.Ancestry(plan.availableDir)) {
      FirstRefused(cfg, w, run, suffix);
    } else {
      var w1 := w.(disk := Prepared(plan, w.disk));
      PreparedFacts(plan, w.disk);
      MkdirCalls(cfg, w, run, suffix);
      if FileBlocked(plan, w.disk) {
        WriteRefused(cfg, w1, run.(stage := MkdirForFile), suffix);
      } else {
        WriteCalls(cfg, w1, run.(stage := MkdirForFile), suffix);
        var w2 := w.(disk := w1.disk[plan.paths.value.available := Disk.File(plan.conf.value)]);
        var run2 := run.(stage := InspectLink, temp := Disk.TempPath(plan.availableDir, suffix));
        LinkRefused(cfg, w2, run2, suffix);
      }
    }
  }

  lemma {:induction false} JoinGrows(cs: seq<string>, n: nat)
    requires n <= |cs|
    ensures |Join(cs[..n])| <= |Join(cs)|
    decreases |cs|
  {
    if n == |cs| {
      assert cs[..n] == cs;
    } else {
      var front := cs[..|cs| - 1];
      assert cs == front + [cs[|cs| - 1]] && front[..n] == cs[..n];
      JoinAppend(front, cs[|cs| - 1]);
      JoinGrows(front, n);
    }
  }

  /** No path below a root is one of its ancestors. */
  lemma BelowIsNoAncestor(root: string, name: string)
    requires IsAbs(root)
    ensures Clean(root) + "/" + name !in Disk.Ancestry(Clean(root))
  {
    var p, cs := Clean(root), Components(root);
    CleanIdempotent(root);
    AbsComponents(root);
    forall i | 0 <= i < |cs| ensures |Disk.Ancestry(p)[i]| <= |p| {
      JoinGrows(cs, i + 1);
    }
    assert |Disk.Ancestry(p)| == |cs|;
  }

  lemma NotItsAncestor(cfg: Config, intent: ApplyIntent, echo: string, plan: Plan)
    requires RootsLoaded(cfg) && plan == PlanFor(cfg, intent, echo)
    requires plan.paths.Success? && plan.availableDir == plan.enabledDir
    ensures !RootAncestor(plan, plan.paths.value.available)
  {
    ManagedShape(cfg.availableRoot, cfg.enabledRoot, intent.site);
    BelowIsNoAncestor(Trim(cfg.availableRoot), FileName(intent.site));
  }

  lemma EndsBadly(plan: Plan, w: Web)
    requires Ready(plan)
    ensures EqualOutcomes(plan, w).1 != Some(Ending(plan))
  {
  }

  /** Configuration loading accepts equal roots, and with them no site ever converges: with nothing failing, the
      run of any intent that passes its checks ends with the mkdir, write or symlink failure. */
  lemma EqualRootsNeverConverge(cfg: Config, intent: ApplyIntent, echo: string, w: Web, run: Run, suffix: string)
    requires RootsLoaded(cfg) && run.plan == PlanFor(cfg, intent, echo) && run.plan.availableDir == run.plan.enabledDir
    requires run.stage.MkdirAvailable? && Ready(run.plan) && Unused(run.plan, w.disk, suffix)
    ensures Finish(cfg, w, run, suffix) == EqualOutcomes(run.plan, w)
    ensures Finish(cfg, w, run, suffix).1 != Some(Ending(run.plan))
  {
    PlanIsShaped(cfg, intent, echo);
    PlanIsHomed(cfg, intent, echo);
    NotItsAncestor(cfg, intent, echo, run.plan);
    EqualRootsEnd(cfg, w, run, suffix);
    EndsBadly(run.plan, w);
  }
}
