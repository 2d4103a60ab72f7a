/** The failure-free nginx run, call by call: exactly what it leaves on disk and reports. */
module SmoothRun {
  import opened Text
  import opened UnixPath
  import opened SitePaths
  import opened Protocol
  import opened NginxLeg
  import opened NginxRuns
  import opened CrashRecovery
  import Disk

  /** The disk once all root directories exist. */
  function Prepared(plan: Plan, d: Disk.Disk): Disk.Disk {
    Disk.MakeDirs(Disk.MakeDirs(d, Disk.Ancestry(plan.availableDir)), Disk.Ancestry(plan.enabledDir))
  }

  /** The disk a converged site leaves. */
  function Installed(plan: Plan, d: Disk.Disk): Disk.Disk
    requires Ready(plan)
  {
    Prepared(plan, d)
      [plan.paths.value.available := Disk.File(plan.conf.value)]
      [plan.paths.value.enabled := Disk.Link(plan.paths.value.available)]
  }

  /** The receipt that ends a successful run. */
  function Ending(plan: Plan): Row {
    if plan.reload then ReloadRow(plan) else PhaseRow(plan, Applied)
  }

  /** The two roots are directories of their own, and the link's parent is the enabled root. */
  predicate Homed(plan: Plan) {
    && plan.availableDir in Disk.Ancestry(plan.availableDir)
    && plan.enabledDir in Disk.Ancestry(plan.enabledDir)
    && (plan.paths.Success? ==> Disk.Parent(plan.paths.value.enabled) == plan.enabledDir)
  }

  lemma SelfAncestry(root: string)
    requires IsAbs(root) && Clean(root) != "/"
    ensures Clean(root) in Disk.Ancestry(Clean(root))
  {
    var p, cs := Clean(root), Components(root);
    CleanIdempotent(root);
    CleanIsRoot(root);
    AbsComponents(root);
    var n := |cs|;
    assert Disk.Ancestry(p)[n - 1] == UnixPath.Render(true, cs[..n - 1 + 1]);
    assert cs[..n] == cs;
  }

  lemma PlanIsHomed(cfg: Config, intent: ApplyIntent, echo: string)
    requires RootsLoaded(cfg)
    ensures Homed(PlanFor(cfg, intent, echo))
  {
    SelfAncestry(Trim(cfg.availableRoot));
    SelfAncestry(Trim(cfg.enabledRoot));
    if SiteConfigPaths(cfg.availableRoot, cfg.enabledRoot, intent.site).Success? {
      ManagedShape(cfg.availableRoot, cfg.enabledRoot, intent.site);
      Disk.ParentOf(Clean(Trim(cfg.enabledRoot)), FileName(intent.site));
    }
  }

  // ---------------------------------------------------------------- directories

  lemma {:induction false} MakeDirsIdle(d: Disk.Disk, ps: seq<string>)
    requires forall p :: p in ps ==> p in d
    ensures Disk.MakeDirs(d, ps) == d
    decreases |ps|
  {
    if ps != [] {
      MakeDirsIdle(d, ps[1..]);
    }
  }

  lemma PreparedFacts(plan: Plan, d: Disk.Disk)
    requires Passage(plan, d)
    ensures Disk.Passable(Disk.MakeDirs(d, Disk.Ancestry(plan.availableDir)), Disk.Ancestry(plan.enabledDir))
    ensures var d' := Prepared(plan, d); Passage(plan, d') && forall p :: RootAncestor(plan, p) ==> p in d'
    ensures forall p :: !RootAncestor(plan, p) ==> SameAt(d, Prepared(plan, d), p)
  {
  }

  lemma OneCall(cfg: Config, w: Web, run: Run, suffix: string, w': Web, run': Run)
    requires Formed(run) && !run.stage.Done? && !run.stage.PostLast?
    requires Step(cfg, w, run, Smooth(run.stage, suffix)) == (w', run')
    ensures Formed(run') && Finish(cfg, w, run, suffix) == Finish(cfg, w', run', suffix)
  {
  }

  lemma MkdirCalls(cfg: Config, w: Web, run: Run, suffix: string)
    requires run.stage.MkdirAvailable? && Ready(run.plan) && Passage(run.plan, w.disk)
    ensures Finish(cfg, w, run, suffix)
         == Finish(cfg, w.(disk := Prepared(run.plan, w.disk)), run.(stage := MkdirForFile), suffix)
  {
    PreparedFacts(run.plan, w.disk);
    FirstMkdir(cfg, w, run, suffix);
    var d1 := Disk.MakeDirs(w.disk, Disk.Ancestry(run.plan.availableDir));
    MkdirSecond(cfg, w.(disk := d1), run.(stage := MkdirEnabled), suffix);
  }

  lemma FirstMkdir(cfg: Config, w: Web, run: Run, suffix: string)
    requires run.stage.MkdirAvailable? && Disk.Passable(w.disk, Disk.Ancestry(run.plan.availableDir))
    ensures var d := Disk.MakeDirs(w.disk, Disk.Ancestry(run.plan.availableDir));
      Finish(cfg, w, run, suffix) == Finish(cfg, w.(disk := d), run.(stage := MkdirEnabled), suffix)
  {
    var d := Disk.MakeDirs(w.disk, Disk.Ancestry(run.plan.availableDir));
    OneCall(cfg, w, run, suffix, w.(disk := d), run.(stage := MkdirEnabled));
  }

  lemma MkdirSecond(cfg: Config, w: Web, run: Run, suffix: string)
    requires run.stage.MkdirEnabled? && Ready(run.plan) && Disk.Passable(w.disk, Disk.Ancestry(run.plan.enabledDir))
    ensures Finish(cfg, w, run, suffix)
         == Finish(cfg, w.(disk := Disk.MakeDirs(w.disk, Disk.Ancestry(run.plan.enabledDir))), run.(stage := MkdirForFile), suffix)
  {
    var w1 := w.(disk := Disk.MakeDirs(w.disk, Disk.Ancestry(run.plan.enabledDir)));
    if run.plan.reload || run.plan.resumed {
      OneCall(cfg, w, run, suffix, w1, run.(stage := MkdirForFile));
    } else {
      OneCall(cfg, w, run, suffix, w1, run.(stage := PostApplying));
      OneCall(cfg, w1, run.(stage := PostApplying), suffix, w1, run.(stage := MkdirForFile));
    }
  }

  // ---------------------------------------------------------------- the atomic write

  lemma MkdirAgain(cfg: Config, w: Web, run: Run, suffix: string)
    requires run.stage.MkdirForFile? && Ready(run.plan) && run.plan.fileDir == run.plan.availableDir && Passage(run.plan, w.disk)
    requires forall p :: RootAncestor(run.plan, p) ==> p in w.disk
    ensures Finish(cfg, w, run, suffix) == Finish(cfg, w, run.(stage := MakeTemp), suffix)
  {
    MakeDirsIdle(w.disk, Disk.Ancestry(run.plan.availableDir));
    OneCall(cfg, w, run, suffix, w, run.(stage := MakeTemp));
  }

  lemma MakeTempCall(cfg: Config, w: Web, run: Run, suffix: string)
    requires run.stage.MakeTemp? && Ready(run.plan) && run.plan.fileDir == run.plan.availableDir
    requires Disk.IsDir(w.disk, run.plan.availableDir)
    requires '/' !in suffix && Disk.TempPath(run.plan.availableDir, suffix) !in w.disk
    ensures var temp := Disk.TempPath(run.plan.availableDir, suffix);
      Finish(cfg, w, run, suffix)
      == Finish(cfg, w.(disk := w.disk[temp := Disk.File("")]), run.(stage := WriteTemp, temp := temp), suffix)
  {
    var temp := Disk.TempPath(run.plan.availableDir, suffix);
    CreateSucceeds(w.disk, run.plan.availableDir, suffix);
    OneCall(cfg, w, run, suffix, w.(disk := w.disk[temp := Disk.File("")]), run.(stage := WriteTemp, temp := temp));
  }

  lemma NewTempCall(cfg: Config, w: Web, run: Run, suffix: string)
    requires run.stage.MkdirForFile? && Ready(run.plan) && Shaped(run.plan) && Homed(run.plan) && Passage(run.plan, w.disk)
    requires forall p :: RootAncestor(run.plan, p) ==> p in w.disk
    requires '/' !in suffix && Disk.TempPath(run.plan.availableDir, suffix) !in w.disk
    ensures var temp := Disk.TempPath(run.plan.availableDir, suffix);
      Finish(cfg, w, run, suffix)
      == Finish(cfg, w.(disk := w.disk[temp := Disk.File("")]), run.(stage := WriteTemp, temp := temp), suffix)
  {
    MkdirAgain(cfg, w, run, suffix);
    assert RootAncestor(run.plan, run.plan.availableDir);
    MakeTempCall(cfg, w, run.(stage := MakeTemp), suffix);
  }

  lemma CreateSucceeds(d: Disk.Disk, dir: string, suffix: string)
    requires Disk.IsDir(d, dir) && '/' !in suffix && Disk.TempPath(dir, suffix) !in d
    ensures Disk.CreateTemp(d, dir, suffix) == (d[Disk.TempPath(dir, suffix) := Disk.File("")], true)
  {
  }

  lemma RenameCalls(cfg: Config, w: Web, run: Run, suffix: string, d: Disk.Disk)
    requires run.stage.WriteTemp? && Ready(run.plan) && run.temp !in d && TempApart(run)
    requires w.disk == d[run.temp := Disk.File("")]
    requires run.plan.paths.value.available in d ==> !d[run.plan.paths.value.available].Dir?
    ensures Finish(cfg, w, run, suffix)
         == Finish(cfg, w.(disk := d[run.plan.paths.value.available := Disk.File(run.plan.conf.value)]),
                   run.(stage := DropTemp(true)), suffix)
  {
    var text, avail := run.plan.conf.value, run.plan.paths.value.available;
    var w1 := w.(disk := d[run.temp := Disk.File(text)]);
    assert w.disk[run.temp := Disk.File(text)] == w1.disk;
    TextCalls(cfg, w, run, suffix);
    RenameCall(cfg, w1, run.(stage := RenameTemp), suffix, d);
  }

  /** Writing the text, then syncing and closing. */
  lemma TextCalls(cfg: Config, w: Web, run: Run, suffix: string)
    requires run.stage.WriteTemp? && Ready(run.plan) && run.temp in w.disk && w.disk[run.temp].File?
    ensures Finish(cfg, w, run, suffix)
         == Finish(cfg, w.(disk := w.disk[run.temp := Disk.File(run.plan.conf.value)]), run.(stage := RenameTemp), suffix)
  {
    var w1 := w.(disk := w.disk[run.temp := Disk.File(run.plan.conf.value)]);
    OneCall(cfg, w, run, suffix, w1, run.(stage := SealTemp));
    OneCall(cfg, w1, run.(stage := SealTemp), suffix, w1, run.(stage := RenameTemp));
  }

  lemma RenameCall(cfg: Config, w: Web, run: Run, suffix: string, d: Disk.Disk)
    requires run.stage.RenameTemp? && Ready(run.plan) && run.temp !in d && TempApart(run)
    requires w.disk == d[run.temp := Disk.File(run.plan.conf.value)]
    requires run.plan.paths.value.available in d ==> !d[run.plan.paths.value.available].Dir?
    ensures Finish(cfg, w, run, suffix)
         == Finish(cfg, w.(disk := d[run.plan.paths.value.available := Disk.File(run.plan.conf.value)]),
                   run.(stage := DropTemp(true)), suffix)
  {
    assert w.disk - {run.temp} == d;
    var w1 := w.(disk := d[run.plan.paths.value.available := Disk.File(run.plan.conf.value)]);
    OneCall(cfg, w, run, suffix, w1, run.(stage := DropTemp(true)));
  }

  lemma DropCall(cfg: Config, w: Web, run: Run, suffix: string)
    requires run.stage == DropTemp(true) && Ready(run.plan) && run.temp !in w.disk
    ensures Finish(cfg, w, run, suffix) == Finish(cfg, w, run.(stage := InspectLink), suffix)
  {
    OneCall(cfg, w, run, suffix, w, run.(stage := InspectLink));
  }

  // ---------------------------------------------------------------- the link

  /** The enabled root is there for the link to be created in. */
  predicate LinkHome(plan: Plan, d: Disk.Disk) {
    plan.paths.Success? ==> Disk.Parent(plan.paths.value.enabled) == plan.enabledDir && Disk.IsDir(d, plan.enabledDir)
  }

  lemma LinkCalls(cfg: Config, w: Web, run: Run, suffix: string)
    requires run.stage.InspectLink? && Ready(run.plan) && LinkHome(run.plan, w.disk)
    requires run.plan.paths.value.enabled in w.disk ==> w.disk[run.plan.paths.value.enabled].Link?
    requires run.plan.enabledDir != run.plan.paths.value.enabled
    ensures Finish(cfg, w, run, suffix)
         == Finish(cfg, w.(disk := w.disk[run.plan.paths.value.enabled := Disk.Link(run.plan.paths.value.available)]),
                   run.(stage := Test), suffix)
  {
    var avail, enabled := run.plan.paths.value.available, run.plan.paths.value.enabled;
    if enabled !in w.disk {
      OneCall(cfg, w, run, suffix, w, run.(stage := MakeLink));
      MakeLinkCall(cfg, w, run.(stage := MakeLink), suffix);
    } else if w.disk[enabled] == Disk.Link(avail) {
      KeepLinkCall(cfg, w, run, suffix);
    } else {
      StaleLinkCall(cfg, w, run, suffix);
      RelinkCalls(cfg, w, run.(stage := RemoveLink), suffix);
    }
  }

  lemma KeepLinkCall(cfg: Config, w: Web, run: Run, suffix: string)
    requires run.stage.InspectLink? && Ready(run.plan) && LinkAt(w.disk, run.plan.paths.value.enabled, run.plan.paths.value.available)
    ensures Finish(cfg, w, run, suffix)
         == Finish(cfg, w.(disk := w.disk[run.plan.paths.value.enabled := Disk.Link(run.plan.paths.value.available)]),
                   run.(stage := Test), suffix)
  {
    OneCall(cfg, w, run, suffix, w, run.(stage := Test));
    assert w.disk[run.plan.paths.value.enabled := Disk.Link(run.plan.paths.value.available)] == w.disk;
  }

  lemma StaleLinkCall(cfg: Config, w: Web, run: Run, suffix: string)
    requires run.stage.InspectLink? && Ready(run.plan)
    requires var p := run.plan.paths.value.enabled;
      p in w.disk && w.disk[p].Link? && w.disk[p].target != run.plan.paths.value.available
    ensures Finish(cfg, w, run, suffix) == Finish(cfg, w, run.(stage := RemoveLink), suffix)
  {
    OneCall(cfg, w, run, suffix, w, run.(stage := RemoveLink));
  }

  lemma RelinkCalls(cfg: Config, w: Web, run: Run, suffix: string)
    requires run.stage.RemoveLink? && Ready(run.plan) && LinkHome(run.plan, w.disk)
    requires run.plan.paths.value.enabled in w.disk && w.disk[run.plan.paths.value.enabled].Link?
    requires run.plan.enabledDir != run.plan.paths.value.enabled
    ensures Finish(cfg, w, run, suffix)
         == Finish(cfg, w.(disk := w.disk[run.plan.paths.value.enabled := Disk.Link(run.plan.paths.value.available)]),
                   run.(stage := Test), suffix)
  {
    var avail, enabled := run.plan.paths.value.available, run.plan.paths.value.enabled;
    var w1 := w.(disk := w.disk - {enabled});
    UnlinkCall(cfg, w, run, suffix);
    MakeLinkCall(cfg, w1, run.(stage := MakeLink), suffix);
    assert w1.disk[enabled := Disk.Link(avail)] == w.disk[enabled := Disk.Link(avail)];
  }

  lemma UnlinkCall(cfg: Config, w: Web, run: Run, suffix: string)
    requires run.stage.RemoveLink? && Ready(run.plan)
    requires run.plan.paths.value.enabled in w.disk && w.disk[run.plan.paths.value.enabled].Link?
    ensures Finish(cfg, w, run, suffix)
         == Finish(cfg, w.(disk := w.disk - {run.plan.paths.value.enabled}), run.(stage := MakeLink), suffix)
  {
    OneCall(cfg, w, run, suffix, w.(disk := w.disk - {run.plan.paths.value.enabled}), run.(stage := MakeLink));
  }

  lemma SymlinkSucceeds(d: Disk.Disk, target: string, p: string, dir: string)
    requires p !in d && Disk.Parent(p) == dir && Disk.IsDir(d, dir)
    ensures Disk.Symlink(d, target, p, false) == (d[p := Disk.Link(target)], true)
  {
  }

  lemma MakeLinkCall(cfg: Config, w: Web, run: Run, suffix: string)
    requires run.stage.MakeLink? && Ready(run.plan) && LinkHome(run.plan, w.disk)
    requires run.plan.paths.value.enabled !in w.disk
    ensures Finish(cfg, w, run, suffix)
         == Finish(cfg, w.(disk := w.disk[run.plan.paths.value.enabled := Disk.Link(run.plan.paths.value.available)]),
                   run.(stage := Test), suffix)
  {
    var w1 := w.(disk := w.disk[run.plan.paths.value.enabled := Disk.Link(run.plan.paths.value.available)]);
    MakeLinkStep(cfg, w, run);
    OneCall(cfg, w, run, suffix, w1, run.(stage := Test));
  }

  lemma MakeLinkStep(cfg: Config, w: Web, run: Run)
    requires run.stage.MakeLink? && Ready(run.plan) && LinkHome(run.plan, w.disk)
    requires run.plan.paths.value.enabled !in w.disk
    ensures var d := w.disk[run.plan.paths.value.enabled := Disk.Link(run.plan.paths.value.available)];
      Step(cfg, w, run, Succeeds) == (w.(disk := d), run.(stage := Test))
  {
    var w1 := w.(disk := w.disk[run.plan.paths.value.enabled := Disk.Link(run.plan.paths.value.available)]);
    LinkPerformed(cfg, w, run.plan.paths.value.available, run.plan.paths.value.enabled, run.plan.enabledDir);
    LinkResumed(cfg, w, run, w1);
  }

  lemma LinkPerformed(cfg: Config, w: Web, target: string, p: string, dir: string)
    requires p !in w.disk && Disk.Parent(p) == dir && Disk.IsDir(w.disk, dir)
    ensures Perform(cfg, w, Link(target, p), Succeeds) == (w.(disk := w.disk[p := Disk.Link(target)]), Good)
  {
    SymlinkSucceeds(w.disk, target, p, dir);
  }

  lemma LinkResumed(cfg: Config, w: Web, run: Run, w': Web)
    requires run.stage.MakeLink? && Ready(run.plan)
    requires Perform(cfg, w, Link(run.plan.paths.value.available, run.plan.paths.value.enabled), Succeeds) == (w', Good)
    ensures Step(cfg, w, run, Succeeds) == (w', run.(stage := Test))
  {
    AfterLinking(run);
  }

  lemma AfterLinking(run: Run)
    requires run.stage.MakeLink? && Ready(run.plan)
    ensures Next(run) == Link(run.plan.paths.value.available, run.plan.paths.value.enabled)
    ensures Resume(run, Good) == run.(stage := Test)
  {
  }

  lemma LastCalls(cfg: Config, w: Web, run: Run, suffix: string)
    requires run.stage.Test?
    ensures var seen := Enabled(cfg, w.disk);
      Finish(cfg, w, run, suffix)
      == if !cfg.accepts(seen) then (w, Some(FailedRow(run.plan, ValidationFailed)))
         else (if run.plan.reload then w.(loaded := seen) else w, Some(Ending(run.plan)))
  {
    var seen, plan := Enabled(cfg, w.disk), run.plan;
    if !cfg.accepts(seen) {
      OneCall(cfg, w, run, suffix, w, run.(stage := Failing(run, ValidationFailed)));
    } else if plan.reload {
      OneCall(cfg, w, run, suffix, w, run.(stage := Reload));
      OneCall(cfg, w, run.(stage := Reload), suffix, w.(loaded := seen), run.(stage := PostLast(ReloadRow(plan))));
    } else {
      OneCall(cfg, w, run, suffix, w, run.(stage := PostLast(PhaseRow(plan, Applied))));
    }
  }

  // ---------------------------------------------------------------- the whole run

  /** The result of the failure-free run: the two managed paths installed, and the receipt the test decides. */
  function Converged(cfg: Config, plan: Plan, w: Web): (Web, Option<Row>)
    requires Ready(plan)
  {
    var d := Installed(plan, w.disk);
    var seen := Enabled(cfg, d);
    if !cfg.accepts(seen) then (w.(disk := d), Some(FailedRow(plan, ValidationFailed)))
    else (if plan.reload then Web(d, seen) else w.(disk := d), Some(Ending(plan)))
  }

  /** A suffix for which no file exists yet. */
  predicate Unused(plan: Plan, d: Disk.Disk, suffix: string) {
    '/' !in suffix && Disk.TempPath(plan.availableDir, suffix) !in Prepared(plan, d)
  }

  lemma WriteCalls(cfg: Config, w: Web, run: Run, suffix: string)
    requires run.stage.MkdirForFile? && Ready(run.plan) && Shaped(run.plan) && Homed(run.plan) && Passage(run.plan, w.disk)
    requires forall p :: RootAncestor(run.plan, p) ==> p in w.disk
    requires '/' !in suffix && Disk.TempPath(run.plan.availableDir, suffix) !in w.disk
    requires run.plan.paths.value.available in w.disk ==> !w.disk[run.plan.paths.value.available].Dir?
    ensures var temp := Disk.TempPath(run.plan.availableDir, suffix);
      Finish(cfg, w, run, suffix)
      == Finish(cfg, w.(disk := w.disk[run.plan.paths.value.available := Disk.File(run.plan.conf.value)]),
                run.(stage := InspectLink, temp := temp), suffix)
  {
    var temp, avail := Disk.TempPath(run.plan.availableDir, suffix), run.plan.paths.value.available;
    assert TempOf(run.plan, temp);
    TempIsNotManaged(run.plan, temp);
    NewTempCall(cfg, w, run, suffix);
    var w1, run1 := w.(disk := w.disk[temp := Disk.File("")]), run.(stage := WriteTemp, temp := temp);
    RenameCalls(cfg, w1, run1, suffix, w.disk);
    var w2 := w.(disk := w.disk[avail := Disk.File(run.plan.conf.value)]);
    assert w1.(disk := w2.disk) == w2;
    DropCall(cfg, w2, run1.(stage := DropTemp(true)), suffix);
  }

  lemma FinishInstalls(cfg: Config, w: Web, run: Run, suffix: string)
    requires run.stage.MkdirAvailable? && Ready(run.plan) && Shaped(run.plan) && Homed(run.plan) && Apart(run.plan)
    requires Recoverable(run.plan, w.disk) && Unused(run.plan, w.disk, suffix)
    ensures Finish(cfg, w, run, suffix) == Converged(cfg, run.plan, w)
  {
    var plan := run.plan;
    var d1 := Prepared(plan, w.disk);
    PreparedFacts(plan, w.disk);
    MkdirCalls(cfg, w, run, suffix);
    var w1 := w.(disk := d1);
    WriteCalls(cfg, w1, run.(stage := MkdirForFile), suffix);
    var w2 := w.(disk := d1[plan.paths.value.available := Disk.File(plan.conf.value)]);
    var run2 := run.(stage := InspectLink, temp := Disk.TempPath(plan.availableDir, suffix));
    assert Disk.IsDir(w2.disk, plan.enabledDir);
    LinkCalls(cfg, w2, run2, suffix);
    LastCalls(cfg, w.(disk := Installed(plan, w.disk)), run2.(stage := Test), suffix);
  }
}
