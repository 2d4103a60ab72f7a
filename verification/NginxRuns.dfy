/** What any part of an nginx run, cut off anywhere, does to the disk. */
module NginxRuns {
  import opened Text
  import opened UnixPath
  import opened DeployPath
  import opened SitePaths
  import opened Protocol
  import opened NginxLeg
  import Disk

  /** Both nginx roots as configuration loading leaves them. */
  predicate RootsLoaded(cfg: Config) {
    RootLoaded(cfg.availableRoot) && RootLoaded(cfg.enabledRoot)
  }

  /** Both files sit under the same plain name directly in the two cleaned roots. */
  predicate Shaped(plan: Plan) {
    plan.paths.Success? ==> (
      && plan.paths.value == Managed(plan.availableDir + "/" + FileName(plan.site), plan.enabledDir + "/" + FileName(plan.site))
      && plan.fileDir == plan.availableDir
      && '/' !in FileName(plan.site))
  }

  lemma ManagedShape(ar: string, er: string, site: string)
    requires RootLoaded(ar) && RootLoaded(er) && SiteConfigPaths(ar, er, site).Success?
    ensures var a, e, name := Clean(Trim(ar)), Clean(Trim(er)), FileName(site);
      && SiteConfigPaths(ar, er, site).value == Managed(a + "/" + name, e + "/" + name)
      && '/' !in name && Dir(a + "/" + name) == a
  {
    var name := FileName(site);
    PathsInsideRoots(ar, er, site);
    assert Plain(name);
    DirOfManaged(Trim(ar), name);
  }

  lemma PlanIsShaped(cfg: Config, intent: ApplyIntent, echo: string)
    requires RootsLoaded(cfg)
    ensures Shaped(PlanFor(cfg, intent, echo))
  {
    if SiteConfigPaths(cfg.availableRoot, cfg.enabledRoot, intent.site).Success? {
      ManagedShape(cfg.availableRoot, cfg.enabledRoot, intent.site);
    }
  }

  /** Neither second check a run makes on derived paths can fail: the web root of a deploy path that validates
      is accepted too, and with loaded roots no managed path is "outside root". */
  lemma SecondChecksPass(cfg: Config, intent: ApplyIntent, echo: string, certOk: bool)
    ensures var check := Precheck(cfg, intent, certOk); check.Some? ==> !check.value.InvalidWebRoot?
    ensures RootsLoaded(cfg) ==> PlanFor(cfg, intent, echo).paths != Failure(OutsideRoot)
  {
    WebRootCheck(cfg, intent, certOk);
    if RootsLoaded(cfg) {
      PathsInsideRoots(cfg.availableRoot, cfg.enabledRoot, intent.site);
    }
  }

  lemma WebRootCheck(cfg: Config, intent: ApplyIntent, certOk: bool)
    ensures var check := Precheck(cfg, intent, certOk); check.Some? ==> !check.value.InvalidWebRoot?
  {
    var deployPath, roots := Trim(intent.deployPath), NormalizeRoots(cfg.deployRoots);
    if ValidateDeployPath(deployPath, roots).None? && ResolveWebRoot(deployPath, intent.runtimeType).Success? {
      TrimIsTrimmed(intent.deployPath);
      WebRootInherits(deployPath, intent.runtimeType, roots);
    }
  }

  /** The name of a temporary file in the available root. */
  ghost predicate TempOf(plan: Plan, p: string) {
    exists suffix :: '/' !in suffix && p == Disk.TempPath(plan.availableDir, suffix)
  }

  lemma TempNameDiffers(dir: string, dir': string, suffix: string, site: string)
    requires '/' !in suffix && '/' !in FileName(site)
    ensures Disk.TempPath(dir, suffix) != dir' + "/" + FileName(site)
  {
    var name := ".rp-nginx-" + suffix;
    assert Disk.TempPath(dir, suffix) == dir + "/" + name;
    assert name[0] == '.' && FileName(site)[0] == 'r';
    SameFile(dir, dir', name, FileName(site));
  }

  /** Temporary names and managed names never meet. */
  lemma TempIsNotManaged(plan: Plan, temp: string)
    requires Shaped(plan) && plan.paths.Success? && TempOf(plan, temp)
    ensures temp != plan.paths.value.available && temp != plan.paths.value.enabled
  {
    var suffix :| '/' !in suffix && temp == Disk.TempPath(plan.availableDir, suffix);
    TempNameDiffers(plan.availableDir, plan.availableDir, suffix, plan.site);
    TempNameDiffers(plan.availableDir, plan.enabledDir, suffix, plan.site);
  }

  /** A run up to some call, killed there if it had more to do. */
  function Steps(cfg: Config, w: Web, run: Run, os: seq<Outcome>): (r: (Web, Run))
    requires Formed(run)
    ensures Formed(r.1) && r.1.plan == run.plan
    decreases |os|
  {
    if os == [] || run.stage.Done? then (w, run)
    else
      var (w', run') := Step(cfg, w, run, os[0]);
      Steps(cfg, w', run', os[1..])
  }

  // ---------------------------------------------------------------- footprint

  predicate Own(plan: Plan, p: string) {
    plan.paths.Success? && (p == plan.paths.value.available || p == plan.paths.value.enabled)
  }

  predicate RootAncestor(plan: Plan, p: string) {
    p in Disk.Ancestry(plan.availableDir) || p in Disk.Ancestry(plan.enabledDir)
  }

  predicate HasTemp(s: Stage) {
    s.WriteTemp? || s.SealTemp? || s.RenameTemp? || s.DropTemp?
  }

  predicate IsTemp(temp: string, p: string) {
    temp != "" && p == temp
  }

  /** Nothing but the two managed paths, missing root directories and one new temporary file. */
  predicate Untouched(before: Disk.Disk, plan: Plan, temp: string, after: Disk.Disk) {
    && (forall p :: p in before && !Own(plan, p) ==> p in after && after[p] == before[p])
    && (forall p :: p in after && p !in before && !Own(plan, p) ==> IsTemp(temp, p) || (after[p].Dir? && RootAncestor(plan, p)))
  }

  /** The run's temporary file did not exist when the run began. */
  ghost predicate FreshTemp(before: Disk.Disk, run: Run) {
    && (run.temp != "" ==> TempOf(run.plan, run.temp) && run.temp !in before)
    && (HasTemp(run.stage) ==> run.temp != "")
    && (Early(run.stage) ==> run.temp == "")
  }

  predicate Early(s: Stage) {
    s.MkdirAvailable? || s.MkdirEnabled? || s.PostApplying? || s.MkdirForFile? || s.MakeTemp?
  }

  /** The paths a call may write, other than directories on the way to a root. */
  predicate Writes(a: Action, o: Outcome, p: string) {
    match a
    case NewTemp(dir) => o.TempNamed? && p == Disk.TempPath(dir, o.suffix)
    case Write(path, _) => p == path
    case Move(from, to) => p == from || p == to
    case Unlink(path) => p == path
    case Link(_, path) => p == path
    case _ => false
  }

  lemma PerformFootprint(cfg: Config, w: Web, a: Action, o: Outcome, p: string)
    requires !Writes(a, o, p)
    ensures var d, d' := w.disk, Perform(cfg, w, a, o).0.disk;
      && (p in d ==> p in d' && d'[p] == d[p])
      && (p !in d && p in d' ==> a.MakeAll? && p in Disk.Ancestry(a.path) && d'[p].Dir?)
  {
    if a.MakeAll? {
      var ps := Disk.Ancestry(a.path);
      assert forall n: nat :: n <= |ps| && p in ps[..n] ==> p in ps;
    }
  }

  /** A fresh name is what makes a temporary file. */
  lemma TempIsFresh(cfg: Config, w: Web, run: Run, o: Outcome)
    requires Formed(run) && run.stage.MakeTemp? && Shaped(run.plan)
    ensures var r := Step(cfg, w, run, o).1;
      r.stage.WriteTemp? ==> (
        && o.TempNamed? && r.temp == Disk.TempPath(run.plan.availableDir, o.suffix)
        && '/' !in o.suffix && r.temp !in w.disk)
    ensures var r := Step(cfg, w, run, o).1; !r.stage.WriteTemp? ==> r.temp == run.temp && r.stage.PostLast? && Step(cfg, w, run, o).0 == w
  {
  }

  /** Only creating the temporary file changes its name. */
  lemma TempStays(run: Run, reply: Reply)
    requires Formed(run) && !run.stage.Done? && !run.stage.MakeTemp?
    ensures var next := Resume(run, reply);
      next.temp == run.temp && (HasTemp(next.stage) ==> HasTemp(run.stage)) && (Early(next.stage) ==> Early(run.stage))
  {
  }

  lemma StepKeepsTemp(cfg: Config, before: Disk.Disk, w: Web, run: Run, o: Outcome)
    requires Formed(run) && !run.stage.Done? && Shaped(run.plan)
    requires FreshTemp(before, run) && forall p :: p in before && !Own(run.plan, p) ==> p in w.disk
    ensures FreshTemp(before, Step(cfg, w, run, o).1)
    ensures !run.stage.MakeTemp? ==> Step(cfg, w, run, o).1.temp == run.temp
  {
    if run.stage.MakeTemp? {
      TempIsFresh(cfg, w, run, o);
      var r := Step(cfg, w, run, o).1;
      if r.stage.WriteTemp? {
        assert TempOf(run.plan, r.temp);
        TempIsNotManaged(run.plan, r.temp);
      }
    } else {
      TempStays(run, Perform(cfg, w, Next(run), o).1);
    }
  }

  /** What a step writes is the run's own. */
  lemma StepWritesOwn(cfg: Config, w: Web, run: Run, o: Outcome, p: string)
    requires Formed(run) && !run.stage.Done? && Shaped(run.plan)
    requires Writes(Next(run), o, p)
    ensures Own(run.plan, p) || (HasTemp(run.stage) && p == run.temp)
      || (run.stage.MakeTemp? && (p == Step(cfg, w, run, o).1.temp || Step(cfg, w, run, o).0 == w))
  {
    if run.stage.MakeTemp? {
      TempIsFresh(cfg, w, run, o);
    }
  }

  lemma StepMakesAncestors(run: Run)
    requires Formed(run) && !run.stage.Done? && Shaped(run.plan) && Next(run).MakeAll?
    ensures Next(run).path == run.plan.availableDir || Next(run).path == run.plan.enabledDir
  {
  }

  lemma MakeTempElsewhere(cfg: Config, w: Web, run: Run, o: Outcome, p: string)
    requires Formed(run) && run.stage.MakeTemp? && Shaped(run.plan)
    requires Step(cfg, w, run, o).1.temp != "" ==> p != Step(cfg, w, run, o).1.temp
    ensures var d, d' := w.disk, Step(cfg, w, run, o).0.disk; p in d' <==> p in d
    ensures var d, d' := w.disk, Step(cfg, w, run, o).0.disk; p in d ==> d'[p] == d[p]
  {
    TempIsFresh(cfg, w, run, o);
    if Step(cfg, w, run, o).1.stage.WriteTemp? {
      PerformFootprint(cfg, w, Next(run), o, p);
    }
  }

  /** A step leaves every path alone that is neither managed nor its temporary file. */
  lemma StepElsewhere(cfg: Config, w: Web, run: Run, o: Outcome, p: string)
    requires Formed(run) && !run.stage.Done? && Shaped(run.plan)
    requires !Own(run.plan, p) && (HasTemp(run.stage) ==> p != run.temp)
    requires Step(cfg, w, run, o).1.temp != "" ==> p != Step(cfg, w, run, o).1.temp
    ensures var d, d' := w.disk, Step(cfg, w, run, o).0.disk;
      && (p in d ==> p in d' && d'[p] == d[p])
      && (p !in d && p in d' ==> d'[p].Dir? && RootAncestor(run.plan, p))
  {
    if run.stage.MakeTemp? {
      MakeTempElsewhere(cfg, w, run, o, p);
    } else {
      var a := Next(run);
      if Writes(a, o, p) {
        StepWritesOwn(cfg, w, run, o, p);
        assert false;
      }
      PerformFootprint(cfg, w, a, o, p);
      if a.MakeAll? {
        StepMakesAncestors(run);
      }
    }
  }

  /** One step's change away from the managed paths and the temporary file. */
  predicate Elsewhere(plan: Plan, temp: string, d: Disk.Disk, d': Disk.Disk) {
    && (forall p :: p in d && !Own(plan, p) && !IsTemp(temp, p) ==> p in d' && d'[p] == d[p])
    && (forall p :: p in d' && p !in d && !Own(plan, p) && !IsTemp(temp, p) ==> d'[p].Dir? && RootAncestor(plan, p))
  }

  lemma ElsewhereExtends(before: Disk.Disk, plan: Plan, temp: string, temp': string, d: Disk.Disk, d': Disk.Disk)
    requires Untouched(before, plan, temp, d) && Elsewhere(plan, temp', d, d')
    requires (temp == "" || temp == temp') && (temp' != "" ==> temp' !in before)
    ensures Untouched(before, plan, temp', d')
  {
  }

  lemma StepIsElsewhere(cfg: Config, w: Web, run: Run, o: Outcome)
    requires Formed(run) && !run.stage.Done? && Shaped(run.plan)
    requires HasTemp(run.stage) ==> run.temp != "" && Step(cfg, w, run, o).1.temp == run.temp
    ensures Elsewhere(run.plan, Step(cfg, w, run, o).1.temp, w.disk, Step(cfg, w, run, o).0.disk)
  {
    var d', temp := Step(cfg, w, run, o).0.disk, Step(cfg, w, run, o).1.temp;
    forall p | !Own(run.plan, p) && !IsTemp(temp, p)
      ensures p in w.disk ==> p in d' && d'[p] == w.disk[p]
      ensures p !in w.disk && p in d' ==> d'[p].Dir? && RootAncestor(run.plan, p)
    {
      StepElsewhere(cfg, w, run, o, p);
    }
  }

  lemma StepUntouched(cfg: Config, before: Disk.Disk, w: Web, run: Run, o: Outcome)
    requires Formed(run) && !run.stage.Done? && Shaped(run.plan)
    requires FreshTemp(before, run) && Untouched(before, run.plan, run.temp, w.disk)
    ensures FreshTemp(before, Step(cfg, w, run, o).1)
    ensures Untouched(before, run.plan, Step(cfg, w, run, o).1.temp, Step(cfg, w, run, o).0.disk)
  {
    StepKeepsTemp(cfg, before, w, run, o);
    StepIsElsewhere(cfg, w, run, o);
    ElsewhereExtends(before, run.plan, run.temp, Step(cfg, w, run, o).1.temp, w.disk, Step(cfg, w, run, o).0.disk);
  }

  lemma {:induction false} StepsUntouched(cfg: Config, before: Disk.Disk, w: Web, run: Run, os: seq<Outcome>)
    requires Formed(run) && Shaped(run.plan)
    requires FreshTemp(before, run) && Untouched(before, run.plan, run.temp, w.disk)
    ensures var (w', run') := Steps(cfg, w, run, os);
      FreshTemp(before, run') && Untouched(before, run.plan, run'.temp, w'.disk)
    decreases |os|
  {
    if os != [] && !run.stage.Done? {
      StepUntouched(cfg, before, w, run, os[0]);
      var (w', run') := Step(cfg, w, run, os[0]);
      StepsUntouched(cfg, before, w', run', os[1..]);
    }
  }

  /** Whatever happens to a run, and wherever it is killed, it has changed nothing but its own two paths,
      missing directories above the two roots, and one temporary file that did not exist before. */
  lemma RunFootprint(cfg: Config, w: Web, intent: ApplyIntent, echo: string, certOk: bool, os: seq<Outcome>)
    requires RootsLoaded(cfg)
    ensures var run := Begin(cfg, intent, echo, certOk);
      var (w', run') := Steps(cfg, w, run, os);
      Untouched(w.disk, run.plan, run'.temp, w'.disk) && (run'.temp != "" ==> TempOf(run.plan, run'.temp) && run'.temp !in w.disk)
  {
    PlanIsShaped(cfg, intent, echo);
    StepsUntouched(cfg, w.disk, w, Begin(cfg, intent, echo, certOk), os);
  }

  // ---------------------------------------------------------------- what each stage has in place

  predicate SuccessRow(row: Row) {
    row.body.ApplyBody? && (row.body.apply.Applied? || row.body.apply.ReloadApplied?)
  }

  predicate FileWritten(s: Stage) {
    s == DropTemp(true) || s.InspectLink? || s.RemoveLink? || s.MakeLink? || LinkMade(s)
  }

  predicate LinkMade(s: Stage) {
    s.Test? || s.Reload? || (s.PostLast? && SuccessRow(s.row))
  }

  predicate FileAt(d: Disk.Disk, p: string, text: string) {
    p in d && d[p] == Disk.File(text)
  }

  predicate LinkAt(d: Disk.Disk, p: string, target: string) {
    p in d && d[p] == Disk.Link(target)
  }

  /** What the disk holds when the run is at a stage. */
  predicate Placed(run: Run, d: Disk.Disk) {
    && (run.stage.SealTemp? || run.stage.RenameTemp? ==> Ready(run.plan) && FileAt(d, run.temp, run.plan.conf.value))
    && (FileWritten(run.stage) ==> Ready(run.plan) && FileAt(d, run.plan.paths.value.available, run.plan.conf.value))
    && (run.stage.RemoveLink? ==> run.plan.paths.value.enabled in d && d[run.plan.paths.value.enabled].Link?)
    && (LinkMade(run.stage) ==> LinkAt(d, run.plan.paths.value.enabled, run.plan.paths.value.available))
  }

  predicate TempApart(run: Run) {
    HasTemp(run.stage) && run.plan.paths.Success? ==> run.temp != run.plan.paths.value.available && run.temp != run.plan.paths.value.enabled
  }

  lemma FreshTempApart(before: Disk.Disk, run: Run)
    requires FreshTemp(before, run) && Shaped(run.plan)
    ensures TempApart(run)
  {
    if HasTemp(run.stage) && run.plan.paths.Success? {
      TempIsNotManaged(run.plan, run.temp);
    }
  }

  /** Nothing is claimed of the disk before the text is written, nor after a failure. */
  lemma EarlyPlaced(run: Run, reply: Reply, d: Disk.Disk)
    requires Formed(run) && Early(run.stage)
    ensures Placed(Resume(run, reply), d)
  {
  }

  lemma StepPlacedEarly(cfg: Config, w: Web, run: Run, o: Outcome)
    requires Formed(run) && Early(run.stage)
    ensures Placed(Step(cfg, w, run, o).1, Step(cfg, w, run, o).0.disk)
  {
    EarlyPlaced(run, Perform(cfg, w, Next(run), o).1, Perform(cfg, w, Next(run), o).0.disk);
  }

  lemma StepPlacedWrite(cfg: Config, w: Web, run: Run, o: Outcome)
    requires Formed(run) && (run.stage.WriteTemp? || run.stage.SealTemp?) && Placed(run, w.disk)
    ensures Placed(Step(cfg, w, run, o).1, Step(cfg, w, run, o).0.disk)
  {
  }

  lemma StepPlacedRename(cfg: Config, w: Web, run: Run, o: Outcome)
    requires Formed(run) && (run.stage.RenameTemp? || run.stage.DropTemp?) && Placed(run, w.disk) && TempApart(run)
    ensures Placed(Step(cfg, w, run, o).1, Step(cfg, w, run, o).0.disk)
  {
  }

  lemma StepPlacedLink(cfg: Config, w: Web, run: Run, o: Outcome)
    requires Formed(run) && !run.stage.Done? && Placed(run, w.disk) && !HasTemp(run.stage) && !Early(run.stage)
    ensures Placed(Step(cfg, w, run, o).1, Step(cfg, w, run, o).0.disk)
  {
  }

  lemma StepPlaced(cfg: Config, w: Web, run: Run, o: Outcome)
    requires Formed(run) && !run.stage.Done? && Placed(run, w.disk) && TempApart(run)
    ensures Placed(Step(cfg, w, run, o).1, Step(cfg, w, run, o).0.disk)
  {
    if run.stage.RenameTemp? || run.stage.DropTemp? {
      StepPlacedRename(cfg, w, run, o);
    } else if Early(run.stage) {
      StepPlacedEarly(cfg, w, run, o);
    } else if HasTemp(run.stage) {
      StepPlacedWrite(cfg, w, run, o);
    } else {
      StepPlacedLink(cfg, w, run, o);
    }
  }

  /** The only call that writes at the available path is the rename. */
  lemma OnlyRenameWrites(cfg: Config, w: Web, run: Run, o: Outcome)
    requires Formed(run) && !run.stage.Done? && Ready(run.plan) && Shaped(run.plan) && TempApart(run)
    requires run.plan.paths.value.available != run.plan.paths.value.enabled
    requires Writes(Next(run), o, run.plan.paths.value.available)
    ensures run.stage.RenameTemp? || (run.stage.MakeTemp? && Step(cfg, w, run, o).0 == w)
  {
    if run.stage.MakeTemp? {
      TempIsFresh(cfg, w, run, o);
      if Step(cfg, w, run, o).1.stage.WriteTemp? {
        TempNameDiffers(run.plan.availableDir, run.plan.availableDir, o.suffix, run.plan.site);
      }
    }
  }

  /** An atomic write is atomic: at every step the available file is the old one or the whole new one. */
  lemma StepAvailable(cfg: Config, w: Web, run: Run, o: Outcome)
    requires Formed(run) && !run.stage.Done? && Ready(run.plan) && Shaped(run.plan) && Placed(run, w.disk) && TempApart(run)
    requires run.plan.paths.value.available != run.plan.paths.value.enabled
    ensures var p, d, d' := run.plan.paths.value.available, w.disk, Step(cfg, w, run, o).0.disk;
      || FileAt(d', p, run.plan.conf.value)
      || (p in d && p in d' && d[p] == d'[p])
      || (p !in d && (p !in d' || (d'[p].Dir? && RootAncestor(run.plan, p))))
  {
    var p := run.plan.paths.value.available;
    if !Writes(Next(run), o, p) {
      PerformFootprint(cfg, w, Next(run), o, p);
      if Next(run).MakeAll? {
        StepMakesAncestors(run);
      }
    } else {
      OnlyRenameWrites(cfg, w, run, o);
    }
  }
}
