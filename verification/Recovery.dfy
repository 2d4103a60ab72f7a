/** Crash recovery as one statement: killed runs, then a failure-free one, then another. */
module Recovery {
  import opened Text
  import opened UnixPath
  import opened SitePaths
  import opened Protocol
  import opened NginxLeg
  import opened NginxRuns
  import opened CrashRecovery
  import opened SmoothRun
  import Disk

  lemma SameKeySamePaths(ar: string, er: string, a: string, b: string)
    requires SiteKey(a) == SiteKey(b)
    ensures SiteConfigPaths(ar, er, a) == SiteConfigPaths(ar, er, b)
  {
    assert |Trim(a)| == |SiteKey(a)| && |Trim(b)| == |SiteKey(b)|;
  }

  /** Under one configuration the runs of all intents meet the hypotheses of recovery: those of other sites, and
      those of the same site whatever the intent was when they began. */
  lemma IntentsQualify(cfg: Config, intent: ApplyIntent, echo: string, other: ApplyIntent, echo': string, certOk: bool, os: seq<Outcome>)
    requires RootsLoaded(cfg) && Ready(PlanFor(cfg, intent, echo))
    requires Apart(PlanFor(cfg, intent, echo)) && Apart(PlanFor(cfg, other, echo'))
    ensures var plan := PlanFor(cfg, intent, echo);
      Target(plan) && Homed(plan) && Compatible(plan, Attempt(Begin(cfg, other, echo', certOk), os))
  {
    PlanIsShaped(cfg, intent, echo);
    PlanIsHomed(cfg, intent, echo);
    PlanIsShaped(cfg, other, echo');
    BeginStarts(cfg, other, echo', certOk);
    if SiteKey(intent.site) == SiteKey(other.site) {
      SameKeySamePaths(cfg.availableRoot, cfg.enabledRoot, intent.site, other.site);
    }
  }

  /** Both managed paths are as a converged site has them. */
  predicate InPlace(plan: Plan, d: Disk.Disk)
    requires Ready(plan)
  {
    && FileAt(d, plan.paths.value.available, plan.conf.value)
    && LinkAt(d, plan.paths.value.enabled, plan.paths.value.available)
  }

  lemma InstalledInPlace(plan: Plan, d: Disk.Disk)
    requires Ready(plan) && Apart(plan) && Passage(plan, d)
    ensures InPlace(plan, Installed(plan, d)) && Recoverable(plan, Installed(plan, d))
    ensures forall p :: RootAncestor(plan, p) ==> p in Installed(plan, d)
  {
    PreparedFacts(plan, d);
  }

  /** Converging twice is converging once: the second run changes no path at all. */
  lemma InstalledTwice(plan: Plan, d: Disk.Disk)
    requires Ready(plan) && Apart(plan) && Passage(plan, d)
    ensures Installed(plan, Installed(plan, d)) == Installed(plan, d)
  {
    var d' := Installed(plan, d);
    InstalledInPlace(plan, d);
    MakeDirsIdle(d', Disk.Ancestry(plan.availableDir));
    MakeDirsIdle(d', Disk.Ancestry(plan.enabledDir));
    SetAgain(d', plan.paths.value.available, plan.paths.value.enabled);
  }

  lemma SetAgain(d: Disk.Disk, p: string, q: string)
    requires p in d && q in d
    ensures d[p := d[p]][q := d[q]] == d
  {
  }

  /** The failure-free run of a target from any recoverable disk. */
  lemma RunToEnd(cfg: Config, plan: Plan, w: Web, run: Run, suffix: string)
    requires Ready(plan) && Apart(plan) && Shaped(plan) && Homed(plan) && run.plan == plan && run.stage.MkdirAvailable?
    requires Recoverable(plan, w.disk) && Unused(plan, w.disk, suffix)
    ensures Finish(cfg, w, run, suffix) == Converged(cfg, plan, w)
    ensures Converged(cfg, plan, w).0.disk == Installed(plan, w.disk)
  {
    FinishInstalls(cfg, w, run, suffix);
  }

  /** Kill runs of this site, for this intent or ones it replaced, and of other sites, anywhere and as often as
      you like; then run the intent without failures. The two managed paths are what an uninterrupted run would
      have left, the receipt is the one the test decides, in between the available file was never half-written,
      and running the intent once more leaves the whole disk as it is. */
  lemma CrashedRunsRecover(cfg: Config, w: Web, attempts: seq<Attempt>, run: Run, first: string, later: string, last: string)
    requires Target(run.plan) && Homed(run.plan) && run.stage.MkdirAvailable?
    requires Recoverable(run.plan, w.disk) && forall a :: a in attempts ==> Compatible(run.plan, a)
    requires Unused(run.plan, w.disk, first) && Unused(run.plan, After(cfg, w, attempts).disk, later)
    requires Unused(run.plan, Installed(run.plan, After(cfg, w, attempts).disk), last)
    ensures var plan, crashed := run.plan, After(cfg, w, attempts);
      var straight, recovered := Finish(cfg, w, run, first), Finish(cfg, crashed, run, later);
      && EvolvedBy(plan, attempts, w.disk, crashed.disk)
      && InPlace(plan, straight.0.disk) && InPlace(plan, recovered.0.disk)
      && recovered == Converged(cfg, plan, crashed)
      && Finish(cfg, recovered.0, run, last).0.disk == recovered.0.disk
  {
    var plan, crashed := run.plan, After(cfg, w, attempts);
    KilledRuns(cfg, plan, w, attempts);
    RunToEnd(cfg, plan, w, run, first);
    RunToEnd(cfg, plan, crashed, run, later);
    InstalledInPlace(plan, w.disk);
    InstalledInPlace(plan, crashed.disk);
    var recovered := Converged(cfg, plan, crashed).0;
    RunToEnd(cfg, plan, recovered, run, last);
    InstalledTwice(plan, crashed.disk);
  }

  // ---------------------------------------------------------------- any run that reports success

  lemma {:induction false} StepsPlaced(cfg: Config, w: Web, run: Run, os: seq<Outcome>)
    requires Formed(run) && Shaped(run.plan) && FreshTemp(map[], run) && Placed(run, w.disk)
    ensures Placed(Steps(cfg, w, run, os).1, Steps(cfg, w, run, os).0.disk)
    decreases |os|
  {
    if os != [] && !run.stage.Done? {
      var (w', run') := Step(cfg, w, run, os[0]);
      FreshTempApart(map[], run);
      StepKeepsTemp(cfg, map[], w, run, os[0]);
      StepPlaced(cfg, w, run, os[0]);
      StepsPlaced(cfg, w', run', os[1..]);
    }
  }

  lemma StartPlaced(run: Run, d: Disk.Disk)
    requires Starting(run)
    ensures FreshTemp(map[], run) && Placed(run, d)
  {
  }

  /** Whatever happened before and whatever fails or is retried meanwhile: a run that comes to its success
      receipt has the whole rendered text in place behind its enabled link. */
  lemma SuccessMeansInPlace(cfg: Config, w: Web, attempts: seq<Attempt>, last: Attempt)
    requires Starting(last.run) && Shaped(last.run.plan)
    ensures var (w', run) := Try(cfg, After(cfg, w, attempts), last);
      run.stage.PostLast? && SuccessRow(run.stage.row) ==> Ready(run.plan) && InPlace(run.plan, w'.disk)
  {
    var now := After(cfg, w, attempts);
    StartPlaced(last.run, now.disk);
    StepsPlaced(cfg, now, last.run, last.outcomes);
  }

  // ---------------------------------------------------------------- other sites

  /** The attempt is a run over the same roots for a site with another trimmed, folded id. */
  predicate ForOthers(plan: Plan, a: Attempt) {
    Starting(a.run) && Shaped(a.run.plan) && SameRoots(plan, a.run.plan) && SiteKey(plan.site) != SiteKey(a.run.plan.site)
  }

  /** Any sequence of runs for other sites, complete or killed, leaves a site's file and link exactly as they
      were, whatever they are. */
  lemma {:induction false} OthersKeep(cfg: Config, plan: Plan, w: Web, attempts: seq<Attempt>)
    requires Target(plan) && forall a :: a in attempts ==> ForOthers(plan, a)
    ensures var d := After(cfg, w, attempts).disk;
      SameAt(w.disk, d, plan.paths.value.available) && SameAt(w.disk, d, plan.paths.value.enabled)
    decreases |attempts|
  {
    if attempts != [] {
      ForeignTry(cfg, plan, w, attempts[0]);
      OthersKeep(cfg, plan, Try(cfg, w, attempts[0]).0, attempts[1..]);
    }
  }

  lemma ForeignTry(cfg: Config, plan: Plan, w: Web, a: Attempt)
    requires Target(plan) && ForOthers(plan, a)
    ensures var d := Try(cfg, w, a).0.disk;
      SameAt(w.disk, d, plan.paths.value.available) && SameAt(w.disk, d, plan.paths.value.enabled)
  {
    StartUntouched(a.run, w.disk);
    StepsUntouched(cfg, w.disk, w, a.run, a.outcomes);
    ForeignKeeps(w.disk, Try(cfg, w, a).1, Try(cfg, w, a).0.disk, plan);
  }

  lemma StartUntouched(run: Run, d: Disk.Disk)
    requires Starting(run)
    ensures FreshTemp(d, run) && Untouched(d, run.plan, run.temp, d)
  {
  }

  // ---------------------------------------------------------------- distinct roots

  lemma AncestorEndsInComponent(root: string, dir: string, name: string)
    requires IsAbs(root) && Clean(root) == root && '/' !in name && dir + "/" + name in Disk.Ancestry(root)
    ensures name in Components(root)
  {
    var cs := Components(root);
    var i :| 0 <= i < |cs| && Disk.Ancestry(root)[i] == dir + "/" + name;
    AbsComponents(root);
    RenderedParent(cs, i);
    SameFile(dir, if i == 0 then "" else "/" + Join(cs[..i]), name, cs[i]);
  }

  lemma RenderedParent(cs: seq<string>, i: nat)
    requires i < |cs|
    ensures UnixPath.Render(true, cs[..i + 1]) == (if i == 0 then "" else "/" + Join(cs[..i])) + "/" + cs[i]
  {
    assert cs[..i + 1] == cs[..i] + [cs[i]];
    JoinAppend(cs[..i], cs[i]);
  }

  /** Distinct cleaned roots, neither with the site's file name among its components, keep the site apart. */
  lemma DistinctRootsApart(cfg: Config, intent: ApplyIntent, echo: string)
    requires RootsLoaded(cfg) && Clean(Trim(cfg.availableRoot)) != Clean(Trim(cfg.enabledRoot))
    requires FileName(intent.site) !in Components(Trim(cfg.availableRoot))
    requires FileName(intent.site) !in Components(Trim(cfg.enabledRoot))
    ensures Apart(PlanFor(cfg, intent, echo))
  {
    var ar, er, name := Trim(cfg.availableRoot), Trim(cfg.enabledRoot), FileName(intent.site);
    if SiteConfigPaths(cfg.availableRoot, cfg.enabledRoot, intent.site).Success? {
      ManagedShape(cfg.availableRoot, cfg.enabledRoot, intent.site);
      SameFile(Clean(ar), Clean(er), name, name);
      NotAbove(ar, Clean(ar), name);
      NotAbove(ar, Clean(er), name);
      NotAbove(er, Clean(ar), name);
      NotAbove(er, Clean(er), name);
    }
  }

  lemma NotAbove(root: string, dir: string, name: string)
    requires IsAbs(root) && '/' !in name && name !in Components(root)
    ensures dir + "/" + name !in Disk.Ancestry(Clean(root))
  {
    CleanIdempotent(root);
    AbsComponents(root);
    if dir + "/" + name in Disk.Ancestry(Clean(root)) {
      AncestorEndsInComponent(Clean(root), dir, name);
    }
  }

  // ---------------------------------------------------------------- a lost applying receipt

  /** Nothing changed but new directories. */
  predicate OnlyDirectories(before: Disk.Disk, after: Disk.Disk) {
    && (forall p :: p in before ==> p in after && after[p] == before[p])
    && (forall p :: p in after && p !in before ==> after[p].Dir?)
  }

  /** Before the first write a run has at most made directories. */
  predicate BeforeWriting(s: Stage) {
    s.MkdirAvailable? || s.MkdirEnabled? || s.PostApplying?
  }

  lemma EarlyStep(cfg: Config, w: Web, run: Run, o: Outcome)
    requires BeforeWriting(run.stage)
    ensures OnlyDirectories(w.disk, Step(cfg, w, run, o).0.disk) && Step(cfg, w, run, o).0.loaded == w.loaded
  {
    var d' := Step(cfg, w, run, o).0.disk;
    forall p ensures p in w.disk ==> p in d' && d'[p] == w.disk[p]
             ensures p !in w.disk && p in d' ==> d'[p].Dir? {
      PerformFootprint(cfg, w, Next(run), o, p);
    }
  }

  lemma WritingStays(cfg: Config, w: Web, run: Run, o: Outcome)
    requires Formed(run) && !run.stage.Done? && BeforeWriting(Step(cfg, w, run, o).1.stage)
    ensures BeforeWriting(run.stage)
  {
    var reply := Perform(cfg, w, Next(run), o).1;
    assert BeforeWriting(Resume(run, reply).stage);
  }

  lemma {:induction false} EarlySteps(cfg: Config, w: Web, run: Run, os: seq<Outcome>)
    requires Formed(run) && BeforeWriting(run.stage) && BeforeWriting(Steps(cfg, w, run, os).1.stage)
    ensures OnlyDirectories(w.disk, Steps(cfg, w, run, os).0.disk)
    decreases |os|
  {
    if os != [] {
      var (w', run') := Step(cfg, w, run, os[0]);
      EarlyStep(cfg, w, run, os[0]);
      LaterStages(cfg, w', run', os[1..]);
      EarlySteps(cfg, w', run', os[1..]);
    }
  }

  lemma {:induction false} LaterStages(cfg: Config, w: Web, run: Run, os: seq<Outcome>)
    requires Formed(run) && BeforeWriting(Steps(cfg, w, run, os).1.stage)
    ensures BeforeWriting(run.stage)
    decreases |os|
  {
    if os != [] && !run.stage.Done? {
      var (w', run') := Step(cfg, w, run, os[0]);
      LaterStages(cfg, w', run', os[1..]);
      WritingStays(cfg, w, run, os[0]);
    }
  }

  /** A run whose applying receipt is not acknowledged ends there: it has made directories and nothing else. */
  lemma UnacknowledgedApplying(cfg: Config, w: Web, run: Run, os: seq<Outcome>, o: Outcome, more: seq<Outcome>)
    requires Formed(run) && BeforeWriting(run.stage) && !o.Acked?
    requires Steps(cfg, w, run, os).1.stage.PostApplying?
    ensures var (w', run') := Steps(cfg, w, run, os);
      OnlyDirectories(w.disk, w'.disk) && Steps(cfg, w', run', [o] + more) == (w', run'.(stage := Done))
  {
    EarlySteps(cfg, w, run, os);
    EndsThere(cfg, Steps(cfg, w, run, os).0, Steps(cfg, w, run, os).1, o, more);
  }

  lemma EndsThere(cfg: Config, w: Web, run: Run, o: Outcome, more: seq<Outcome>)
    requires run.stage.PostApplying? && !o.Acked?
    ensures Steps(cfg, w, run, [o] + more) == (w, run.(stage := Done))
  {
    var all := [o] + more;
    assert all[0] == o && all[1..] == more;
    assert Step(cfg, w, run, o) == (w, run.(stage := Done));
    assert Steps(cfg, w, run.(stage := Done), more) == (w, run.(stage := Done));
  }
}
