/** Killing nginx runs anywhere and running again: what survives, and what a later run restores. */
module CrashRecovery {
  import opened Text
  import opened SitePaths
  import opened Protocol
  import opened NginxLeg
  import opened NginxRuns
  import Disk

  // ---------------------------------------------------------------- the disk a run can work on

  /** The two roots are distinct, and neither lies below a managed file of the site. */
  predicate Apart(plan: Plan) {
    plan.paths.Success? ==> (
      && plan.paths.value.available != plan.paths.value.enabled
      && !RootAncestor(plan, plan.paths.value.available)
      && !RootAncestor(plan, plan.paths.value.enabled))
  }

  /** No root is blocked by something that is not a directory. */
  predicate Passage(plan: Plan, d: Disk.Disk) {
    Disk.Passable(d, Disk.Ancestry(plan.availableDir)) && Disk.Passable(d, Disk.Ancestry(plan.enabledDir))
  }

  /** The enabled path is free or a link, the available path is free or not a directory. */
  predicate Recoverable(plan: Plan, d: Disk.Disk) {
    && Passage(plan, d)
    && (plan.paths.Success? ==> (
        && (plan.paths.value.available in d ==> !d[plan.paths.value.available].Dir?)
        && (plan.paths.value.enabled in d ==> d[plan.paths.value.enabled].Link?)))
  }

  predicate SameAt(d: Disk.Disk, d': Disk.Disk, p: string) {
    (p in d <==> p in d') && (p in d && p in d' ==> d[p] == d'[p])
  }

  /** The available file is the old one or the whole rendered text; the enabled path is what it was,
      the link, or free where a link was. */
  predicate Evolved(plan: Plan, d: Disk.Disk, d': Disk.Disk) {
    plan.paths.Success? ==> (
      && (SameAt(d, d', plan.paths.value.available)
          || (plan.conf.Success? && FileAt(d', plan.paths.value.available, plan.conf.value)))
      && LinkEvolved(plan, d, d'))
  }

  predicate LinkEvolved(plan: Plan, d: Disk.Disk, d': Disk.Disk)
    requires plan.paths.Success?
  {
    SameAt(d, d', plan.paths.value.enabled) || plan.paths.value.enabled !in d'
    || LinkAt(d', plan.paths.value.enabled, plan.paths.value.available)
  }

  // ---------------------------------------------------------------- one run

  /** Directories made so far, and the temporary file is none of them. */
  predicate RootsMade(run: Run, d: Disk.Disk) {
    && (run.stage.MkdirEnabled? || Both(run.stage) ==> forall p :: p in Disk.Ancestry(run.plan.availableDir) ==> p in d)
    && (Both(run.stage) ==> forall p :: p in Disk.Ancestry(run.plan.enabledDir) ==> p in d)
    && (run.temp != "" ==> !RootAncestor(run.plan, run.temp))
  }

  predicate Both(s: Stage) {
    s.PostApplying? || s.MkdirForFile? || s.MakeTemp?
  }

  lemma MkdirKeeps(d: Disk.Disk, path: string, fails: bool, made: nat)
    ensures var (d', ok) := Disk.MkdirAll(d, path, fails, made);
      (forall p :: p in d ==> p in d') && (ok ==> forall p :: p in Disk.Ancestry(path) ==> p in d')
  {
  }

  lemma StepRootsMade(cfg: Config, w: Web, run: Run, o: Outcome)
    requires Formed(run) && !run.stage.Done? && Shaped(run.plan) && RootsMade(run, w.disk)
    requires Early(run.stage) ==> run.temp == ""
    ensures RootsMade(Step(cfg, w, run, o).1, Step(cfg, w, run, o).0.disk)
  {
    if run.stage.MakeTemp? {
      TempIsFresh(cfg, w, run, o);
    } else {
      TempStays(run, Perform(cfg, w, Next(run), o).1);
      if Early(run.stage) {
        StepEarly(cfg, w, run, o);
      }
    }
  }

  lemma MkdirCall(cfg: Config, w: Web, path: string, o: Outcome)
    ensures var (w', reply) := Perform(cfg, w, MakeAll(path), o);
      && (forall p :: p in w.disk ==> p in w'.disk)
      && (reply.Good? ==> forall p :: p in Disk.Ancestry(path) ==> p in w'.disk)
  {
    MkdirKeeps(w.disk, path, !o.Succeeds?, Amount(o));
  }

  lemma GoesOnWhenGood(run: Run, reply: Reply)
    requires Formed(run) && !run.stage.Done? && Next(run).MakeAll? && !Failed(run, Resume(run, reply))
    ensures reply.Good?
  {
  }

  /** A directory call as the run sees it. */
  lemma StepMkdir(cfg: Config, w: Web, run: Run, o: Outcome)
    requires Formed(run) && !run.stage.Done? && Next(run).MakeAll?
    ensures var d, d' := w.disk, Step(cfg, w, run, o).0.disk;
      && (forall p :: p in d ==> p in d')
      && (!Failed(run, Step(cfg, w, run, o).1) ==> forall p :: p in Disk.Ancestry(Next(run).path) ==> p in d')
  {
    var after := Perform(cfg, w, Next(run), o);
    MkdirCall(cfg, w, Next(run).path, o);
    if !Failed(run, Resume(run, after.1)) {
      GoesOnWhenGood(run, after.1);
    }
  }

  /** The run went on to report a failed directory call. */
  predicate Failed(run: Run, next: Run) {
    next.stage == Failing(run, MkdirFailed) || next.stage == Failing(run, WriteFailed)
  }

  lemma AfterMkdir(run: Run, reply: Reply)
    requires Formed(run) && Early(run.stage) && !run.stage.MakeTemp?
    ensures var next := Resume(run, reply);
      && (next.stage.MkdirEnabled? ==> run.stage.MkdirAvailable? && !Failed(run, next))
      && (Both(next.stage) ==> run.stage.MkdirEnabled? || Both(run.stage))
      && (Both(next.stage) && run.stage.MkdirEnabled? ==> !Failed(run, next))
      && next.temp == run.temp
  {
  }

  lemma StepEarly(cfg: Config, w: Web, run: Run, o: Outcome)
    requires Formed(run) && Early(run.stage) && !run.stage.MakeTemp? && Shaped(run.plan)
    requires RootsMade(run, w.disk) && run.temp == ""
    ensures RootsMade(Step(cfg, w, run, o).1, Step(cfg, w, run, o).0.disk)
  {
    AfterMkdir(run, Perform(cfg, w, Next(run), o).1);
    if run.stage.PostApplying? {
      assert Step(cfg, w, run, o).0 == w;
    } else {
      StepMkdir(cfg, w, run, o);
    }
  }

  lemma OnlyLinkWrites(cfg: Config, w: Web, run: Run, o: Outcome)
    requires Formed(run) && !run.stage.Done? && Ready(run.plan) && Shaped(run.plan) && TempApart(run)
    requires run.plan.paths.value.available != run.plan.paths.value.enabled
    requires Writes(Next(run), o, run.plan.paths.value.enabled)
    ensures run.stage.RemoveLink? || run.stage.MakeLink? || (run.stage.MakeTemp? && Step(cfg, w, run, o).0 == w)
  {
    if run.stage.MakeTemp? {
      TempIsFresh(cfg, w, run, o);
      if Step(cfg, w, run, o).1.stage.WriteTemp? {
        TempNameDiffers(run.plan.availableDir, run.plan.enabledDir, o.suffix, run.plan.site);
      }
    }
  }

  lemma StepEnabled(cfg: Config, w: Web, run: Run, o: Outcome)
    requires Formed(run) && !run.stage.Done? && Ready(run.plan) && Shaped(run.plan) && TempApart(run) && Apart(run.plan)
    ensures var p, d, d' := run.plan.paths.value.enabled, w.disk, Step(cfg, w, run, o).0.disk;
      SameAt(d, d', p) || p !in d' || LinkAt(d', p, run.plan.paths.value.available)
  {
    var p := run.plan.paths.value.enabled;
    if !Writes(Next(run), o, p) {
      PerformFootprint(cfg, w, Next(run), o, p);
      if Next(run).MakeAll? {
        StepMakesAncestors(run);
      }
    } else {
      OnlyLinkWrites(cfg, w, run, o);
    }
  }

  /** Everything a run keeps true from the disk it began on, `before`, to the disk it is killed on. */
  ghost predicate Sound(before: Disk.Disk, run: Run, d: Disk.Disk) {
    && Formed(run) && Shaped(run.plan) && Apart(run.plan)
    && FreshTemp(before, run) && Untouched(before, run.plan, run.temp, d)
    && RootsMade(run, d) && Placed(run, d) && Evolved(run.plan, before, d)
  }

  lemma StepEvolved(cfg: Config, before: Disk.Disk, w: Web, run: Run, o: Outcome)
    requires !run.stage.Done? && Sound(before, run, w.disk)
    ensures Evolved(run.plan, before, Step(cfg, w, run, o).0.disk)
  {
    if Ready(run.plan) {
      FreshTempApart(before, run);
      StepEnabled(cfg, w, run, o);
      StepAvailable(cfg, w, run, o);
    } else if run.plan.paths.Success? {
      StepUnready(cfg, w, run, o, run.plan.paths.value.available);
      StepUnready(cfg, w, run, o, run.plan.paths.value.enabled);
    }
  }

  /** A run whose text did not render writes neither managed path. */
  lemma StepUnready(cfg: Config, w: Web, run: Run, o: Outcome, p: string)
    requires Formed(run) && !run.stage.Done? && Shaped(run.plan) && !Ready(run.plan) && !RootAncestor(run.plan, p)
    ensures SameAt(w.disk, Step(cfg, w, run, o).0.disk, p)
  {
    PerformFootprint(cfg, w, Next(run), o, p);
    if Next(run).MakeAll? {
      StepMakesAncestors(run);
    }
  }

  lemma StepSound(cfg: Config, before: Disk.Disk, w: Web, run: Run, o: Outcome)
    requires !run.stage.Done? && Sound(before, run, w.disk)
    ensures Sound(before, Step(cfg, w, run, o).1, Step(cfg, w, run, o).0.disk)
  {
    FreshTempApart(before, run);
    StepUntouched(cfg, before, w, run, o);
    StepRootsMade(cfg, w, run, o);
    StepPlaced(cfg, w, run, o);
    StepEvolved(cfg, before, w, run, o);
  }

  lemma {:induction false} StepsSound(cfg: Config, before: Disk.Disk, w: Web, run: Run, os: seq<Outcome>)
    requires Sound(before, run, w.disk)
    ensures var (w', run') := Steps(cfg, w, run, os);
      Sound(before, run', w'.disk)
    decreases |os|
  {
    if os != [] && !run.stage.Done? {
      StepSound(cfg, before, w, run, os[0]);
      var (w', run') := Step(cfg, w, run, os[0]);
      StepsSound(cfg, before, w', run', os[1..]);
    }
  }

  // ---------------------------------------------------------------- many runs, each killed somewhere

  /** A run from its beginning, cut off after the given outcomes (or complete, if they suffice). */
  datatype Attempt = Attempt(run: FormedRun, outcomes: seq<Outcome>)

  function Try(cfg: Config, w: Web, a: Attempt): (Web, Run) {
    Steps(cfg, w, a.run, a.outcomes)
  }

  function After(cfg: Config, w: Web, attempts: seq<Attempt>): Web
    decreases |attempts|
  {
    if attempts == [] then w else After(cfg, Try(cfg, w, attempts[0]).0, attempts[1..])
  }

  /** Where every run begins. */
  predicate Starting(run: Run) {
    run.temp == "" && (run.stage.MkdirAvailable? || run.stage.Done? || (run.stage.PostLast? && !SuccessRow(run.stage.row)))
  }

  lemma BeginStarts(cfg: Config, intent: ApplyIntent, echo: string, certOk: bool)
    ensures var run := Begin(cfg, intent, echo, certOk); run.plan == PlanFor(cfg, intent, echo) && Starting(run)
  {
  }

  lemma StartSound(run: Run, d: Disk.Disk)
    requires Starting(run) && Shaped(run.plan) && Apart(run.plan)
    ensures Sound(d, run, d)
  {
  }

  lemma TrySound(cfg: Config, w: Web, a: Attempt)
    requires Starting(a.run) && Shaped(a.run.plan) && Apart(a.run.plan)
    ensures Try(cfg, w, a).1.plan == a.run.plan && Sound(w.disk, Try(cfg, w, a).1, Try(cfg, w, a).0.disk)
  {
    StartSound(a.run, w.disk);
    StepsSound(cfg, w.disk, w, a.run, a.outcomes);
  }

  lemma SoundKeepsPassage(before: Disk.Disk, run: Run, d: Disk.Disk)
    requires Sound(before, run, d) && Passage(run.plan, before)
    ensures Passage(run.plan, d)
  {
    forall p | RootAncestor(run.plan, p) && p in d ensures d[p].Dir? {
      assert !Own(run.plan, p);
    }
  }

  /** Two plans over the same roots. */
  predicate SameRoots(p: Plan, q: Plan) {
    p.availableDir == q.availableDir && p.enabledDir == q.enabledDir
  }

  /** A run for another site leaves both managed paths of this one exactly as they were. */
  lemma ForeignKeeps(before: Disk.Disk, run: Run, d: Disk.Disk, plan: Plan)
    requires FreshTemp(before, run) && Untouched(before, run.plan, run.temp, d) && Shaped(run.plan)
    requires Shaped(plan) && Apart(plan) && plan.paths.Success? && SameRoots(plan, run.plan)
    requires SiteKey(plan.site) != SiteKey(run.plan.site)
    ensures SameAt(before, d, plan.paths.value.available) && SameAt(before, d, plan.paths.value.enabled)
  {
    NameInjective(plan.site, run.plan.site);
    NotTheirs(run, plan, plan.availableDir);
    NotTheirs(run, plan, plan.enabledDir);
    if run.temp != "" {
      TempIsNotManaged(plan, run.temp);
    }
  }

  lemma NotTheirs(run: Run, plan: Plan, dir: string)
    requires Shaped(run.plan) && '/' !in FileName(plan.site) && FileName(plan.site) != FileName(run.plan.site)
    ensures !Own(run.plan, dir + "/" + FileName(plan.site))
  {
    if run.plan.paths.Success? {
      SameFile(dir, run.plan.availableDir, FileName(plan.site), FileName(run.plan.site));
      SameFile(dir, run.plan.enabledDir, FileName(plan.site), FileName(run.plan.site));
    }
  }

  /** A plan as the target of recovery. */
  predicate Target(plan: Plan) {
    Ready(plan) && Apart(plan) && Shaped(plan)
  }

  predicate SameSite(plan: Plan, a: Attempt) {
    SiteKey(plan.site) == SiteKey(a.run.plan.site)
  }

  /** The attempt is a run over the same roots, for this site or another, whatever text it renders. */
  predicate Compatible(plan: Plan, a: Attempt) {
    && Starting(a.run) && Shaped(a.run.plan) && Apart(a.run.plan) && SameRoots(plan, a.run.plan)
    && (SameSite(plan, a) ==> plan.paths == a.run.plan.paths)
  }

  /** The available file is the whole text one of these runs of the site rendered. */
  ghost predicate WholeText(plan: Plan, attempts: seq<Attempt>, d: Disk.Disk)
    requires plan.paths.Success?
  {
    exists a :: a in attempts && SameSite(plan, a) && a.run.plan.conf.Success?
      && FileAt(d, plan.paths.value.available, a.run.plan.conf.value)
  }

  /** What the attempts together did to the managed paths. */
  ghost predicate EvolvedBy(plan: Plan, attempts: seq<Attempt>, d: Disk.Disk, d': Disk.Disk)
    requires plan.paths.Success?
  {
    && (SameAt(d, d', plan.paths.value.available) || WholeText(plan, attempts, d'))
    && LinkEvolved(plan, d, d')
  }

  lemma SoundRecovers(before: Disk.Disk, run: Run, d: Disk.Disk, plan: Plan)
    requires Sound(before, run, d) && Shaped(plan) && Apart(plan) && Ready(plan) && SameRoots(plan, run.plan)
    requires SiteKey(plan.site) == SiteKey(run.plan.site) && plan.paths == run.plan.paths
    requires Recoverable(plan, before)
    ensures Recoverable(plan, d) && Evolved(run.plan, before, d)
  {
    SoundKeepsPassage(before, run, d);
  }

  lemma TryKeeps(cfg: Config, plan: Plan, w: Web, a: Attempt)
    requires Target(plan) && Recoverable(plan, w.disk) && Compatible(plan, a)
    ensures Recoverable(plan, Try(cfg, w, a).0.disk) && EvolvedBy(plan, [a], w.disk, Try(cfg, w, a).0.disk)
  {
    TrySound(cfg, w, a);
    var (w', run) := Try(cfg, w, a);
    if SameSite(plan, a) {
      SoundRecovers(w.disk, run, w'.disk, plan);
      assert a in [a];
    } else {
      SoundKeepsPassage(w.disk, run, w'.disk);
      ForeignKeeps(w.disk, run, w'.disk, plan);
    }
  }

  lemma EvolvedTwice(plan: Plan, first: Attempt, rest: seq<Attempt>, a: Disk.Disk, b: Disk.Disk, c: Disk.Disk)
    requires plan.paths.Success? && EvolvedBy(plan, [first], a, b) && EvolvedBy(plan, rest, b, c)
    ensures EvolvedBy(plan, [first] + rest, a, c)
  {
    if SameAt(b, c, plan.paths.value.available) {
      if !SameAt(a, b, plan.paths.value.available) {
        assert WholeText(plan, [first], b);
        assert first in [first] + rest;
      }
    } else {
      var t :| t in rest && SameSite(plan, t) && t.run.plan.conf.Success?
        && FileAt(c, plan.paths.value.available, t.run.plan.conf.value);
      assert t in [first] + rest;
    }
  }

  /** Any number of runs, for this and other sites and for any intents, each killed anywhere: the disk stays one
      this site can converge on, and its available file is never half-written. */
  lemma {:induction false} KilledRuns(cfg: Config, plan: Plan, w: Web, attempts: seq<Attempt>)
    requires Target(plan) && Recoverable(plan, w.disk)
    requires forall a :: a in attempts ==> Compatible(plan, a)
    ensures Recoverable(plan, After(cfg, w, attempts).disk) && EvolvedBy(plan, attempts, w.disk, After(cfg, w, attempts).disk)
    decreases |attempts|
  {
    if attempts != [] {
      var w' := Try(cfg, w, attempts[0]).0;
      TryKeeps(cfg, plan, w, attempts[0]);
      KilledRuns(cfg, plan, w', attempts[1..]);
      EvolvedTwice(plan, attempts[0], attempts[1..], w.disk, w'.disk, After(cfg, w, attempts).disk);
      assert attempts == [attempts[0]] + attempts[1..];
    }
  }

  // ---------------------------------------------------------------- a run in which nothing fails

  function Smooth(s: Stage, suffix: string): Outcome {
    if s.MakeTemp? then TempNamed(suffix) else if s.PostApplying? || s.PostLast? then Acked else Succeeds
  }

  function Remaining(s: Stage): nat {
    match s
    case MkdirAvailable => 15
    case MkdirEnabled => 14
    case PostApplying => 13
    case MkdirForFile => 12
    case MakeTemp => 11
    case WriteTemp => 10
    case SealTemp => 9
    case RenameTemp => 8
    case DropTemp(_) => 7
    case InspectLink => 6
    case RemoveLink => 5
    case MakeLink => 4
    case Test => 3
    case Reload => 2
    case PostLast(_) => 1
    case Done => 0
  }

  lemma StagesAdvance(run: Run, reply: Reply)
    requires Formed(run) && !run.stage.Done?
    ensures Remaining(Resume(run, reply).stage) < Remaining(run.stage)
  {
  }

  /** The failure-free run to its end, with the last receipt it posts. */
  function Finish(cfg: Config, w: Web, run: Run, suffix: string): (Web, Option<Row>)
    requires Formed(run)
    decreases Remaining(run.stage)
  {
    if run.stage.Done? then (w, None)
    else if run.stage.PostLast? then (w, Some(run.stage.row))
    else
      var o := Smooth(run.stage, suffix);
      StagesAdvance(run, Perform(cfg, w, Next(run), o).1);
      var (w', run') := Step(cfg, w, run, o);
      Finish(cfg, w', run', suffix)
  }
}
