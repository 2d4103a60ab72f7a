/** What a git run makes of its intent and the configuration: which intents are refused and why, where the others
    are deployed, and which commit. */
module GitIntents {
  import opened Text
  import opened Utf8
  import opened UnixPath
  import opened DeployPath
  import opened Admission
  import opened SshCommand
  import opened CommitRecord
  import opened Protocol
  import opened Agent
  import opened LedgerOrder
  import opened LiveConfig
  import opened GitRuns
  import opened GitReceipts
  import opened G = GitLeg
  import S = GitSmooth
  import N = NginxLeg

  // ---------------------------------------------------------------- which intents are served

  predicate Complete(intent: GitIntent) {
    Trim(intent.branch) != "" && Trim(intent.deployPath) != "" && Trim(intent.url) != ""
  }

  /** The site's deploy key file. */
  function KeyFile(cfg: Config, intent: GitIntent): string {
    Trim(JoinPath(cfg.keysDir, intent.site + ".key"))
  }

  predicate KeyAccepted(cfg: Config, intent: GitIntent) {
    IsAbs(KeyFile(cfg, intent)) && (Trim(cfg.knownHosts) == "" || IsAbs(Trim(cfg.knownHosts)))
  }

  /** What intent and configuration must be like. */
  ghost predicate Servable(cfg: Config, intent: GitIntent) {
    Complete(intent) && Admitted(cfg, intent.deployPath) && intent.keyConfigured && KeyAccepted(cfg, intent)
  }

  /** When each failure of the checks is the one posted: the first thing wrong. */
  ghost predicate Obstacle(cfg: Config, intent: GitIntent, gitFound: bool, keyUsable: bool, r: Reason) {
    match r
    case GitMissing => !gitFound
    case IntentIncomplete => gitFound && !Complete(intent)
    case InvalidDeployPath(e) =>
      gitFound && Complete(intent) && !Admitted(cfg, intent.deployPath) && Fault(intent.deployPath, cfg.deployRoots, e)
    case KeyNotConfigured => gitFound && Complete(intent) && Admitted(cfg, intent.deployPath) && !intent.keyConfigured
    case KeyPathEmpty =>
      && gitFound && Complete(intent) && Admitted(cfg, intent.deployPath) && intent.keyConfigured
      && KeyFile(cfg, intent) == ""
    case KeyUnusable =>
      && gitFound && Complete(intent) && Admitted(cfg, intent.deployPath) && intent.keyConfigured
      && KeyFile(cfg, intent) != "" && !keyUsable
    case SshCommandInvalid =>
      && gitFound && Complete(intent) && Admitted(cfg, intent.deployPath) && intent.keyConfigured
      && KeyFile(cfg, intent) != "" && keyUsable && !KeyAccepted(cfg, intent)
    case _ => false
  }

  lemma TrimmedPathVerdict(cfg: Config, path: string)
    ensures ValidateDeployPath(Trim(path), NormalizeRoots(cfg.deployRoots)) == ValidateDeployPath(path, NormalizeRoots(cfg.deployRoots))
    ensures ValidateDeployPath(path, NormalizeRoots(cfg.deployRoots)).None? <==> Admitted(cfg, path)
    ensures forall e :: ValidateDeployPath(path, NormalizeRoots(cfg.deployRoots)) == Some(e) ==> Fault(path, cfg.deployRoots, e)
  {
    TrimIsTrimmed(path);
    PathVerdict(cfg, path);
    forall e | ValidateDeployPath(path, NormalizeRoots(cfg.deployRoots)) == Some(e) ensures Fault(path, cfg.deployRoots, e) {
      FaultExactly(path, cfg.deployRoots, e);
    }
  }

  lemma KeyVerdict(cfg: Config, intent: GitIntent)
    ensures KeyPath(cfg, intent.site) == KeyFile(cfg, intent)
    ensures KeyFile(cfg, intent) != "" ==> (BuildCommand(KeyPath(cfg, intent.site), cfg.knownHosts).Success? <==> KeyAccepted(cfg, intent))
    ensures KeyAccepted(cfg, intent) ==> KeyFile(cfg, intent) != ""
  {
    TrimIsTrimmed(JoinPath(cfg.keysDir, intent.site + ".key"));
    CommandErrors(KeyFile(cfg, intent), cfg.knownHosts);
  }

  lemma ChecksExactly(cfg: Config, intent: GitIntent, gitFound: bool, keyUsable: bool)
    ensures var check := Precheck(cfg, intent, gitFound, keyUsable);
      && (check.None? <==> gitFound && keyUsable && Servable(cfg, intent))
      && (check.Some? ==> Obstacle(cfg, intent, gitFound, keyUsable, check.value))
  {
    TrimmedPathVerdict(cfg, intent.deployPath);
    KeyVerdict(cfg, intent);
  }

  // ---------------------------------------------------------------- where a run begins

  /** The ledger's phase as the intent shows it. */
  function PhaseText(intent: GitIntent): string {
    Trim(ToLower(intent.state))
  }

  /** The failure row of a site, with the tls_state that goes with an echo. */
  function RefusedRow(site: string, echo: string, r: Reason): Row {
    Row(site, if Trim(echo) == "" then "none" else Trim(echo), GitBody(GitFailed, Some(r), None))
  }

  lemma SkipsExactly(cfg: Config, intent: GitIntent, echo: string)
    ensures var plan := PlanFor(cfg, intent, echo);
      && (plan.skipFetching <==> PhaseText(intent) in {"fetched", "applying"})
      && (plan.skipFetched <==> PhaseText(intent) == "applying")
  {
  }

  lemma PlanParent(cfg: Config, intent: GitIntent, echo: string)
    requires Admitted(cfg, intent.deployPath)
    ensures var plan := PlanFor(cfg, intent, echo);
      && (plan.parent.None? <==> ParentAllowed(cfg, intent.deployPath))
      && (plan.parent.Some? ==> Fault(Dir(Trim(intent.deployPath)), cfg.deployRoots, plan.parent.value))
  {
    ParentPasses(cfg, intent.deployPath);
    TrimmedPathVerdict(cfg, Dir(Trim(intent.deployPath)));
  }

  lemma RefusedIs(cfg: Config, intent: GitIntent, echo: string, r: Reason)
    ensures FailedRow(PlanFor(cfg, intent, echo), r) == RefusedRow(intent.site, echo, r)
  {
  }

  /** Where the run of an intent stands when it begins. A servable one is at the fetching receipt, unless the ledger is
      past it: then at the parent check, or refused for its parent. Any other is refused for the first thing wrong
      with it, and does nothing else. */
  ghost predicate BeginsAsAsked(cfg: Config, intent: GitIntent, echo: string, gitFound: bool, keyUsable: bool, s: Stage) {
    if gitFound && keyUsable && Servable(cfg, intent) then
      if PhaseText(intent) !in {"fetched", "applying"} then s == PostFetching
      else if ParentAllowed(cfg, intent.deployPath) then s == StatParent
      else RefusedForParent(cfg, intent, echo, s)
    else exists r :: Obstacle(cfg, intent, gitFound, keyUsable, r) && s == PostLast(RefusedRow(intent.site, echo, r))
  }

  ghost predicate RefusedForParent(cfg: Config, intent: GitIntent, echo: string, s: Stage) {
    exists e :: Fault(Dir(Trim(intent.deployPath)), cfg.deployRoots, e) && s == PostLast(RefusedRow(intent.site, echo, InvalidParent(e)))
  }

  lemma BeginExactly(cfg: Config, intent: GitIntent, echo: string, gitFound: bool, keyUsable: bool)
    ensures BeginsAsAsked(cfg, intent, echo, gitFound, keyUsable, Begin(cfg, intent, echo, gitFound, keyUsable).stage)
  {
    var plan, check := PlanFor(cfg, intent, echo), Precheck(cfg, intent, gitFound, keyUsable);
    ChecksExactly(cfg, intent, gitFound, keyUsable);
    SkipsExactly(cfg, intent, echo);
    BeginStage(cfg, intent, echo, gitFound, keyUsable);
    if check.Some? {
      RefusedIs(cfg, intent, echo, check.value);
    } else {
      PlanParent(cfg, intent, echo);
      if plan.parent.Some? {
        RefusedIs(cfg, intent, echo, InvalidParent(plan.parent.value));
      }
    }
  }

  lemma BeginStage(cfg: Config, intent: GitIntent, echo: string, gitFound: bool, keyUsable: bool)
    ensures var plan, check := PlanFor(cfg, intent, echo), Precheck(cfg, intent, gitFound, keyUsable);
      Begin(cfg, intent, echo, gitFound, keyUsable).stage
      == if check.Some? then PostLast(FailedRow(plan, check.value))
         else if plan.skipFetching then AfterFetching(plan)
         else PostFetching
  {
  }

  // ---------------------------------------------------------------- the run in which no call fails

  /** Branches and names after a clone, or a fetch into what was there. */
  function LeftRefs(intent: GitIntent, places: Places, world: S.World): map<string, Hash> {
    if RepoAt(places, PlaceOf(intent)) then places[PlaceOf(intent)].repo.refs + world.refs else world.refs
  }

  /** The place holds a repository, or is free and the remote has the branch. */
  predicate PlaceReady(intent: GitIntent, places: Places, world: S.World) {
    if PlaceOf(intent) in places then places[PlaceOf(intent)].Git? else Trim(intent.branch) in world.refs
  }

  lemma LeftAnswers(plan: Plan, places: Places, world: S.World)
    requires OfIntent(plan)
    ensures S.Usable(places, plan, world) <==> PlaceReady(plan.intent, places, world)
    ensures S.Usable(places, plan, world) ==> (
      && S.Left(places, plan, world).Some?
      && Resolve(S.Left(places, plan, world).value, TargetOf(plan))
         == AskedIn(plan.intent, LeftRefs(plan.intent, places, world), world.names))
  {
    if S.Usable(places, plan, world) {
      TargetIsAsked(plan, S.Left(places, plan, world).value);
    }
  }

  /** What has to hold of intent, configuration, place and remote for the run to deploy. */
  ghost predicate Deployable(cfg: Config, intent: GitIntent, places: Places, world: S.World)
    requires world.log.Logged?
  {
    && Servable(cfg, intent) && ParentAllowed(cfg, intent.deployPath) && PlaceReady(intent, places, world)
    && AskedIn(intent, LeftRefs(intent, places, world), world.names).Some? && world.log.terminators <= 2
  }

  lemma ServableBegins(cfg: Config, intent: GitIntent, echo: string)
    requires Servable(cfg, intent)
    ensures var run := Begin(cfg, intent, echo, true, true);
      && S.Begun(run) && OfIntent(run.plan) && run.plan.intent == intent
      && (run.plan.parent.None? <==> ParentAllowed(cfg, intent.deployPath))
  {
    ChecksExactly(cfg, intent, true, true);
    S.BeginBegun(cfg, intent, echo, true, true);
    GitRuns.BeginServes(cfg, intent, echo, true, true);
    PlanParent(cfg, intent, echo);
  }

  /** The failure-free run of an intent ends in `applied` exactly when it is deployable; HEAD and tree are then at the
      commit it asks for, given what the remote offers. */
  lemma ConvergesAsAsked(cfg: Config, intent: GitIntent, echo: string, places: Places, world: S.World)
    requires LogFields(world.log)
    ensures var (after, row) := S.Finish(places, Begin(cfg, intent, echo, true, true), world);
      && (S.EndsApplied(row) <==> Deployable(cfg, intent, places, world))
      && (S.EndsApplied(row) ==> Deploys(intent, places, world, after, row.value))
  {
    var run := Begin(cfg, intent, echo, true, true);
    if Servable(cfg, intent) {
      ServableBegins(cfg, intent, echo);
      BegunConverges(cfg, run, places, world);
    } else {
      ChecksExactly(cfg, intent, true, true);
      BeginStage(cfg, intent, echo, true, true);
    }
  }

  /** HEAD and tree at the intent's place are at the commit it asks for, and the row reports it. */
  predicate Deploys(intent: GitIntent, places: Places, world: S.World, after: Places, row: Row) {
    && RepoAt(after, PlaceOf(intent)) && row.body.GitBody?
    && var r := after[PlaceOf(intent)].repo;
       && r.head == r.tree && row.body.commit == Some(r.head)
       && AskedIn(intent, LeftRefs(intent, places, world), world.names) == Some(r.head)
  }

  lemma BegunConverges(cfg: Config, run: Run, places: Places, world: S.World)
    requires S.Begun(run) && LogFields(world.log) && OfIntent(run.plan) && Servable(cfg, run.plan.intent)
    requires run.plan.parent.None? <==> ParentAllowed(cfg, run.plan.intent.deployPath)
    ensures var (after, row) := S.Finish(places, run, world);
      && (S.EndsApplied(row) <==> Deployable(cfg, run.plan.intent, places, world))
      && (S.EndsApplied(row) ==> Deploys(run.plan.intent, places, world, after, row.value))
  {
    S.ConvergesExactly(places, run, world);
    LeftAnswers(run.plan, places, world);
  }

  // ---------------------------------------------------------------- over every sequence of events

  /** The run does, or has done, something to a repository. */
  predicate PastParent(s: Stage) {
    (!s.PostLast? && !s.Done? && !s.PostFetching?) || AppliedAt(s)
  }

  /** A run at work serves a servable intent, and past the parent check one whose parent is allowed. */
  ghost predicate Granted(cfg: Config, run: Run) {
    var intent := run.plan.intent;
    && (PastParent(run.stage) || run.stage.PostFetching? ==> Servable(cfg, intent))
    && (PastParent(run.stage) ==> ParentAllowed(cfg, intent.deployPath))
    && (Servable(cfg, intent) && run.plan.parent.None? ==> ParentAllowed(cfg, intent.deployPath))
  }

  ghost predicate GitGranted(cfg: Config, a: State) {
    a.leg.OnGit? ==> Granted(cfg, a.leg.git)
  }

  lemma StaysPast(run: Run, reply: Reply)
    requires !run.stage.Done?
    ensures var next := Resume(run, reply);
      && (PastParent(next.stage) ==> PastParent(run.stage) || (run.stage.PostFetching? && run.plan.parent.None?))
      && !next.stage.PostFetching?
  {
  }

  lemma StepGranted(cfg: Config, places: Places, run: Run, o: Outcome)
    requires !run.stage.Done? && Granted(cfg, run)
    ensures Granted(cfg, Step(places, run, o).1)
  {
    StaysPast(run, Perform(places, run.plan.place, Next(run), o).1);
  }

  lemma BeginGranted(cfg: Config, intent: GitIntent, echo: string, gitFound: bool, keyUsable: bool)
    ensures Granted(cfg, Begin(cfg, intent, echo, gitFound, keyUsable))
  {
    GitRuns.BeginServes(cfg, intent, echo, gitFound, keyUsable);
    BeginPast(cfg, intent, echo, gitFound, keyUsable);
    ChecksExactly(cfg, intent, gitFound, keyUsable);
    if Servable(cfg, intent) {
      PlanParent(cfg, intent, echo);
    }
  }

  lemma BeginPast(cfg: Config, intent: GitIntent, echo: string, gitFound: bool, keyUsable: bool)
    ensures var run := Begin(cfg, intent, echo, gitFound, keyUsable);
      && run.plan == PlanFor(cfg, intent, echo)
      && (run.stage.PostFetching? || PastParent(run.stage) ==> Precheck(cfg, intent, gitFound, keyUsable).None?)
      && (PastParent(run.stage) ==> run.plan.parent.None?)
  {
  }

  lemma StartGranted(cfg: Config, a: State, e: Event)
    requires e.Start? && a.gitQueue != []
    ensures GitGranted(cfg, StartNext(cfg, a, e))
  {
    var intent := a.gitQueue[0];
    BeginGranted(cfg, intent, EchoOf(a, intent.site), e.gitFound, e.keyUsable);
  }

  lemma CallGranted(cfg: Config, a: State, o: Outcome)
    requires GitGranted(cfg, a) && !Finished(a.leg)
    ensures GitGranted(cfg, if a.leg.OnGit? then GitStep(a, a.leg.git, o) else NginxStep(cfg, a, a.leg.nginx, o))
  {
    if a.leg.OnGit? {
      CallPlaces(a, a.leg.git, o);
      StepGranted(cfg, a.places, a.leg.git, o);
    } else {
      NginxCallLeg(cfg, a, o);
    }
  }

  lemma EventGranted(cfg: Config, a: State, e: Event)
    requires GitGranted(cfg, a)
    ensures GitGranted(cfg, Happens(cfg, a, e))
  {
    if Possible(cfg, a, e) {
      match e
      case Call(o) => CallGranted(cfg, a, o);
      case Start(_, _, _) => if a.gitQueue != [] { StartGranted(cfg, a, e); }
      case _ =>
    }
  }

  /** Over every sequence of events a git run at work serves a complete intent whose deploy path, and from its first
      look at the disk on also the parent, the configured roots admit. */
  lemma {:induction false} OnlyGranted(cfg: Config, a: State, es: seq<Event>)
    requires GitGranted(cfg, a)
    ensures GitGranted(cfg, Exec(cfg, a, es))
    decreases |es|
  {
    if es != [] {
      EventGranted(cfg, a, es[0]);
      OnlyGranted(cfg, Happens(cfg, a, es[0]), es[1..]);
    }
  }

  // ---------------------------------------------------------------- containment

  predicate SamePlace(before: Places, after: Places, place: string) {
    (place in after <==> place in before) && (place in before && place in after ==> after[place] == before[place])
  }

  lemma IdleStep(places: Places, run: Run, o: Outcome)
    requires !run.stage.Done? && !PastParent(run.stage)
    ensures Step(places, run, o).0 == places
  {
  }

  lemma PlaceAdmitted(cfg: Config, intent: GitIntent)
    requires Admitted(cfg, intent.deployPath)
    ensures AdmittedBy(cfg.deployRoots, PlaceOf(intent))
  {
    CleanIdempotent(Trim(intent.deployPath));
    AdmissionGrows(cfg.deployRoots, Trim(intent.deployPath), PlaceOf(intent));
  }

  lemma RunContained(cfg: Config, places: Places, run: Run, o: Outcome, place: string)
    requires !run.stage.Done? && Granted(cfg, run) && OfIntent(run.plan) && !AdmittedBy(cfg.deployRoots, place)
    ensures SamePlace(places, Step(places, run, o).0, place)
  {
    if PastParent(run.stage) {
      PlaceAdmitted(cfg, run.plan.intent);
      GitRuns.StepElsewhere(places, run, o, place);
    } else {
      IdleStep(places, run, o);
    }
  }

  lemma EventContained(cfg: Config, a: State, e: Event, place: string)
    requires GitGranted(cfg, a) && Honest(a) && !e.Outside? && !AdmittedBy(cfg.deployRoots, place)
    ensures SamePlace(a.places, Happens(cfg, a, e).places, place)
  {
    if Possible(cfg, a, e) {
      match e
      case Call(o) => CallContained(cfg, a, o, place);
      case Start(_, _, _) => StartPlaces(cfg, a, e);
      case _ =>
    }
  }

  lemma StartPlaces(cfg: Config, a: State, e: Event)
    requires e.Start? && (a.gitQueue != [] || a.applyQueue != [])
    ensures StartNext(cfg, a, e).places == a.places
  {
  }

  lemma CallContained(cfg: Config, a: State, o: Outcome, place: string)
    requires GitGranted(cfg, a) && Honest(a) && !Finished(a.leg) && !AdmittedBy(cfg.deployRoots, place)
    ensures var b := if a.leg.OnGit? then GitStep(a, a.leg.git, o) else NginxStep(cfg, a, a.leg.nginx, o);
      SamePlace(a.places, b.places, place)
  {
    if a.leg.OnGit? {
      CallPlaces(a, a.leg.git, o);
      RunContained(cfg, a.places, a.leg.git, o, place);
    } else {
      NginxCallPlaces(cfg, a, a.leg.nginx, o);
    }
  }

  lemma NginxCallPlaces(cfg: Config, a: State, run: N.FormedRun, o: Outcome)
    requires !run.stage.Done?
    ensures NginxStep(cfg, a, run, o).places == a.places
  {
  }

  /** Nothing at a path that no configured root admits is ever cloned, fetched or reset, whatever intents are polled
      and whatever happens to their runs. */
  lemma {:induction false} PlacesContained(cfg: Config, a: State, es: seq<Event>, place: string)
    requires GitGranted(cfg, a) && Honest(a) && !AdmittedBy(cfg.deployRoots, place)
    requires forall e :: e in es ==> !e.Outside?
    ensures SamePlace(a.places, Exec(cfg, a, es).places, place)
    decreases |es|
  {
    if es != [] {
      EventContained(cfg, a, es[0], place);
      EventGranted(cfg, a, es[0]);
      EventHonest(cfg, a, es[0]);
      PlacesContained(cfg, Happens(cfg, a, es[0]), es[1..], place);
    }
  }

  // ---------------------------------------------------------------- the intent polled

  /** What is queued is the rest of the snapshot, and the git run in progress serves the intent just before it. */
  predicate GitInOrder(polled: seq<GitIntent>, a: State) {
    && |a.gitQueue| <= |polled| && a.gitQueue == polled[|polled| - |a.gitQueue|..]
    && (a.leg.OnGit? ==> |a.gitQueue| < |polled| && a.leg.git.plan.intent == polled[|polled| - |a.gitQueue| - 1])
  }

  lemma StartsServingGit(cfg: Config, a: State, e: Event)
    requires e.Start? && a.gitQueue != []
    ensures var b := StartNext(cfg, a, e);
      b.leg.OnGit? && b.leg.git.plan.intent == a.gitQueue[0] && b.gitQueue == a.gitQueue[1..]
  {
    GitRuns.BeginServes(cfg, a.gitQueue[0], EchoOf(a, a.gitQueue[0].site), e.gitFound, e.keyUsable);
  }

  lemma RestInOrder(polled: seq<GitIntent>, a: State, b: State)
    requires a.gitQueue != [] && GitInOrder(polled, a) && b.gitQueue == a.gitQueue[1..]
    requires b.leg.OnGit? && b.leg.git.plan.intent == a.gitQueue[0]
    ensures GitInOrder(polled, b)
  {
  }

  lemma StartInOrder(cfg: Config, polled: seq<GitIntent>, a: State, e: Event)
    requires e.Start? && (a.gitQueue != [] || a.applyQueue != []) && GitInOrder(polled, a)
    ensures GitInOrder(polled, StartNext(cfg, a, e))
  {
    if a.gitQueue != [] {
      StartsServingGit(cfg, a, e);
      RestInOrder(polled, a, StartNext(cfg, a, e));
    } else {
      NginxStartsApart(cfg, a, e);
    }
  }

  lemma NginxStartsApart(cfg: Config, a: State, e: Event)
    requires e.Start? && a.gitQueue == [] && a.applyQueue != []
    ensures var b := StartNext(cfg, a, e); b.leg.OnNginx? && b.gitQueue == a.gitQueue
  {
    StartsNginx(cfg, a, e);
  }

  lemma GitCallQueue(a: State, run: Run, o: Outcome)
    requires !run.stage.Done?
    ensures var b := GitStep(a, run, o); b.leg.OnGit? && b.leg.git.plan == run.plan && b.gitQueue == a.gitQueue
  {
    GitStepShape(a, run, o, Perform(a.places, run.plan.place, Next(run), o).1);
  }

  lemma NginxCallQueue(cfg: Config, a: State, run: N.FormedRun, o: Outcome)
    requires !run.stage.Done?
    ensures var b := NginxStep(cfg, a, run, o); b.leg.OnNginx? && b.gitQueue == a.gitQueue
  {
    NginxStepShape(cfg, a, run, o, N.Perform(cfg, a.web, N.Next(run), o).1);
  }

  lemma CallInOrder(cfg: Config, polled: seq<GitIntent>, a: State, o: Outcome)
    requires !Finished(a.leg) && GitInOrder(polled, a)
    ensures GitInOrder(polled, if a.leg.OnGit? then GitStep(a, a.leg.git, o) else NginxStep(cfg, a, a.leg.nginx, o))
  {
    if a.leg.OnGit? {
      GitCallQueue(a, a.leg.git, o);
    } else {
      NginxCallQueue(cfg, a, a.leg.nginx, o);
    }
  }

  lemma EventInOrder(cfg: Config, polled: seq<GitIntent>, a: State, e: Event)
    requires WithinCycle(e) && GitInOrder(polled, a)
    ensures GitInOrder(polled, Happens(cfg, a, e))
  {
    if Possible(cfg, a, e) {
      match e
      case Call(o) => CallInOrder(cfg, polled, a, o);
      case Start(_, _, _) => StartInOrder(cfg, polled, a, e);
      case _ =>
    }
  }

  lemma {:induction false} AllInOrder(cfg: Config, polled: seq<GitIntent>, a: State, es: seq<Event>)
    requires GitInOrder(polled, a) && forall e :: e in es ==> WithinCycle(e)
    ensures GitInOrder(polled, Exec(cfg, a, es))
    decreases |es|
  {
    if es != [] {
      EventInOrder(cfg, polled, a, es[0]);
      AllInOrder(cfg, polled, Happens(cfg, a, es[0]), es[1..]);
    }
  }

  /** After a ping the git runs serve the polled intents one after the other; and an applied receipt about to be sent
      is true of the very intent polled: the run has itself cloned or fetched at the cleaned deploy path, the commit
      is the one the intent asks for in what that call left, and HEAD and tree are there. */
  lemma AppliedAsPolled(cfg: Config, a: State, ping: Event, start: State, es: seq<Event>) returns (i: nat, n: nat)
    requires Honest(a) && ping.Ping? && Possible(cfg, a, ping) && start == Effect(cfg, a, ping)
    requires forall e :: e in es ==> WithinCycle(e)
    requires Exec(cfg, start, es).leg.OnGit? && AppliedAt(Exec(cfg, start, es).leg.git.stage)
    ensures i < |ping.git| && n < |es|
    ensures var b, left := Exec(cfg, start, es), StateAt(cfg, start, es, n + 1).places;
      var intent, commit := ping.git[i], b.leg.git.stage.row.body.commit;
      && b.leg.git.plan.intent == intent && UpdatedAt(cfg, start, es, n, b.leg.git.plan)
      && Deployed(intent, b.places, commit)
      && RepoAt(left, PlaceOf(intent)) && AskedFor(intent, left[PlaceOf(intent)].repo) == commit
  {
    PingStarts(cfg, a, ping);
    i, n := AppliedInOrder(cfg, ping.git, start, es);
  }

  lemma AppliedInOrder(cfg: Config, polled: seq<GitIntent>, a: State, es: seq<Event>) returns (i: nat, n: nat)
    requires Honest(a) && Free(a) && GitInOrder(polled, a) && forall e :: e in es ==> WithinCycle(e)
    requires Exec(cfg, a, es).leg.OnGit? && AppliedAt(Exec(cfg, a, es).leg.git.stage)
    ensures i < |polled| && n < |es|
    ensures var b, left := Exec(cfg, a, es), StateAt(cfg, a, es, n + 1).places;
      var intent, commit := polled[i], b.leg.git.stage.row.body.commit;
      && b.leg.git.plan.intent == intent && UpdatedAt(cfg, a, es, n, b.leg.git.plan)
      && Deployed(intent, b.places, commit)
      && RepoAt(left, PlaceOf(intent)) && AskedFor(intent, left[PlaceOf(intent)].repo) == commit
  {
    AllInOrder(cfg, polled, a, es);
    n := AppliedSinceUpdate(cfg, a, es);
    i := |polled| - |Exec(cfg, a, es).gitQueue| - 1;
  }

  lemma PingStarts(cfg: Config, a: State, ping: Event)
    requires Honest(a) && ping.Ping? && Possible(cfg, a, ping)
    ensures var start := Effect(cfg, a, ping); Honest(start) && Free(start) && GitInOrder(ping.git, start)
  {
    assert ping.git[0..] == ping.git;
  }

  // ---------------------------------------------------------------- the rows of a run

  /** A row of the site that carries a phase and nothing else. */
  function PhaseRowOf(site: string, echo: string, phase: GitPhase): Row {
    Row(site, if Trim(echo) == "" then "none" else Trim(echo), GitBody(phase, None, None))
  }

  function AppliedRowOf(site: string, echo: string, sha: seq<byte>): Row {
    Row(site, if Trim(echo) == "" then "none" else Trim(echo), GitBody(GitApplied, None, Some(sha)))
  }

  /** The phases still to be reported, by what the ledger shows. */
  function AskedPhases(intent: GitIntent, echo: string): seq<Row> {
    (if PhaseText(intent) in {"fetched", "applying"} then [] else [PhaseRowOf(intent.site, echo, GitFetching)])
    + (if PhaseText(intent) == "applying" then [] else [PhaseRowOf(intent.site, echo, GitFetched)])
    + [PhaseRowOf(intent.site, echo, GitApplying)]
  }

  /** The row that ends a run, if one does. */
  function AskedLast(intent: GitIntent, echo: string, commit: Option<Commit>, failure: Option<Reason>): seq<Row> {
    if commit.Some? then [AppliedRowOf(intent.site, echo, commit.value.sha)]
    else if failure.Some? then [RefusedRow(intent.site, echo, failure.value)]
    else []
  }

  /** What a run of an intent sends: for a servable one the phases still to be reported, in order, and the last row,
      stopping early only at a failure or after a row that was not acknowledged; for any other what is wrong. */
  ghost predicate SendsAsAsked(
      cfg: Config, intent: GitIntent, echo: string, gitFound: bool, keyUsable: bool,
      rows: seq<Row>, commit: Option<Commit>, failure: Option<Reason>, heard: bool) {
    if gitFound && keyUsable && Servable(cfg, intent)
    then exists phases: nat :: SequenceAsAsked(intent, echo, rows, commit, phases, failure, heard)
    else
      && commit.None? && failure.Some? && Obstacle(cfg, intent, gitFound, keyUsable, failure.value)
      && rows == [RefusedRow(intent.site, echo, failure.value)]
  }

  ghost predicate SequenceAsAsked(
      intent: GitIntent, echo: string, rows: seq<Row>, commit: Option<Commit>, phases: nat, failure: Option<Reason>, heard: bool) {
    && phases <= |AskedPhases(intent, echo)|
    && (commit.Some? ==> phases == |AskedPhases(intent, echo)| && failure.None?)
    && (commit.None? && failure.None? ==> phases > 0 && !heard)
    && rows == AskedPhases(intent, echo)[..phases] + AskedLast(intent, echo, commit, failure)
  }

  lemma RowsAre(cfg: Config, intent: GitIntent, echo: string)
    ensures var plan := PlanFor(cfg, intent, echo);
      && (forall phase :: PhaseRow(plan, phase) == PhaseRowOf(intent.site, echo, phase))
      && (forall c :: AppliedRow(plan, c) == AppliedRowOf(intent.site, echo, c.sha))
      && (forall r :: FailedRow(plan, r) == RefusedRow(intent.site, echo, r))
  {
  }

  /** What a run of an intent may have done: nothing for one that is refused by its checks or for its parent, and a
      commit it reports is deployed as asked. */
  ghost predicate DoneAsAsked(
      cfg: Config, intent: GitIntent, gitFound: bool, keyUsable: bool, before: Places, after: Places, commit: Option<Commit>) {
    && (!(gitFound && keyUsable && Servable(cfg, intent) && ParentAllowed(cfg, intent.deployPath)) ==>
          after == before && commit.None?)
    && (commit.Some? ==> Deployed(intent, after, Some(commit.value.sha)))
  }

  lemma DoneAsPlanned(
      cfg: Config, intent: GitIntent, echo: string, gitFound: bool, keyUsable: bool, before: Places, after: Places, commit: Option<Commit>)
    requires var plan, check := PlanFor(cfg, intent, echo), Precheck(cfg, intent, gitFound, keyUsable);
      && (check.Some? || plan.parent.Some? ==> after == before && commit.None?)
      && (commit.Some? ==> Deployed(plan.intent, after, Some(commit.value.sha)))
    ensures DoneAsAsked(cfg, intent, gitFound, keyUsable, before, after, commit)
  {
    ChecksExactly(cfg, intent, gitFound, keyUsable);
    if Servable(cfg, intent) {
      PlanParent(cfg, intent, echo);
    }
  }
}
