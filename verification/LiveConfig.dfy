/** What nginx is running: over any sequence of events, the loaded configuration is one the test accepted. */
module LiveConfig {
  import opened Text
  import opened UnixPath
  import opened SitePaths
  import opened Render
  import opened Protocol
  import opened Agent
  import opened NginxLeg
  import opened NginxRuns
  import CrashRecovery
  import G = GitLeg
  import Disk

  /** What configuration loading guarantees: roots are absent or usable. */
  predicate ConfigLoaded(cfg: Config) {
    NginxConfigured(cfg) ==> RootsLoaded(cfg)
  }

  /** The plan is the one computed for the intent it serves. */
  predicate FromIntent(cfg: Config, plan: Plan) {
    plan == PlanFor(cfg, plan.intent, plan.echo)
  }

  predicate ReloadReceipt(s: Stage) {
    s.PostLast? && s.row.body.ApplyBody? && s.row.body.apply.ReloadApplied?
  }

  /** Behind the site's enabled link nginx has read exactly the rendered text. */
  predicate Serving(plan: Plan, loaded: Disk.Snapshot)
  {
    Ready(plan) && plan.paths.value.enabled in loaded
    && loaded[plan.paths.value.enabled] == Disk.Shown(plan.conf.value)
  }

  /** What a run has made sure of at each stage. */
  ghost predicate RunLive(cfg: Config, run: Run, w: Web) {
    && FromIntent(cfg, run.plan) && Shaped(run.plan) && run.plan.enabledDir == Clean(Trim(cfg.enabledRoot))
    && FreshTemp(map[], run) && Placed(run, w.disk)
    && (run.stage.Reload? ==> cfg.accepts(Enabled(cfg, w.disk)))
    && (ReloadReceipt(run.stage) ==> w.loaded == Enabled(cfg, w.disk) && Serving(run.plan, w.loaded))
  }

  /** A linked file is what nginx sees under the link's name. */
  lemma LinkShows(d: Disk.Disk, dir: string, name: string, target: string, text: string)
    requires '/' !in name && LinkAt(d, dir + "/" + name, target) && FileAt(d, target, text)
    ensures dir + "/" + name in Disk.View(d, dir) && Disk.View(d, dir)[dir + "/" + name] == Disk.Shown(text)
  {
    var p := dir + "/" + name;
    assert dir + "/" <= p && p[|dir| + 1..] == name;
    assert Disk.DirectlyIn(p, dir);
  }

  lemma PlacedServes(cfg: Config, run: Run, d: Disk.Disk)
    requires Shaped(run.plan) && run.plan.enabledDir == Clean(Trim(cfg.enabledRoot))
    requires LinkMade(run.stage) && Placed(run, d)
    ensures Serving(run.plan, Enabled(cfg, d))
  {
    var p := run.plan;
    LinkShows(d, p.enabledDir, FileName(p.site), p.paths.value.available, p.conf.value);
  }

  lemma ResumeToReload(run: Run, reply: Reply)
    requires Formed(run) && !run.stage.Done?
    ensures Resume(run, reply).stage.Reload? ==> run.stage.Test? && reply.Good?
    ensures ReloadReceipt(Resume(run, reply).stage) ==> run.stage.Reload? && reply.Good?
  {
  }

  lemma PerformLoads(cfg: Config, w: Web, a: Action, o: Outcome)
    ensures var (w', reply) := Perform(cfg, w, a, o);
      && (!a.ReloadConfig? ==> w'.loaded == w.loaded)
      && (a.TestConfig? && reply.Good? ==> w' == w && cfg.accepts(Enabled(cfg, w.disk)))
      && (a.ReloadConfig? ==> w' == w || w' == w.(loaded := Enabled(cfg, w.disk)))
      && (a.ReloadConfig? && reply.Good? ==> w' == w.(loaded := Enabled(cfg, w.disk)))
  {
  }

  lemma NextOf(run: Run)
    requires Formed(run) && !run.stage.Done?
    ensures Next(run).ReloadConfig? <==> run.stage.Reload?
    ensures run.stage.Test? ==> Next(run).TestConfig?
  {
  }

  lemma StepLoads(cfg: Config, w: Web, run: Run, o: Outcome)
    requires Formed(run) && !run.stage.Done? && cfg.accepts(w.loaded)
    requires run.stage.Reload? ==> cfg.accepts(Enabled(cfg, w.disk))
    ensures var (w', run') := Step(cfg, w, run, o);
      && cfg.accepts(w'.loaded)
      && (run'.stage.Reload? ==> cfg.accepts(Enabled(cfg, w'.disk)))
      && (ReloadReceipt(run'.stage) ==> run.stage.Reload? && w' == w.(loaded := Enabled(cfg, w.disk)))
  {
    var after := Perform(cfg, w, Next(run), o);
    NextOf(run);
    PerformLoads(cfg, w, Next(run), o);
    ResumeToReload(run, after.1);
  }

  lemma StepLive(cfg: Config, w: Web, run: Run, o: Outcome)
    requires Formed(run) && !run.stage.Done? && cfg.accepts(w.loaded) && RunLive(cfg, run, w)
    ensures var (w', run') := Step(cfg, w, run, o);
      cfg.accepts(w'.loaded) && RunLive(cfg, run', w')
  {
    StepLoads(cfg, w, run, o);
    FreshTempApart(map[], run);
    StepPlaced(cfg, w, run, o);
    StepKeepsTemp(cfg, map[], w, run, o);
    if ReloadReceipt(Step(cfg, w, run, o).1.stage) {
      PlacedServes(cfg, run, w.disk);
    }
  }

  /** A rejected test is not rolled back: the new text stays on disk behind the enabled link, nginx keeps the
      configuration it had, and the run ends in a failure receipt. */
  lemma RejectedStaysEnabled(cfg: Config, w: Web, run: Run, o: Outcome)
    requires run.stage.Test? && RunLive(cfg, run, w) && !cfg.accepts(Enabled(cfg, w.disk))
    ensures Step(cfg, w, run, o) == (w, run.(stage := Failing(run, ValidationFailed)))
    ensures Serving(run.plan, Enabled(cfg, w.disk))
  {
    RejectedTest(cfg, w, run, o);
    PlacedServes(cfg, run, w.disk);
  }

  lemma RejectedTest(cfg: Config, w: Web, run: Run, o: Outcome)
    requires run.stage.Test? && !cfg.accepts(Enabled(cfg, w.disk))
    ensures Step(cfg, w, run, o) == (w, run.(stage := Failing(run, ValidationFailed)))
  {
    TestRefuses(cfg, w, o);
    StepIs(cfg, w, run, o, (w, Bad));
  }

  lemma TestRefuses(cfg: Config, w: Web, o: Outcome)
    requires !cfg.accepts(Enabled(cfg, w.disk))
    ensures Perform(cfg, w, TestConfig, o) == (w, Bad)
  {
  }

  lemma StepIs(cfg: Config, w: Web, run: Run, o: Outcome, after: (Web, Reply))
    requires Formed(run) && !run.stage.Done? && Perform(cfg, w, Next(run), o) == after
    ensures Step(cfg, w, run, o) == (after.0, Resume(run, after.1))
  {
  }

  // ---------------------------------------------------------------- the agent

  /** Over the whole agent: nginx runs an accepted configuration, and the run in progress is sound. */
  ghost predicate Live(cfg: Config, a: State) {
    && cfg.accepts(a.web.loaded)
    && (a.applyQueue != [] ==> NginxConfigured(cfg))
    && (a.leg.OnNginx? ==> NginxConfigured(cfg) && (a.leg.nginx.stage.Done? || RunLive(cfg, a.leg.nginx, a.web)))
  }

  lemma NginxCallWeb(cfg: Config, a: State, run: FormedRun, o: Outcome)
    requires !run.stage.Done?
    ensures var a' := NginxStep(cfg, a, run, o);
      && a'.leg.OnNginx? && a'.applyQueue == a.applyQueue
      && a'.web == Step(cfg, a.web, run, o).0 && a'.leg.nginx == Step(cfg, a.web, run, o).1
  {
    var (web, next) := Step(cfg, a.web, run, o);
    if Next(run).Post? {
      PostedKeeps(a.(web := web, leg := OnNginx(next)), Next(run).row, o);
    }
  }

  lemma PostedKeeps(a: State, row: Row, o: Outcome)
    ensures var a' := Posted(a, row, o); a'.web == a.web && a'.leg == a.leg && a'.applyQueue == a.applyQueue
  {
  }

  lemma GitCallWeb(a: State, run: G.Run, o: Outcome)
    requires !run.stage.Done?
    ensures var a' := GitStep(a, run, o); a'.leg.OnGit? && a'.web == a.web && a'.applyQueue == a.applyQueue
  {
  }

  lemma BeginLive(cfg: Config, intent: ApplyIntent, echo: string, certOk: bool, w: Web)
    requires RootsLoaded(cfg)
    ensures RunLive(cfg, Begin(cfg, intent, echo, certOk), w)
  {
    PlanIsShaped(cfg, intent, echo);
    CrashRecovery.BeginStarts(cfg, intent, echo, certOk);
    var run := Begin(cfg, intent, echo, certOk);
    assert run.plan == PlanFor(cfg, intent, echo);
    StartingLive(cfg, run, w);
  }

  lemma StartingLive(cfg: Config, run: Run, w: Web)
    requires CrashRecovery.Starting(run) && FromIntent(cfg, run.plan) && Shaped(run.plan)
    requires run.plan.enabledDir == Clean(Trim(cfg.enabledRoot))
    ensures RunLive(cfg, run, w)
  {
  }

  lemma CallLive(cfg: Config, a: State, o: Outcome)
    requires Live(cfg, a) && !Finished(a.leg)
    ensures Live(cfg, if a.leg.OnGit? then GitStep(a, a.leg.git, o) else NginxStep(cfg, a, a.leg.nginx, o))
  {
    if a.leg.OnGit? {
      GitCallWeb(a, a.leg.git, o);
    } else {
      NginxCallWeb(cfg, a, a.leg.nginx, o);
      StepLive(cfg, a.web, a.leg.nginx, o);
    }
  }

  lemma StartLive(cfg: Config, a: State, e: Event)
    requires ConfigLoaded(cfg) && Live(cfg, a) && e.Start? && (a.gitQueue != [] || a.applyQueue != [])
    ensures Live(cfg, StartNext(cfg, a, e))
  {
    if a.gitQueue == [] {
      var intent := a.applyQueue[0];
      BeginLive(cfg, intent, EchoOf(a, intent.site), e.certOk, a.web);
      StartsNginx(cfg, a, e);
    } else {
      StartsGit(cfg, a, e);
    }
  }

  lemma EventLive(cfg: Config, a: State, e: Event)
    requires ConfigLoaded(cfg) && Live(cfg, a) && Possible(cfg, a, e)
    ensures Live(cfg, Effect(cfg, a, e))
  {
    match e
    case Call(o) => CallLive(cfg, a, o);
    case Start(_, _, _) => StartLive(cfg, a, e);
    case _ =>
  }

  /** In every reachable state nginx holds a configuration the test accepted, also while the files on disk
      are rejected; and whenever a reload receipt is about to be sent, nginx has read exactly the text
      rendered for that intent behind the site's enabled link. */
  lemma {:induction false} AlwaysLive(cfg: Config, a: State, es: seq<Event>)
    requires ConfigLoaded(cfg) && Live(cfg, a)
    ensures var b := Exec(cfg, a, es);
      && Live(cfg, b)
      && cfg.accepts(b.web.loaded)
      && (b.leg.OnNginx? && ReloadReceipt(b.leg.nginx.stage) ==> (
          && FromIntent(cfg, b.leg.nginx.plan) && Serving(b.leg.nginx.plan, b.web.loaded)))
    decreases |es|
  {
    if es != [] {
      if Possible(cfg, a, es[0]) {
        EventLive(cfg, a, es[0]);
      }
      AlwaysLive(cfg, Happens(cfg, a, es[0]), es[1..]);
    }
  }

  // ---------------------------------------------------------------- the intent polled

  /** Events that do not end the cycle of a ping. */
  predicate WithinCycle(e: Event) {
    !e.Ping? && !e.Crash?
  }

  /** What is queued is the rest of the snapshot, and the run in progress serves the intent just before it. */
  predicate ServesInOrder(polled: seq<ApplyIntent>, a: State) {
    && |a.applyQueue| <= |polled| && a.applyQueue == polled[|polled| - |a.applyQueue|..]
    && (a.leg.OnNginx? ==> |a.applyQueue| < |polled| && a.leg.nginx.plan.intent == polled[|polled| - |a.applyQueue| - 1])
  }

  lemma NextOfRest(polled: seq<ApplyIntent>, queue: seq<ApplyIntent>)
    requires 0 < |queue| <= |polled| && queue == polled[|polled| - |queue|..]
    ensures queue[0] == polled[|polled| - |queue|] && queue[1..] == polled[|polled| - |queue[1..]|..]
  {
  }

  lemma BeginServes(cfg: Config, intent: ApplyIntent, echo: string, certOk: bool)
    ensures Begin(cfg, intent, echo, certOk).plan.intent == intent
  {
  }

  lemma StartServes(cfg: Config, polled: seq<ApplyIntent>, a: State, e: Event)
    requires e.Start? && Possible(cfg, a, e) && ServesInOrder(polled, a)
    ensures ServesInOrder(polled, StartNext(cfg, a, e))
  {
    if a.gitQueue == [] {
      StartsServing(cfg, a, e);
      RestServed(polled, a, StartNext(cfg, a, e));
    } else {
      StartsGit(cfg, a, e);
    }
  }

  lemma StartsNginx(cfg: Config, a: State, e: Event)
    requires e.Start? && a.gitQueue == [] && a.applyQueue != []
    ensures var intent := a.applyQueue[0];
      StartNext(cfg, a, e)
      == a.(leg := OnNginx(Begin(cfg, intent, EchoOf(a, intent.site), e.certOk)), applyQueue := a.applyQueue[1..])
  {
  }

  lemma StartsGit(cfg: Config, a: State, e: Event)
    requires e.Start? && a.gitQueue != []
    ensures var b := StartNext(cfg, a, e); b.leg.OnGit? && b.applyQueue == a.applyQueue && b.web == a.web
  {
  }

  lemma StartsServing(cfg: Config, a: State, e: Event)
    requires e.Start? && a.gitQueue == [] && a.applyQueue != []
    ensures var b := StartNext(cfg, a, e);
      b.leg.OnNginx? && b.leg.nginx.plan.intent == a.applyQueue[0] && b.applyQueue == a.applyQueue[1..]
  {
    StartsNginx(cfg, a, e);
    BeginServes(cfg, a.applyQueue[0], EchoOf(a, a.applyQueue[0].site), e.certOk);
  }

  lemma RestServed(polled: seq<ApplyIntent>, a: State, b: State)
    requires a.applyQueue != [] && ServesInOrder(polled, a) && b.applyQueue == a.applyQueue[1..]
    requires b.leg.OnNginx? && b.leg.nginx.plan.intent == a.applyQueue[0]
    ensures ServesInOrder(polled, b)
  {
    NextOfRest(polled, a.applyQueue);
  }

  lemma CallServes(cfg: Config, polled: seq<ApplyIntent>, a: State, o: Outcome)
    requires !Finished(a.leg) && ServesInOrder(polled, a)
    ensures ServesInOrder(polled, if a.leg.OnGit? then GitStep(a, a.leg.git, o) else NginxStep(cfg, a, a.leg.nginx, o))
  {
    if a.leg.OnGit? {
      GitCallWeb(a, a.leg.git, o);
    } else {
      NginxCallPlan(cfg, a, a.leg.nginx, o);
    }
  }

  lemma NginxCallPlan(cfg: Config, a: State, run: FormedRun, o: Outcome)
    requires !run.stage.Done?
    ensures var a' := NginxStep(cfg, a, run, o);
      a'.leg.OnNginx? && a'.leg.nginx.plan == run.plan && a'.applyQueue == a.applyQueue
  {
    NginxCallWeb(cfg, a, run, o);
  }

  lemma EventServes(cfg: Config, polled: seq<ApplyIntent>, a: State, e: Event)
    requires WithinCycle(e) && ServesInOrder(polled, a)
    ensures ServesInOrder(polled, Happens(cfg, a, e))
  {
    if Possible(cfg, a, e) {
      match e
      case Call(o) => CallServes(cfg, polled, a, o);
      case Start(_, _, _) => StartServes(cfg, polled, a, e);
      case _ =>
    }
  }

  lemma {:induction false} ServesAll(cfg: Config, polled: seq<ApplyIntent>, a: State, es: seq<Event>)
    requires ServesInOrder(polled, a) && forall e :: e in es ==> WithinCycle(e)
    ensures ServesInOrder(polled, Exec(cfg, a, es))
    decreases |es|
  {
    if es != [] {
      EventServes(cfg, polled, a, es[0]);
      ServesAll(cfg, polled, Happens(cfg, a, es[0]), es[1..]);
    }
  }

  /** After a ping the nginx runs serve the polled intents one after the other, and at each reload receipt what
      nginx has read behind the site's enabled link is the text rendered for the very intent polled. */
  lemma ReloadServesPolled(cfg: Config, a: State, ping: Event, es: seq<Event>)
    requires ConfigLoaded(cfg) && Live(cfg, a) && ping.Ping? && Possible(cfg, a, ping)
    requires forall e :: e in es ==> WithinCycle(e)
    ensures var b := Exec(cfg, Effect(cfg, a, ping), es);
      && ServesInOrder(if NginxConfigured(cfg) then ping.apply else [], b)
      && (b.leg.OnNginx? && ReloadReceipt(b.leg.nginx.stage) ==> (
          var plan := b.leg.nginx.plan;
          && plan.intent in ping.apply && plan.conf == RenderSiteConfig(Input(cfg, plan.intent))
          && plan.site == plan.intent.site && Serving(plan, b.web.loaded)))
  {
    var start, polled := Effect(cfg, a, ping), if NginxConfigured(cfg) then ping.apply else [];
    EventLive(cfg, a, ping);
    AlwaysLive(cfg, start, es);
    assert start.applyQueue == polled && polled[0..] == polled && start.leg == NoLeg;
    ServesAll(cfg, polled, start, es);
  }
}
