/** Every receipt moves Central's ledger forward: over all sequences of events, with crashes, lost requests
    and lost replies. */
module LedgerOrder {
  import opened Text
  import opened Protocol
  import opened Agent
  import G = GitLeg
  import N = NginxLeg

  // ---------------------------------------------------------------- the allowed edges

  function GitRank(p: GitPhase): nat {
    match p
    case GitRequested => 0
    case GitFetching => 1
    case GitFetched => 2
    case GitApplying => 3
    case GitApplied => 4
    case GitFailed => 5
  }

  /** A git receipt repeats the phase, advances it by one, or fails; nothing follows a terminal phase. */
  predicate GitAdvance(before: GitPhase, after: GitPhase) {
    !GitTerminal(before) && (after == before || after.GitFailed? || GitRank(after) == GitRank(before) + 1)
  }

  /** The edges of the apply and of the reload leg. */
  predicate ApplyAdvance(before: ApplyPhase, after: ApplyPhase) {
    match before
    case ApplyRequested => after.Applying? || after.ApplyFailed?
    case Applying => after.Applied? || after.ApplyFailed?
    case ReloadRequested => after.ReloadApplied? || after.ApplyFailed?
    case _ => false
  }

  // ---------------------------------------------------------------- what a run may expect of the ledger

  /** The phase during the repository work that precedes the fetched receipt. */
  predicate Updating(plan: G.Plan, p: GitPhase) {
    if plan.skipFetched then p.GitApplying? else if plan.skipFetching then p.GitFetched? else p.GitFetching?
  }

  predicate GitExpects(run: G.Run, p: GitPhase) {
    match run.stage
    case PostFetching => (p.GitRequested? || p.GitFetching?) && !run.plan.skipFetching && !run.plan.skipFetched
    case PostFetched => (p.GitFetching? || p.GitFetched?) && !run.plan.skipFetched
    case PostApplying => p.GitFetched? || p.GitApplying?
    case VerifyCommit => p.GitApplying?
    case ResetHard => p.GitApplying?
    case ReadHead => p.GitApplying?
    case ReadLog => p.GitApplying?
    case PostLast(row) =>
      && row.site == run.plan.site && row.body.GitBody? && !GitTerminal(p)
      && (row.body.git.GitFailed? || (row.body.git.GitApplied? && p.GitApplying?))
    case Done => true
    case _ => Updating(run.plan, p)
  }

  /** A post of a git run, seen from the ledger. */
  lemma GitPost(run: G.Run, p: GitPhase, reply: G.Reply)
    requires !run.stage.Done? && GitExpects(run, p) && G.Next(run).Post?
    ensures var row := G.Next(run).row;
      && row.site == run.plan.site && row.body.GitBody? && GitAdvance(p, row.body.git)
      && GitExpects(G.Resume(run, reply), row.body.git)
      && (!reply.Good? ==> G.Resume(run, reply).stage.Done?)
  {
  }

  lemma GitOther(run: G.Run, p: GitPhase, reply: G.Reply)
    requires !run.stage.Done? && GitExpects(run, p) && !G.Next(run).Post?
    ensures GitExpects(G.Resume(run, reply), p)
  {
  }

  /** The phase from which a run of the plan starts. */
  predicate Entering(plan: N.Plan, p: ApplyPhase) {
    if plan.reload then p.ReloadRequested? else if plan.resumed then p.Applying? else p.ApplyRequested?
  }

  /** The last receipt of a run against the phase it meets. */
  predicate Ends(last: ApplyPhase, p: ApplyPhase) {
    (last.ApplyFailed? && ApplyHint(p)) || (last.Applied? && p.Applying?) || (last.ReloadApplied? && p.ReloadRequested?)
  }

  predicate ApplyExpects(run: N.Run, p: ApplyPhase) {
    match run.stage
    case MkdirAvailable => Entering(run.plan, p)
    case MkdirEnabled => Entering(run.plan, p)
    case PostApplying => p.ApplyRequested? && !run.plan.reload && !run.plan.resumed
    case Reload => p.ReloadRequested?
    case PostLast(row) => row.site == run.plan.site && row.body.ApplyBody? && Ends(row.body.apply, p)
    case Done => true
    case _ => if run.plan.reload then p.ReloadRequested? else p.Applying?
  }

  lemma ApplyPost(run: N.FormedRun, p: ApplyPhase, reply: N.Reply)
    requires !run.stage.Done? && ApplyExpects(run, p) && N.Next(run).Post?
    ensures var row := N.Next(run).row;
      && row.site == run.plan.site && row.body.ApplyBody? && ApplyAdvance(p, row.body.apply)
      && ApplyExpects(N.Resume(run, reply), row.body.apply)
      && (!reply.Good? ==> N.Resume(run, reply).stage.Done?)
  {
  }

  lemma ApplyOther(run: N.FormedRun, p: ApplyPhase, reply: N.Reply)
    requires !run.stage.Done? && ApplyExpects(run, p) && !N.Next(run).Post?
    ensures ApplyExpects(N.Resume(run, reply), p)
  {
  }

  lemma GitNamesDiffer(p: GitPhase, q: GitPhase)
    ensures GitName(p) == GitName(q) <==> p == q
  {
    assert |GitName(GitFetching)| == 8 && GitName(GitFetching)[0] == 'f' && GitName(GitApplying)[0] == 'a';
    assert GitName(GitFetched)[0] == 'f' && GitName(GitApplied)[0] == 'a' && GitName(GitFailed)[0] == 'f';
    assert GitName(GitRequested)[0] == 'r';
  }

  lemma ApplyNamesDiffer(p: ApplyPhase, q: ApplyPhase)
    ensures ApplyName(p) == ApplyName(q) <==> p == q
  {
    assert |ApplyName(ReloadRequested)| == 16 && |ApplyName(ReloadApplied)| == 14;
  }

  lemma GitBeginExpects(cfg: Config, intent: GitIntent, echo: string, gitFound: bool, keyUsable: bool, p: GitPhase)
    requires !GitTerminal(p) && Normal(intent.state) == GitName(p)
    ensures GitExpects(G.Begin(cfg, intent, echo, gitFound, keyUsable), p)
  {
    GitNamesDiffer(p, GitFetched);
    GitNamesDiffer(p, GitApplying);
  }

  lemma ApplyBeginExpects(cfg: Config, intent: ApplyIntent, echo: string, certOk: bool, p: ApplyPhase)
    requires ApplyHint(p) && Normal(intent.state) == ApplyName(p)
    ensures ApplyExpects(N.Begin(cfg, intent, echo, certOk), p)
  {
    ApplyNamesDiffer(p, ReloadRequested);
    ApplyNamesDiffer(p, Applying);
  }

  // ---------------------------------------------------------------- the invariant

  predicate GitLog(log: seq<GitPhase>) {
    && log != [] && log[0].GitRequested?
    && forall i :: 0 <= i < |log| - 1 ==> GitAdvance(log[i], log[i + 1])
  }

  predicate ApplyLog(log: seq<ApplyPhase>) {
    && log != [] && (log[0].ApplyRequested? || log[0].ReloadRequested?)
    && forall i :: 0 <= i < |log| - 1 ==> ApplyAdvance(log[i], log[i + 1])
  }

  predicate Ordered(l: Ledger) {
    && (forall site :: site in l.git ==> GitLog(l.git[site]))
    && (forall site :: site in l.apply ==> ApplyLog(l.apply[site]))
  }

  /** The run in progress, if any, stands where the ledger says, and its site is not queued again. */
  predicate LegInStep(a: State) {
    match a.leg
    case NoLeg => true
    case OnGit(run) => run.stage.Done? || GitInStep(a, run)
    case OnNginx(run) => run.stage.Done? || ApplyInStep(a, run)
  }

  predicate GitInStep(a: State, run: G.Run) {
    && GitNow(a.ledger, run.plan.site).Some? && GitExpects(run, GitNow(a.ledger, run.plan.site).value)
    && forall i :: 0 <= i < |a.gitQueue| ==> a.gitQueue[i].site != run.plan.site
  }

  predicate ApplyInStep(a: State, run: N.Run) {
    && ApplyNow(a.ledger, run.plan.site).Some? && ApplyExpects(run, ApplyNow(a.ledger, run.plan.site).value)
    && forall i :: 0 <= i < |a.applyQueue| ==> a.applyQueue[i].site != run.plan.site
  }

  predicate InStep(a: State) {
    && Ordered(a.ledger) && GitSnapshot(a.ledger, a.gitQueue) && ApplySnapshot(a.ledger, a.applyQueue)
    && LegInStep(a)
  }

  lemma GitExpectsOpen(run: G.Run, p: GitPhase)
    requires !run.stage.Done? && GitExpects(run, p)
    ensures !GitTerminal(p)
  {
  }

  lemma ApplyExpectsOpen(run: N.Run, p: ApplyPhase)
    requires !run.stage.Done? && ApplyExpects(run, p)
    ensures ApplyHint(p)
  {
  }

  lemma GitLogGrows(log: seq<GitPhase>, p: GitPhase)
    requires GitLog(log) && GitAdvance(log[|log| - 1], p)
    ensures GitLog(log + [p]) && (log + [p])[|log|] == p
  {
  }

  lemma ApplyLogGrows(log: seq<ApplyPhase>, p: ApplyPhase)
    requires ApplyLog(log) && ApplyAdvance(log[|log| - 1], p)
    ensures ApplyLog(log + [p]) && (log + [p])[|log|] == p
  {
  }

  lemma RecordGit(l: Ledger, row: Row, p: GitPhase)
    requires Ordered(l) && row.body.GitBody? && GitNow(l, row.site) == Some(p) && GitAdvance(p, row.body.git)
    ensures var l' := Record(l, row);
      && Ordered(l') && GitNow(l', row.site) == Some(row.body.git) && l'.apply == l.apply
      && forall site :: site != row.site ==> GitNow(l', site) == GitNow(l, site)
  {
    GitLogGrows(l.git[row.site], row.body.git);
  }

  lemma RecordApply(l: Ledger, row: Row, p: ApplyPhase)
    requires Ordered(l) && row.body.ApplyBody? && ApplyNow(l, row.site) == Some(p) && ApplyAdvance(p, row.body.apply)
    ensures var l' := Record(l, row);
      && Ordered(l') && ApplyNow(l', row.site) == Some(row.body.apply) && l'.git == l.git
      && forall site :: site != row.site ==> ApplyNow(l', site) == ApplyNow(l, site)
  {
    ApplyLogGrows(l.apply[row.site], row.body.apply);
  }

  /** Queued intents of other sites still show the ledger's phase after a receipt. */
  lemma GitQueueKept(l: Ledger, row: Row, p: GitPhase, queue: seq<GitIntent>, applies: seq<ApplyIntent>)
    requires Ordered(l) && row.body.GitBody? && GitNow(l, row.site) == Some(p) && GitAdvance(p, row.body.git)
    requires GitSnapshot(l, queue) && ApplySnapshot(l, applies)
    requires forall i :: 0 <= i < |queue| ==> queue[i].site != row.site
    ensures GitSnapshot(Record(l, row), queue) && ApplySnapshot(Record(l, row), applies) && Ordered(Record(l, row))
    ensures GitNow(Record(l, row), row.site) == Some(row.body.git)
  {
    RecordGit(l, row, p);
    forall i | 0 <= i < |queue| ensures GitShows(Record(l, row), queue[i]) {
      assert GitShows(l, queue[i]);
    }
    forall i | 0 <= i < |applies| ensures ApplyShows(Record(l, row), applies[i]) {
      assert ApplyShows(l, applies[i]);
    }
  }

  lemma ApplyQueueKept(l: Ledger, row: Row, p: ApplyPhase, queue: seq<GitIntent>, applies: seq<ApplyIntent>)
    requires Ordered(l) && row.body.ApplyBody? && ApplyNow(l, row.site) == Some(p) && ApplyAdvance(p, row.body.apply)
    requires GitSnapshot(l, queue) && ApplySnapshot(l, applies)
    requires forall i :: 0 <= i < |applies| ==> applies[i].site != row.site
    ensures GitSnapshot(Record(l, row), queue) && ApplySnapshot(Record(l, row), applies) && Ordered(Record(l, row))
    ensures ApplyNow(Record(l, row), row.site) == Some(row.body.apply)
  {
    RecordApply(l, row, p);
    forall i | 0 <= i < |queue| ensures GitShows(Record(l, row), queue[i]) {
      assert GitShows(l, queue[i]);
    }
    forall i | 0 <= i < |applies| ensures ApplyShows(Record(l, row), applies[i]) {
      assert ApplyShows(l, applies[i]);
    }
  }

  /** A git step as the ledger sees it. */
  lemma GitStepShape(a: State, run: G.Run, o: Outcome, reply: G.Reply)
    requires !run.stage.Done? && reply == G.Perform(a.places, run.plan.place, G.Next(run), o).1
    ensures var a' := GitStep(a, run, o);
      && a'.leg == OnGit(G.Resume(run, reply)) && a'.gitQueue == a.gitQueue && a'.applyQueue == a.applyQueue
      && a'.ledger == (if G.Next(run).Post? && Received(o) then Record(a.ledger, G.Next(run).row) else a.ledger)
      && (G.Next(run).Post? ==> (reply.Good? <==> o.Acked?))
  {
  }

  lemma NginxStepShape(cfg: Config, a: State, run: N.FormedRun, o: Outcome, reply: N.Reply)
    requires !run.stage.Done? && reply == N.Perform(cfg, a.web, N.Next(run), o).1
    ensures var a' := NginxStep(cfg, a, run, o);
      && a'.leg == OnNginx(N.Resume(run, reply)) && a'.gitQueue == a.gitQueue && a'.applyQueue == a.applyQueue
      && a'.ledger == (if N.Next(run).Post? && Received(o) then Record(a.ledger, N.Next(run).row) else a.ledger)
      && (N.Next(run).Post? ==> (reply.Good? <==> o.Acked?))
  {
  }

  lemma GitStepInStep(a: State, o: Outcome)
    requires InStep(a) && a.leg.OnGit? && !a.leg.git.stage.Done?
    ensures InStep(GitStep(a, a.leg.git, o))
  {
    var run := a.leg.git;
    var p := GitNow(a.ledger, run.plan.site).value;
    var reply := G.Perform(a.places, run.plan.place, G.Next(run), o).1;
    GitStepShape(a, run, o, reply);
    GitResumed(a, run, p, reply, GitStep(a, run, o), Received(o));
  }

  lemma GitResumed(a: State, run: G.Run, p: GitPhase, reply: G.Reply, a': State, received: bool)
    requires InStep(a) && a.leg == OnGit(run) && !run.stage.Done? && GitNow(a.ledger, run.plan.site) == Some(p)
    requires a'.leg == OnGit(G.Resume(run, reply)) && a'.gitQueue == a.gitQueue && a'.applyQueue == a.applyQueue
    requires a'.ledger == if G.Next(run).Post? && received then Record(a.ledger, G.Next(run).row) else a.ledger
    requires G.Next(run).Post? && reply.Good? ==> received
    ensures InStep(a')
  {
    if G.Next(run).Post? {
      GitPost(run, p, reply);
      GitQueueKept(a.ledger, G.Next(run).row, p, a.gitQueue, a.applyQueue);
    } else {
      GitOther(run, p, reply);
    }
  }

  lemma NginxStepInStep(cfg: Config, a: State, o: Outcome)
    requires InStep(a) && a.leg.OnNginx? && !a.leg.nginx.stage.Done?
    ensures InStep(NginxStep(cfg, a, a.leg.nginx, o))
  {
    var run := a.leg.nginx;
    var p := ApplyNow(a.ledger, run.plan.site).value;
    var reply := N.Perform(cfg, a.web, N.Next(run), o).1;
    NginxStepShape(cfg, a, run, o, reply);
    ApplyResumed(a, run, p, reply, NginxStep(cfg, a, run, o), Received(o));
  }

  lemma ApplyResumed(a: State, run: N.FormedRun, p: ApplyPhase, reply: N.Reply, a': State, received: bool)
    requires InStep(a) && a.leg == OnNginx(run) && !run.stage.Done? && ApplyNow(a.ledger, run.plan.site) == Some(p)
    requires a'.leg == OnNginx(N.Resume(run, reply)) && a'.gitQueue == a.gitQueue && a'.applyQueue == a.applyQueue
    requires a'.ledger == if N.Next(run).Post? && received then Record(a.ledger, N.Next(run).row) else a.ledger
    requires N.Next(run).Post? && reply.Good? ==> received
    ensures InStep(a')
  {
    if N.Next(run).Post? {
      ApplyPost(run, p, reply);
      ApplyQueueKept(a.ledger, N.Next(run).row, p, a.gitQueue, a.applyQueue);
    } else {
      ApplyOther(run, p, reply);
    }
  }

  // ---------------------------------------------------------------- the other events

  lemma StartGitInStep(cfg: Config, a: State, e: Event)
    requires InStep(a) && Free(a) && e.Start? && a.gitQueue != []
    ensures InStep(StartNext(cfg, a, e))
  {
    var intent := a.gitQueue[0];
    assert GitShows(a.ledger, intent);
    GitBeginExpects(cfg, intent, EchoOf(a, intent.site), e.gitFound, e.keyUsable, GitNow(a.ledger, intent.site).value);
    GitTail(a.ledger, a.gitQueue);
    GitBeginSite(cfg, intent, EchoOf(a, intent.site), e.gitFound, e.keyUsable);
  }

  lemma GitBeginSite(cfg: Config, intent: GitIntent, echo: string, gitFound: bool, keyUsable: bool)
    ensures G.Begin(cfg, intent, echo, gitFound, keyUsable).plan.site == intent.site
  {
  }

  lemma GitTail(l: Ledger, queue: seq<GitIntent>)
    requires GitSnapshot(l, queue) && queue != []
    ensures GitSnapshot(l, queue[1..]) && forall i :: 0 <= i < |queue[1..]| ==> queue[1..][i].site != queue[0].site
  {
  }

  lemma StartApplyInStep(cfg: Config, a: State, e: Event)
    requires InStep(a) && Free(a) && e.Start? && a.gitQueue == [] && a.applyQueue != []
    ensures InStep(StartNext(cfg, a, e))
  {
    var intent := a.applyQueue[0];
    assert ApplyShows(a.ledger, intent);
    ApplyBeginExpects(cfg, intent, EchoOf(a, intent.site), e.certOk, ApplyNow(a.ledger, intent.site).value);
    ApplyTail(a.ledger, a.applyQueue);
    ApplyBeginSite(cfg, intent, EchoOf(a, intent.site), e.certOk);
  }

  lemma ApplyBeginSite(cfg: Config, intent: ApplyIntent, echo: string, certOk: bool)
    ensures N.Begin(cfg, intent, echo, certOk).plan.site == intent.site
  {
  }

  lemma ApplyTail(l: Ledger, queue: seq<ApplyIntent>)
    requires ApplySnapshot(l, queue) && queue != []
    ensures ApplySnapshot(l, queue[1..]) && forall i :: 0 <= i < |queue[1..]| ==> queue[1..][i].site != queue[0].site
  {
  }

  /** A request for a site that is free does not disturb what is queued or in progress. */
  lemma RequestGitInStep(a: State, site: string, l: Ledger)
    requires InStep(a) && (GitNow(a.ledger, site).Some? ==> GitTerminal(GitNow(a.ledger, site).value))
    requires l == a.ledger.(git := a.ledger.git[site := [GitRequested]])
    ensures InStep(a.(ledger := l))
  {
    GitRequestKept(a.ledger, site, l, a.gitQueue, a.applyQueue);
    if a.leg.OnGit? && !a.leg.git.stage.Done? {
      GitExpectsOpen(a.leg.git, GitNow(a.ledger, a.leg.git.plan.site).value);
    }
  }

  lemma GitRequestKept(l: Ledger, site: string, l': Ledger, queue: seq<GitIntent>, applies: seq<ApplyIntent>)
    requires Ordered(l) && GitSnapshot(l, queue) && ApplySnapshot(l, applies)
    requires l' == l.(git := l.git[site := [GitRequested]]) && (GitNow(l, site).Some? ==> GitTerminal(GitNow(l, site).value))
    ensures Ordered(l') && GitSnapshot(l', queue) && ApplySnapshot(l', applies)
  {
    forall i | 0 <= i < |queue| ensures GitShows(l', queue[i]) {
      assert GitShows(l, queue[i]);
    }
    forall i | 0 <= i < |applies| ensures ApplyShows(l', applies[i]) {
      assert ApplyShows(l, applies[i]);
    }
  }

  lemma RequestApplyInStep(a: State, site: string, l: Ledger, first: ApplyPhase)
    requires InStep(a) && (ApplyNow(a.ledger, site).Some? ==> ApplyTerminal(ApplyNow(a.ledger, site).value))
    requires l == a.ledger.(apply := a.ledger.apply[site := [first]]) && (first.ApplyRequested? || first.ReloadRequested?)
    ensures InStep(a.(ledger := l))
  {
    ApplyRequestKept(a.ledger, site, l, first, a.gitQueue, a.applyQueue);
    if a.leg.OnNginx? && !a.leg.nginx.stage.Done? {
      ApplyExpectsOpen(a.leg.nginx, ApplyNow(a.ledger, a.leg.nginx.plan.site).value);
    }
  }

  lemma ApplyRequestKept(l: Ledger, site: string, l': Ledger, first: ApplyPhase, queue: seq<GitIntent>, applies: seq<ApplyIntent>)
    requires Ordered(l) && GitSnapshot(l, queue) && ApplySnapshot(l, applies)
    requires l' == l.(apply := l.apply[site := [first]]) && (first.ApplyRequested? || first.ReloadRequested?)
    requires ApplyNow(l, site).Some? ==> ApplyTerminal(ApplyNow(l, site).value)
    ensures Ordered(l') && GitSnapshot(l', queue) && ApplySnapshot(l', applies)
  {
    forall i | 0 <= i < |queue| ensures GitShows(l', queue[i]) {
      assert GitShows(l, queue[i]);
    }
    forall i | 0 <= i < |applies| ensures ApplyShows(l', applies[i]) {
      assert ApplyShows(l, applies[i]);
    }
  }

  lemma EventInStep(cfg: Config, a: State, e: Event)
    requires InStep(a) && Possible(cfg, a, e)
    ensures InStep(Effect(cfg, a, e))
  {
    match e
    case Start(_, _, _) =>
      if a.gitQueue != [] { StartGitInStep(cfg, a, e); } else { StartApplyInStep(cfg, a, e); }
    case Call(o) =>
      if a.leg.OnGit? { GitStepInStep(a, o); } else { NginxStepInStep(cfg, a, o); }
    case RequestGit(site) => RequestGitInStep(a, site, Effect(cfg, a, e).ledger);
    case RequestApply(site, reload) =>
      RequestApplyInStep(a, site, Effect(cfg, a, e).ledger, if reload then ReloadRequested else ApplyRequested);
    case Ping(_, _, _, _) => PingInStep(cfg, a, e);
    case _ =>
  }

  lemma PingInStep(cfg: Config, a: State, e: Event)
    requires InStep(a) && e.Ping? && Possible(cfg, a, e)
    ensures InStep(Effect(cfg, a, e))
  {
  }

  /** Whatever happens, every git receipt repeats the ledger's phase, advances it by one or fails it, every
      nginx receipt follows an edge of its leg, and nothing follows a terminal receipt. */
  lemma {:induction false} LedgerOnlyAdvances(cfg: Config, a: State, es: seq<Event>)
    requires InStep(a)
    ensures InStep(Exec(cfg, a, es)) && Ordered(Exec(cfg, a, es).ledger)
    decreases |es|
  {
    if es != [] {
      if Possible(cfg, a, es[0]) {
        EventInStep(cfg, a, es[0]);
      }
      LedgerOnlyAdvances(cfg, Happens(cfg, a, es[0]), es[1..]);
    }
  }

  /** One event against one site's git record: unchanged, one more advancing receipt, or an operator's new
      request after a terminal receipt (or the first one). */
  predicate GitTransition(l: Ledger, l': Ledger, site: string, e: Event) {
    || ((site in l.git <==> site in l'.git) && (site in l.git ==> l'.git[site] == l.git[site]))
    || (e.Call? && GitNow(l, site).Some? && site in l'.git
        && exists p :: GitAdvance(GitNow(l, site).value, p) && l'.git[site] == l.git[site] + [p])
    || (e == RequestGit(site) && site in l'.git && l'.git[site] == [GitRequested]
        && (GitNow(l, site).Some? ==> GitTerminal(GitNow(l, site).value)))
  }

  predicate ApplyTransition(l: Ledger, l': Ledger, site: string, e: Event) {
    || ((site in l.apply <==> site in l'.apply) && (site in l.apply ==> l'.apply[site] == l.apply[site]))
    || (e.Call? && ApplyNow(l, site).Some? && site in l'.apply
        && exists p :: ApplyAdvance(ApplyNow(l, site).value, p) && l'.apply[site] == l.apply[site] + [p])
    || (e.RequestApply? && e.site == site && site in l'.apply
        && l'.apply[site] == [if e.reload then ReloadRequested else ApplyRequested]
        && (ApplyNow(l, site).Some? ==> ApplyTerminal(ApplyNow(l, site).value)))
  }

  lemma StepTransition(cfg: Config, a: State, e: Event, site: string)
    requires InStep(a) && e.Call? && Possible(cfg, a, e)
    ensures GitTransition(a.ledger, Effect(cfg, a, e).ledger, site, e)
    ensures ApplyTransition(a.ledger, Effect(cfg, a, e).ledger, site, e)
  {
    var o := e.outcome;
    if a.leg.OnGit? {
      var run := a.leg.git;
      var reply := G.Perform(a.places, run.plan.place, G.Next(run), o).1;
      GitStepShape(a, run, o, reply);
      if G.Next(run).Post? {
        GitPost(run, GitNow(a.ledger, run.plan.site).value, reply);
      }
    } else {
      var run := a.leg.nginx;
      var reply := N.Perform(cfg, a.web, N.Next(run), o).1;
      NginxStepShape(cfg, a, run, o, reply);
      if N.Next(run).Post? {
        ApplyPost(run, ApplyNow(a.ledger, run.plan.site).value, reply);
      }
    }
  }

  /** Each single event moves each site's record only along the allowed edges. */
  lemma EventTransition(cfg: Config, a: State, e: Event, site: string)
    requires InStep(a)
    ensures GitTransition(a.ledger, Happens(cfg, a, e).ledger, site, e)
    ensures ApplyTransition(a.ledger, Happens(cfg, a, e).ledger, site, e)
  {
    if e.Call? && Possible(cfg, a, e) {
      StepTransition(cfg, a, e, site);
    }
  }

  // ---------------------------------------------------------------- what the order means

  function ApplyRank(p: ApplyPhase): nat {
    match p
    case ApplyRequested => 0
    case ReloadRequested => 0
    case Applying => 1
    case Applied => 2
    case ReloadApplied => 2
    case ApplyFailed => 3
  }

  lemma {:induction false} ApplyRanksRise(log: seq<ApplyPhase>, i: nat, j: nat)
    requires ApplyLog(log) && i < j < |log|
    ensures ApplyRank(log[i]) < ApplyRank(log[j])
    decreases j
  {
    assert ApplyAdvance(log[j - 1], log[j]);
    if i < j - 1 {
      ApplyRanksRise(log, i, j - 1);
    }
  }

  /** Between two operator requests each stage is accepted at most once, and a terminal one is the last. */
  lemma AtMostOnce(log: seq<ApplyPhase>, i: nat, j: nat)
    requires ApplyLog(log) && i < j < |log|
    ensures log[i] != log[j] && !ApplyTerminal(log[i])
  {
    ApplyRanksRise(log, i, j);
    assert ApplyAdvance(log[i], log[i + 1]);
  }

  lemma ThirdIsTerminal(log: seq<ApplyPhase>)
    requires ApplyLog(log) && |log| > 2
    ensures ApplyTerminal(log[2])
  {
    assert ApplyAdvance(log[0], log[1]) && ApplyAdvance(log[1], log[2]);
  }

  /** A request is answered by at most two receipts. */
  lemma AtMostTwoReceipts(log: seq<ApplyPhase>)
    requires ApplyLog(log)
    ensures |log| <= 3
  {
    if |log| > 3 {
      ThirdIsTerminal(log);
      AtMostOnce(log, 2, 3);
    }
  }

  lemma {:induction false} GitRanksRise(log: seq<GitPhase>, i: nat, j: nat)
    requires GitLog(log) && i <= j < |log|
    ensures GitRank(log[i]) <= GitRank(log[j]) && (i < j ==> !GitTerminal(log[i]))
    decreases j
  {
    if i < j {
      assert GitAdvance(log[j - 1], log[j]);
      GitRanksRise(log, i, j - 1);
    }
  }
}
