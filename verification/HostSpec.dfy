/** What the agent's program is proved against: reachable states, the ledger as a replay of the rows sent, and
    which rows each run sends. */
module AgentSpec {
  import opened Text
  import opened UnixPath
  import opened Protocol
  import opened Agent
  import opened LedgerOrder
  import opened NginxRuns
  import opened CrashRecovery
  import opened LiveConfig
  import opened TlsEcho
  import opened GitReceipts
  import opened CommitRecord
  import opened GitIntents
  import I = NginxIntents
  import GitRuns
  import Disk
  import G = GitLeg
  import N = NginxLeg

  /** Some sequence of events leads from a sane start to the state. */
  ghost predicate Reached(cfg: Config, start: State, a: State) {
    Sane(cfg, start) && exists es :: Exec(cfg, start, es) == a
  }

  lemma ReachedNext(cfg: Config, start: State, a: State, e: Event)
    requires Reached(cfg, start, a)
    ensures Reached(cfg, start, Happens(cfg, a, e))
  {
    var es :| Exec(cfg, start, es) == a;
    ExecOneMore(cfg, start, es, e);
  }

  /** What holds of every reached state. */
  lemma ReachedHolds(cfg: Config, start: State, a: State)
    requires Reached(cfg, start, a)
    ensures Live(cfg, a) && InStep(a) && Honest(a) && LegRows(a.leg)
  {
    var es :| Exec(cfg, start, es) == a;
    AlwaysLive(cfg, start, es);
    LedgerOnlyAdvances(cfg, start, es);
    AppliedReceiptsAreTrue(cfg, start, es);
    NeverBlank(cfg, start, es);
  }

  // ---------------------------------------------------------------- calls

  /** One call of the run in progress. */
  function CallTo(cfg: Config, a: State, o: Outcome): State {
    if a.unsaved || Finished(a.leg) then a
    else if a.leg.OnGit? then GitStep(a, a.leg.git, o)
    else NginxStep(cfg, a, a.leg.nginx, o)
  }

  /** The save that follows an acknowledged receipt. */
  function SaveTo(a: State, ok: bool): State {
    if a.unsaved then a.(file := if ok then a.echo else a.file, unsaved := false) else a
  }

  lemma CallsAreEvents(cfg: Config, a: State, o: Outcome, ok: bool)
    ensures CallTo(cfg, a, o) == Happens(cfg, a, Call(o)) && SaveTo(a, ok) == Happens(cfg, a, Save(ok))
  {
  }

  lemma NginxCallIs(cfg: Config, a: State, run: N.FormedRun, o: Outcome, after: (N.Web, N.Reply))
    requires a.leg == OnNginx(run) && !a.unsaved && !run.stage.Done? && !N.Next(run).Post?
    requires after == N.Perform(cfg, a.web, N.Next(run), o)
    ensures CallTo(cfg, a, o) == a.(web := after.0, leg := OnNginx(N.Resume(run, after.1)))
  {
    assert N.Step(cfg, a.web, run, o) == (after.0, N.Resume(run, after.1));
  }

  lemma GitCallIs(cfg: Config, a: State, run: G.Run, o: Outcome, after: (G.Places, G.Reply))
    requires a.leg == OnGit(run) && !a.unsaved && !run.stage.Done? && !G.Next(run).Post?
    requires after == G.Perform(a.places, run.plan.place, G.Next(run), o)
    ensures CallTo(cfg, a, o) == a.(places := after.0, leg := OnGit(G.Resume(run, after.1)))
  {
    assert G.Step(a.places, run, o) == (after.0, G.Resume(run, after.1));
  }

  /** The queue's next intent becomes the run in progress. */
  function StartTo(cfg: Config, a: State, e: Event): State {
    if e.Start? && Free(a) && (a.gitQueue != [] || a.applyQueue != []) then StartNext(cfg, a, e) else a
  }

  ghost predicate StartsClosed(cfg: Config, reachable: iset<State>) {
    forall a, e {:trigger StartTo(cfg, a, e)} :: a in reachable ==> StartTo(cfg, a, e) in reachable
  }

  /** The snapshot of a ping, and the echo map it is served with. */
  function PingTo(cfg: Config, a: State, e: Event): State {
    if e.Ping? && Possible(cfg, a, e)
    then a.(leg := NoLeg, echo := e.loaded, gitQueue := e.git, applyQueue := if NginxConfigured(cfg) then e.apply else [])
    else a
  }

  ghost predicate PingsClosed(cfg: Config, reachable: iset<State>) {
    forall a, e {:trigger PingTo(cfg, a, e)} :: a in reachable ==> PingTo(cfg, a, e) in reachable
  }

  /** What the run in progress has made sure of. */
  predicate NginxFacts(run: N.Run, w: N.Web) {
    && Shaped(run.plan) && TempApart(run) && Placed(run, w.disk)
    && (run.plan.paths.Success? ==> Dir(run.plan.paths.value.available) == run.plan.fileDir)
    && (ReloadReceipt(run.stage) ==> Serving(run.plan, w.loaded))
  }

  ghost predicate Facts(cfg: Config, a: State) {
    && cfg.accepts(a.web.loaded) && Honest(a)
    && (a.leg.OnNginx? && !a.leg.nginx.stage.Done? ==> NginxFacts(a.leg.nginx, a.web))
  }

  /** Calls and saves stay within the set, and its states have these facts. */
  ghost predicate CallsClosed(cfg: Config, reachable: iset<State>) {
    && (forall a, o {:trigger CallTo(cfg, a, o)} :: a in reachable ==> CallTo(cfg, a, o) in reachable)
    && (forall a, ok {:trigger SaveTo(a, ok)} :: a in reachable ==> SaveTo(a, ok) in reachable)
    && (forall a {:trigger Facts(cfg, a)} :: a in reachable ==> Facts(cfg, a))
  }

  lemma ReachedFacts(cfg: Config, start: State, a: State)
    requires Reached(cfg, start, a)
    ensures Facts(cfg, a)
  {
    ReachedHolds(cfg, start, a);
    if a.leg.OnNginx? && !a.leg.nginx.stage.Done? {
      FreshTempApart(map[], a.leg.nginx);
      if a.leg.nginx.plan.paths.Success? {
        FileDirOf(cfg, a.leg.nginx.plan);
      }
    }
  }

  lemma ClosedStarts(cfg: Config, start: State, reachable: iset<State>)
    requires Closed(cfg, start, reachable)
    ensures StartsClosed(cfg, reachable) && PingsClosed(cfg, reachable)
  {
    forall a, e | a in reachable ensures StartTo(cfg, a, e) in reachable {
      assert Happens(cfg, a, e) in reachable;
    }
    forall a, e | a in reachable ensures PingTo(cfg, a, e) in reachable {
      assert Happens(cfg, a, e) in reachable;
    }
  }

  lemma ClosedCalls(cfg: Config, start: State, reachable: iset<State>)
    requires Closed(cfg, start, reachable)
    ensures CallsClosed(cfg, reachable)
  {
    forall a, o | a in reachable ensures CallTo(cfg, a, o) in reachable {
      CallsAreEvents(cfg, a, o, true);
    }
    forall a, ok | a in reachable ensures SaveTo(a, ok) in reachable {
      CallsAreEvents(cfg, a, Fails, ok);
    }
    forall a | a in reachable ensures Facts(cfg, a) {
      assert Reached(cfg, start, a);
      ReachedFacts(cfg, start, a);
    }
  }

  lemma LookSees(cfg: Config, w: N.Web, a: N.Action, o: Outcome)
    ensures a.Look? ==> N.Perform(cfg, w, a, o).1.Seen?
  {
  }

  /** The available file changes only when the rename succeeds. */
  lemma CallKeepsFile(cfg: Config, w: N.Web, run: N.FormedRun, o: Outcome)
    requires !run.stage.Done? && Shaped(run.plan) && TempApart(run) && N.Ready(run.plan) && Apart(run.plan)
    requires var after := N.Perform(cfg, w, N.Next(run), o); !(N.Next(run).Move? && after.1.Good?)
    ensures SameAt(w.disk, N.Perform(cfg, w, N.Next(run), o).0.disk, run.plan.paths.value.available)
  {
    var p := run.plan.paths.value.available;
    if !Writes(N.Next(run), o, p) {
      PerformFootprint(cfg, w, N.Next(run), o, p);
      if N.Next(run).MakeAll? {
        StepMakesAncestors(run);
      }
    } else {
      OnlyRenameWrites(cfg, w, run, o);
      if run.stage.RenameTemp? {
        RefusedMove(cfg, w, run.temp, p, o);
      } else {
        StepWeb(cfg, w, run, o);
      }
    }
  }

  lemma RefusedMove(cfg: Config, w: N.Web, from: string, to: string, o: Outcome)
    ensures var after := N.Perform(cfg, w, N.Move(from, to), o); !after.1.Good? ==> after.0 == w
  {
  }

  lemma StepWeb(cfg: Config, w: N.Web, run: N.FormedRun, o: Outcome)
    requires !run.stage.Done?
    ensures N.Step(cfg, w, run, o).0 == N.Perform(cfg, w, N.Next(run), o).0
  {
  }

  /** The state an agent may start from. */
  ghost predicate Sane(cfg: Config, a: State) {
    ConfigLoaded(cfg) && Live(cfg, a) && InStep(a) && Honest(a) && LegRows(a.leg)
  }

  /** The stage of a phase receipt, and the one after it. */
  function PhaseStage(phase: GitPhase): Option<G.Stage> {
    match phase
    case GitFetching => Some(G.PostFetching)
    case GitFetched => Some(G.PostFetched)
    case GitApplying => Some(G.PostApplying)
    case _ => None
  }

  function AfterPhase(plan: G.Plan, phase: GitPhase): G.Stage {
    match phase
    case GitFetching => G.AfterFetching(plan)
    case GitFetched => G.PostApplying
    case _ => if plan.desired != "" then G.VerifyCommit else G.ResetHard
  }

  /** The failure reported when the call of a stage fails. */
  function FailureAt(s: G.Stage): Reason {
    match s
    case StatParent => ParentMissing
    case ProbeRepo => RepoCheckFailed
    case ProbePath => PathStatFailed
    case CloneNew => CloneFailed
    case FetchOrigin => FetchFailed
    case VerifyCommit => CommitNotFound
    case ResetHard => ResetFailed
    case _ => ReadCommitFailed
  }

  /** The stage after a call that succeeded. */
  function AfterSuccess(plan: G.Plan, s: G.Stage): Option<G.Stage> {
    match s
    case StatParent => Some(G.ProbeRepo)
    case CloneNew => Some(G.AfterUpdate(plan))
    case FetchOrigin => Some(G.AfterUpdate(plan))
    case VerifyCommit => Some(G.ResetHard)
    case ResetHard => Some(G.ReadHead)
    case ReadHead => Some(G.ReadLog)
    case _ => None
  }

  function GitFailure(plan: G.Plan, reason: Reason): G.Stage {
    G.PostLast(G.FailedRow(plan, reason))
  }

  function AfterLookup(plan: G.Plan, s: G.Stage, found: Option<bool>): G.Stage {
    if found.None? then GitFailure(plan, FailureAt(s))
    else if s.ProbeRepo? then (if found.value then G.FetchOrigin else G.ProbePath)
    else if found.value then GitFailure(plan, NotARepository)
    else G.CloneNew
  }

  /** The directory a stage creates. */
  function MkdirOf(plan: N.Plan, s: N.Stage): Option<string> {
    match s
    case MkdirAvailable => Some(plan.availableDir)
    case MkdirEnabled => Some(plan.enabledDir)
    case MkdirForFile => Some(plan.fileDir)
    case _ => None
  }

  /** Where the run stands once the directory call has answered. */
  function MkdirAnswered(plan: N.Plan, s: N.Stage, ok: bool): N.Stage {
    if s.MkdirForFile? then (if ok then N.MakeTemp else N.PostLast(N.FailedRow(plan, WriteFailed)))
    else if !ok then N.PostLast(N.FailedRow(plan, MkdirFailed))
    else if s.MkdirAvailable? then N.MkdirEnabled
    else if plan.reload || plan.resumed then N.Materialize(plan)
    else N.PostApplying
  }

  /** For a site whose roots are apart, a call other than a successful rename leaves the available file alone. */
  predicate Unchanged(plan: N.Plan, a: N.Action, reply: N.Reply, d: Disk.Disk, d': Disk.Disk) {
    N.Ready(plan) && Apart(plan) && !(a.Move? && reply.Good?) ==> SameAt(d, d', plan.paths.value.available)
  }

  lemma CallUnchanged(cfg: Config, w: N.Web, run: N.FormedRun, o: Outcome)
    requires !run.stage.Done? && NginxFacts(run, w)
    ensures var after := N.Perform(cfg, w, N.Next(run), o); Unchanged(run.plan, N.Next(run), after.1, w.disk, after.0.disk)
  {
    var after := N.Perform(cfg, w, N.Next(run), o);
    if N.Ready(run.plan) && Apart(run.plan) && !(N.Next(run).Move? && after.1.Good?) {
      CallKeepsFile(cfg, w, run, o);
    }
  }

  ghost function Reachable(cfg: Config, start: State): iset<State> {
    iset a | Reached(cfg, start, a)
  }

  /** Every event leads from a reachable state to one, and reachable means reached. */
  ghost predicate Closed(cfg: Config, start: State, reachable: iset<State>) {
    && (forall a, e {:trigger Happens(cfg, a, e)} :: a in reachable ==> Happens(cfg, a, e) in reachable)
    && (forall a {:trigger Reached(cfg, start, a)} :: a in reachable ==> Reached(cfg, start, a))
  }

  lemma ReachableClosed(cfg: Config, start: State)
    requires Sane(cfg, start)
    ensures Closed(cfg, start, Reachable(cfg, start)) && start in Reachable(cfg, start)
  {
    forall a, e | a in Reachable(cfg, start) ensures Happens(cfg, a, e) in Reachable(cfg, start) {
      ReachedNext(cfg, start, a, e);
    }
    assert Exec(cfg, start, []) == start;
  }

  lemma PostIs(cfg: Config, a: State, row: Row, o: Outcome)
    requires !a.unsaved && !Finished(a.leg) && NextReceipt(a.leg) == Some(row)
    ensures var l := if Received(o) then Record(a.ledger, row) else a.ledger;
      CallTo(cfg, a, o)
      == a.(ledger := l, leg := Answered(a.leg, o.Acked?),
            echo := if o.Acked? then a.echo[row.site := row.tls] else a.echo, unsaved := o.Acked?)
  {
    match a.leg
    case OnGit(run) => assert G.Step(a.places, run, o) == (a.places, G.Resume(run, if o.Acked? then G.Good else G.Bad));
    case OnNginx(run) => assert N.Step(cfg, a.web, run, o) == (a.web, N.Resume(run, if o.Acked? then N.Good else N.Bad));
  }

  /** The run after its post was acknowledged, or not. */
  function Answered(leg: Leg, ok: bool): Leg
    requires !Finished(leg)
  {
    match leg
    case OnGit(run) => OnGit(G.Resume(run, if ok then G.Good else G.Bad))
    case OnNginx(run) => OnNginx(N.Resume(run, if ok then N.Good else N.Bad))
  }

  lemma FileDirOf(cfg: Config, plan: N.Plan)
    requires FromIntent(cfg, plan) && plan.paths.Success?
    ensures Dir(plan.paths.value.available) == plan.fileDir
  {
  }

  lemma StartNginxIs(cfg: Config, a: State, e: Event)
    requires Free(a) && e.Start? && a.gitQueue == [] && a.applyQueue != []
    ensures var intent := a.applyQueue[0];
      StartTo(cfg, a, e)
      == a.(leg := OnNginx(N.Begin(cfg, intent, EchoOf(a, intent.site), e.certOk)), applyQueue := a.applyQueue[1..])
  {
  }

  lemma StartGitIs(cfg: Config, a: State, e: Event)
    requires Free(a) && e.Start? && a.gitQueue != []
    ensures var intent := a.gitQueue[0];
      StartTo(cfg, a, e)
      == a.(leg := OnGit(G.Begin(cfg, intent, EchoOf(a, intent.site), e.gitFound, e.keyUsable)), gitQueue := a.gitQueue[1..])
  {
  }

  // ---------------------------------------------------------------- which leg an intent calls for

  datatype Kind = ApplyLeg | ReloadLeg | NotOurs

  /** Dispatch on the normalized state. */
  function KindOf(intent: ApplyIntent): Kind {
    var cur := Normal(intent.state);
    if cur == ApplyName(ReloadRequested) then ReloadLeg
    else if cur == ApplyName(ApplyRequested) || cur == ApplyName(Applying) then ApplyLeg
    else NotOurs
  }

  /** Where a run begins, by the leg and the check. */
  function FirstStage(kind: Kind, plan: N.Plan, check: Option<Reason>): N.Stage {
    if kind.NotOurs? then N.Done
    else if check.Some? then N.PostLast(N.FailedRow(plan, check.value))
    else N.MkdirAvailable
  }

  lemma BeginsAt(cfg: Config, intent: ApplyIntent, echo: string, certOk: bool)
    ensures var run, plan := N.Begin(cfg, intent, echo, certOk), N.PlanFor(cfg, intent, echo);
      && run.plan == plan && run.stage == FirstStage(KindOf(intent), plan, N.Precheck(cfg, intent, certOk))
      && (plan.reload <==> KindOf(intent).ReloadLeg?)
  {
  }

  function FirstGitStage(plan: G.Plan, check: Option<Reason>): G.Stage {
    if check.Some? then GitFailure(plan, check.value)
    else if plan.skipFetching then G.AfterFetching(plan)
    else G.PostFetching
  }

  lemma GitBeginsAt(cfg: Config, intent: GitIntent, echo: string, gitFound: bool, keyUsable: bool)
    ensures var run, plan := G.Begin(cfg, intent, echo, gitFound, keyUsable), G.PlanFor(cfg, intent, echo);
      && run == G.Run(plan, FirstGitStage(plan, G.Precheck(cfg, intent, gitFound, keyUsable)))
      && (plan.skipFetched ==> plan.skipFetching) && plan.place == GitRuns.PlaceOf(intent)
  {
  }

  // ---------------------------------------------------------------- the rows sent

  /** The ledger together with every row sent so far and the answer each of them got. */
  datatype Log = Log(ledger: Ledger, sent: seq<Row>, answers: seq<Outcome>)

  function More(t: Log, row: Row, o: Outcome): Log {
    Log(if Received(o) then Record(t.ledger, row) else t.ledger, t.sent + [row], t.answers + [o])
  }

  /** The ledger after the received ones among the rows, in order. */
  function Replay(l: Ledger, rows: seq<Row>, answers: seq<Outcome>): Ledger
    requires |rows| == |answers|
    decreases |rows|
  {
    if rows == [] then l
    else
      var before := Replay(l, rows[..|rows| - 1], answers[..|rows| - 1]);
      if Received(answers[|rows| - 1]) then Record(before, rows[|rows| - 1]) else before
  }

  predicate Replays(l: Ledger, t: Log) {
    |t.sent| == |t.answers| && t.ledger == Replay(l, t.sent, t.answers)
  }

  lemma ReplaysMore(l: Ledger, t: Log, row: Row, o: Outcome)
    requires Replays(l, t)
    ensures Replays(l, More(t, row, o))
  {
    var m := More(t, row, o);
    assert m.sent[..|t.sent|] == t.sent && m.answers[..|t.sent|] == t.answers;
  }

  /** Replaying a longer log continues from where the shorter one stopped. */
  lemma {:induction false} ReplaySplit(l: Ledger, rows: seq<Row>, answers: seq<Outcome>, n: nat)
    requires |rows| == |answers| && n <= |rows|
    ensures Replay(l, rows, answers) == Replay(Replay(l, rows[..n], answers[..n]), rows[n..], answers[n..])
    decreases |rows|
  {
    if n == |rows| {
      assert rows[..n] == rows && answers[..n] == answers;
    } else {
      var k := |rows| - 1;
      ReplaySplit(l, rows[..k], answers[..k], n);
      assert rows[..k][..n] == rows[..n] && answers[..k][..n] == answers[..n];
      assert rows[..k][n..] == rows[n..][..k - n] && answers[..k][n..] == answers[n..][..k - n];
    }
  }

  ghost predicate LogsClosed(l: Ledger, logs: iset<Log>) {
    && (forall t, row, o {:trigger More(t, row, o)} :: t in logs ==> More(t, row, o) in logs)
    && (forall t {:trigger Replays(l, t)} :: t in logs ==> Replays(l, t))
  }

  ghost function LogsFrom(l: Ledger): iset<Log> {
    iset t | Replays(l, t)
  }

  lemma LogsFromClosed(l: Ledger)
    ensures LogsClosed(l, LogsFrom(l)) && Log(l, [], []) in LogsFrom(l)
  {
    forall t, row, o | t in LogsFrom(l) ensures More(t, row, o) in LogsFrom(l) {
      ReplaysMore(l, t, row, o);
    }
  }

  lemma Appended(rows: seq<Row>, more: seq<Row>, last: seq<Row>)
    ensures rows + more + last == rows + (more + last)
  {
  }

  /** The last answer among these was an acknowledgement. */
  predicate Heard(answers: seq<Outcome>) {
    answers != [] && answers[|answers| - 1].Acked?
  }

  /** The rows of a git run's phases, in source order. */
  function Phases(plan: G.Plan): seq<Row> {
    (if plan.skipFetching then [] else [G.PhaseRow(plan, GitFetching)])
    + (if plan.skipFetched then [] else [G.PhaseRow(plan, GitFetched)])
    + [G.PhaseRow(plan, GitApplying)]
  }

  /** The phases after the fetching one. */
  function LaterPhases(plan: G.Plan): seq<Row> {
    (if plan.skipFetched then [] else [G.PhaseRow(plan, GitFetched)]) + [G.PhaseRow(plan, GitApplying)]
  }

  lemma PhasesFirst(plan: G.Plan, n: nat)
    requires n <= |LaterPhases(plan)|
    ensures var first := if plan.skipFetching then [] else [G.PhaseRow(plan, GitFetching)];
      Phases(plan) == first + LaterPhases(plan) && Phases(plan)[..|first| + n] == first + LaterPhases(plan)[..n]
  {
    var first := if plan.skipFetching then [] else [G.PhaseRow(plan, GitFetching)];
    assert Phases(plan) == first + LaterPhases(plan);
  }

  // ---------------------------------------------------------------- what clone and fetch do to a place

  predicate Fetched(before: G.Places, after: G.Places, place: string)
    requires GitRuns.RepoAt(before, place)
  {
    && GitRuns.RepoAt(after, place) && GitRuns.Unmoved(before, after, place)
    && forall branch :: branch in before[place].repo.refs ==> branch in after[place].repo.refs
  }

  predicate Cloned(after: G.Places, place: string, branch: string) {
    && GitRuns.RepoAt(after, place)
    && var r := after[place].repo; branch in r.refs && r.head == r.refs[branch] && r.tree == r.head
  }

  lemma FetchKeeps(before: G.Places, place: string, o: Outcome)
    requires GitRuns.RepoAt(before, place)
    ensures Fetched(before, G.Perform(before, place, G.Fetch, o).0, place)
  {
  }

  lemma CloneMakes(before: G.Places, place: string, branch: string, o: Outcome)
    ensures var after := G.Perform(before, place, G.CloneBranch(branch), o);
      if after.1.Good? then Cloned(after.0, place, branch) else after.0 == before
  {
  }

  /** The update of a run: fetched where a repository was, cloned where nothing was; otherwise what was found
      and the failure that says so. */
  predicate Updated(before: G.Places, after: G.Places, plan: G.Plan, failure: Option<Reason>) {
    if failure.None? then
      if GitRuns.RepoAt(before, plan.place) then Fetched(before, after, plan.place)
      else plan.place !in before && Cloned(after, plan.place, plan.branch)
    else if failure.value.FetchFailed? then GitRuns.RepoAt(before, plan.place) && Fetched(before, after, plan.place)
    else Refused(before, plan.place, failure.value) && after == before
  }

  /** A failure that leaves everything as it was, and what was found at the deploy path. */
  predicate Refused(places: G.Places, place: string, failure: Reason) {
    match failure
    case CloneFailed => place !in places
    case NotARepository => place in places && places[place].PlainDirectory?
    case PathStatFailed => NoRepository(places, place)
    case RepoCheckFailed => true
    case _ => failure.ParentMissing?
  }

  /** Nothing at the path, or a directory without a repository. */
  predicate NoRepository(places: G.Places, place: string) {
    place in places ==> places[place].PlainDirectory?
  }

  /** What a look at the deploy path may answer. */
  predicate Sees(places: G.Places, place: string, s: G.Stage, found: Option<bool>) {
    found.Some? ==>
      if s.ProbeRepo? then if found.value then GitRuns.RepoAt(places, place) else NoRepository(places, place)
      else found.value <==> place in places
  }

  lemma LookupSees(places: G.Places, place: string, s: G.Stage, o: Outcome)
    requires s.ProbeRepo? || s.ProbePath?
    ensures var reply := G.Look(places, place, s, o);
      Sees(places, place, s, if reply.Found? then Some(reply.exists_) else None)
  {
  }

  lemma UpdateSpares(before: G.Places, after: G.Places, plan: G.Plan, failure: Option<Reason>)
    requires Updated(before, after, plan, failure)
    ensures GitRuns.Unmoved(before, after, plan.place)
  {
  }

  /** A run without an applied receipt has not moved HEAD unless it failed to read the commit back. */
  predicate Spared(before: G.Places, after: G.Places, place: string, commit: Option<Commit>, failure: Option<Reason>) {
    commit.None? && failure != Some(ReadCommitFailed) ==> GitRuns.Unmoved(before, after, place)
  }

  lemma SparedAfter(a: G.Places, b: G.Places, c: G.Places, place: string, commit: Option<Commit>, failure: Option<Reason>)
    requires GitRuns.Unmoved(a, b, place) && Spared(b, c, place, commit, failure)
    ensures Spared(a, c, place, commit, failure)
  {
  }

  /** Neither the check of a commit nor a refused reset changes anything. */
  lemma NotReset(places: G.Places, place: string, a: G.Action, o: Outcome)
    requires a.CheckCommit? || a.ResetTo?
    ensures var after := G.Perform(places, place, a, o); a.CheckCommit? || !after.1.Good? ==> after.0 == places
  {
  }

  /** The failure a materialization ends with: the error of rendering, else of the paths, else of a write. */
  predicate Explains(plan: N.Plan, failure: Option<Reason>) {
    && (plan.conf.Failure? ==> failure == Some(RenderFailed(plan.conf.error)))
    && (plan.conf.Success? && plan.paths.Failure? ==> failure == Some(BadSitePaths(plan.paths.error)))
    && (N.Ready(plan) ==> failure in {None, Some(WriteFailed), Some(SymlinkFailed)})
  }

  /** The directory and all its ancestors exist. */
  predicate DirsAt(d: Disk.Disk, path: string) {
    forall p :: p in Disk.Ancestry(path) ==> p in d && d[p].Dir?
  }

  /** Nothing that was there is gone or changed. */
  predicate Keeps(d: Disk.Disk, d': Disk.Disk) {
    forall p :: p in d ==> p in d' && d'[p] == d[p]
  }

  lemma MkdirMakes(cfg: Config, w: N.Web, path: string, o: Outcome)
    ensures var after := N.Perform(cfg, w, N.MakeAll(path), o);
      && (after.1.Good? ==> DirsAt(after.0.disk, path))
      && Keeps(w.disk, after.0.disk)
  {
  }

  // ---------------------------------------------------------------- which rows a run sends

  /** The last receipt of the apply leg is the applied one or a failure. */
  predicate EndsApply(plan: N.Plan, last: Row) {
    last == N.PhaseRow(plan, Applied) || FailsRun(plan, last)
  }

  predicate FailsRun(plan: N.Plan, last: Row) {
    last.body.ApplyBody? && last.body.applyReason.Some? && last == N.FailedRow(plan, last.body.applyReason.value)
  }

  /** What the apply leg sends: the applying receipt when it is due and came to be sent, then the last one,
      unless the applying receipt was not acknowledged. */
  ghost predicate ApplyRows(plan: N.Plan, check: Option<Reason>, rows: seq<Row>, last: Option<Row>, heard: bool) {
    var applying := [N.PhaseRow(plan, Applying)];
    if check.Some? then last == Some(N.FailedRow(plan, check.value)) && rows == [last.value]
    else if last.None? then !plan.resumed && rows == applying && !heard
    else if last == Some(N.FailedRow(plan, MkdirFailed)) then rows == [last.value]
    else rows == (if plan.resumed then [] else applying) + [last.value]
  }

  /** What a run of an intent sends, by the leg its state calls for; an unknown state is not for the agent. */
  ghost predicate NginxSends(kind: Kind, plan: N.Plan, check: Option<Reason>, rows: seq<Row>, last: Option<Row>, heard: bool) {
    && (last.Some? ==> OfPlan(plan, last.value))
    && match kind
       case ReloadLeg =>
         && last.Some? && rows == [last.value] && (check.Some? ==> last == Some(N.FailedRow(plan, check.value)))
         && (last.value == N.ReloadRow(plan) || FailsRun(plan, last.value))
       case ApplyLeg => ApplyRows(plan, check, rows, last, heard) && (last.Some? ==> EndsApply(plan, last.value))
       case NotOurs => last.None? && rows == []
  }

  /** The row that ends a git run, if one does. */
  function LastRow(plan: G.Plan, commit: Option<Commit>, failure: Option<Reason>): seq<Row> {
    if commit.Some? then [G.AppliedRow(plan, commit.value)]
    else if failure.Some? then [G.FailedRow(plan, failure.value)]
    else []
  }

  /** What a git run sends after its checks: some of the phases in source order, and then the failure or, after
      all of them, the applied row. It stops without either only after a phase that was not acknowledged. */
  ghost predicate GitSequence(
      plan: G.Plan, rows: seq<Row>, commit: Option<Commit>, phases: nat, failure: Option<Reason>, heard: bool) {
    && phases <= |Phases(plan)|
    && (commit.Some? ==> phases == |Phases(plan)| && failure.None?)
    && (commit.None? && failure.None? ==> phases > 0 && !heard)
    && rows == Phases(plan)[..phases] + LastRow(plan, commit, failure)
  }

  /** The fetched and applying phases, as far as they were sent, and what followed them. */
  ghost predicate LaterRows(
      plan: G.Plan, sentPhases: seq<Row>, last: seq<Row>, commit: Option<Commit>, failure: Option<Reason>, heard: bool) {
    && sentPhases <= LaterPhases(plan)
    && (commit.Some? ==> sentPhases == LaterPhases(plan) && failure.None?)
    && (commit.None? && failure.None? ==> sentPhases != [] && !heard)
    && last == LastRow(plan, commit, failure)
  }

  lemma OnlyFetched(plan: G.Plan)
    requires !plan.skipFetched
    ensures var first := [G.PhaseRow(plan, GitFetched)]; LaterRows(plan, first, [], None, None, false) && first + [] == first
  {
  }

  lemma FetchedAndApplying(plan: G.Plan, last: seq<Row>, commit: Option<Commit>, failure: Option<Reason>, heard: bool)
    requires last == LastRow(plan, commit, failure) && (commit.Some? ==> failure.None?) && (commit.None? && failure.None? ==> !heard)
    ensures var first, applying := if plan.skipFetched then [] else [G.PhaseRow(plan, GitFetched)], [G.PhaseRow(plan, GitApplying)];
      LaterRows(plan, first + applying, last, commit, failure, heard) && first + applying + last == first + (applying + last)
  {
  }

  lemma FailsLater(plan: G.Plan, reason: Reason, heard: bool)
    ensures var row := [G.FailedRow(plan, reason)];
      LaterRows(plan, [], row, None, Some(reason), heard) && [] + row == row
  {
  }

  lemma OnlyFetching(plan: G.Plan)
    requires !plan.skipFetching
    ensures GitSequence(plan, [G.PhaseRow(plan, GitFetching)], None, 1, None, false)
  {
    PhasesFirst(plan, 0);
  }

  lemma AllRows(
      plan: G.Plan, sentPhases: seq<Row>, last: seq<Row>, commit: Option<Commit>, failure: Option<Reason>, heard: bool)
    requires LaterRows(plan, sentPhases, last, commit, failure, heard)
    ensures var first := if plan.skipFetching then [] else [G.PhaseRow(plan, GitFetching)];
      GitSequence(plan, first + (sentPhases + last), commit, |first| + |sentPhases|, failure, heard)
  {
    var first := if plan.skipFetching then [] else [G.PhaseRow(plan, GitFetching)];
    PhasesFirst(plan, |sentPhases|);
    assert first + (sentPhases + last) == first + sentPhases + last;
  }

  /** What one git intent sends: the failed check, or the sequence above. */
  ghost predicate GitSends(
      plan: G.Plan, check: Option<Reason>, rows: seq<Row>, commit: Option<Commit>, failure: Option<Reason>, heard: bool) {
    if check.Some? then commit.None? && failure == check && rows == [G.FailedRow(plan, check.value)]
    else exists phases: nat :: GitSequence(plan, rows, commit, phases, failure, heard)
  }

  lemma PhasesAsAsked(cfg: Config, intent: GitIntent, echo: string)
    ensures Phases(G.PlanFor(cfg, intent, echo)) == AskedPhases(intent, echo)
  {
    RowsAre(cfg, intent, echo);
    SkipsExactly(cfg, intent, echo);
  }

  lemma LastAsAsked(cfg: Config, intent: GitIntent, echo: string, commit: Option<Commit>, failure: Option<Reason>)
    ensures LastRow(G.PlanFor(cfg, intent, echo), commit, failure) == AskedLast(intent, echo, commit, failure)
  {
    RowsAre(cfg, intent, echo);
  }

  /** The rows of a run, in terms of its intent. */
  lemma SentAsAsked(
      cfg: Config, intent: GitIntent, echo: string, gitFound: bool, keyUsable: bool,
      rows: seq<Row>, commit: Option<Commit>, failure: Option<Reason>, heard: bool)
    requires var plan, check := G.PlanFor(cfg, intent, echo), G.Precheck(cfg, intent, gitFound, keyUsable);
      GitSends(plan, check, rows, commit, failure, heard)
    ensures SendsAsAsked(cfg, intent, echo, gitFound, keyUsable, rows, commit, failure, heard)
  {
    var plan, check := G.PlanFor(cfg, intent, echo), G.Precheck(cfg, intent, gitFound, keyUsable);
    ChecksExactly(cfg, intent, gitFound, keyUsable);
    if check.Some? {
      RowsAre(cfg, intent, echo);
    } else {
      var phases: nat :| GitSequence(plan, rows, commit, phases, failure, heard);
      PhasesAsAsked(cfg, intent, echo);
      LastAsAsked(cfg, intent, echo, commit, failure);
      assert SequenceAsAsked(intent, echo, rows, commit, phases, failure, heard);
    }
  }

  /** One run's rows: at least one, all git rows of the site. */
  predicate GitRun(site: string, rows: seq<Row>) {
    rows != [] && forall i :: 0 <= i < |rows| ==> rows[i].site == site && rows[i].body.GitBody?
  }

  predicate ApplyRun(site: string, rows: seq<Row>) {
    rows != [] && forall i :: 0 <= i < |rows| ==> rows[i].site == site && rows[i].body.ApplyBody?
  }

  predicate GitRunsOf(git: seq<GitIntent>, runs: seq<seq<Row>>) {
    |runs| == |git| && forall i :: 0 <= i < |git| ==> GitRun(git[i].site, runs[i])
  }

  predicate ApplyRunsOf(apply: seq<ApplyIntent>, runs: seq<seq<Row>>) {
    |runs| == |apply| && forall i :: 0 <= i < |apply| ==> ApplyRun(apply[i].site, runs[i])
  }

  function Concat(runs: seq<seq<Row>>): seq<Row> {
    if runs == [] then [] else Concat(runs[..|runs| - 1]) + runs[|runs| - 1]
  }

  lemma ConcatMore(runs: seq<seq<Row>>, rows: seq<Row>)
    ensures Concat(runs + [rows]) == Concat(runs) + rows
  {
    assert (runs + [rows])[..|runs|] == runs;
  }

  lemma GitRunsMore(git: seq<GitIntent>, i: nat, runs: seq<seq<Row>>, rows: seq<Row>)
    requires i < |git| && GitRunsOf(git[..i], runs) && GitRun(git[i].site, rows)
    ensures GitRunsOf(git[..i + 1], runs + [rows]) && Concat(runs + [rows]) == Concat(runs) + rows
  {
    ConcatMore(runs, rows);
  }

  lemma ApplyRunsMore(apply: seq<ApplyIntent>, i: nat, runs: seq<seq<Row>>, rows: seq<Row>)
    requires i < |apply| && ApplyRunsOf(apply[..i], runs) && ApplyRun(apply[i].site, rows)
    ensures ApplyRunsOf(apply[..i + 1], runs + [rows]) && Concat(runs + [rows]) == Concat(runs) + rows
  {
    ConcatMore(runs, rows);
  }

  /** States the nginx legs act on. */
  predicate Handled(intent: ApplyIntent) {
    !KindOf(intent).NotOurs?
  }

  ghost predicate AllHandled(handled: iset<ApplyIntent>) {
    forall i {:trigger Handled(i)} :: i in handled <==> Handled(i)
  }

  lemma ShownAreHandled(l: Ledger, apply: seq<ApplyIntent>, i: nat)
    requires ApplySnapshot(l, apply) && i < |apply|
    ensures Handled(apply[i])
  {
    assert ApplyShows(l, apply[i]);
  }

  lemma PhasesAreRun(intent: GitIntent, echo: string)
    ensures GitRun(intent.site, AskedPhases(intent, echo))
  {
  }

  lemma SequenceIsRun(
      intent: GitIntent, echo: string, rows: seq<Row>, commit: Option<Commit>, phases: nat, failure: Option<Reason>, heard: bool)
    requires SequenceAsAsked(intent, echo, rows, commit, phases, failure, heard)
    ensures GitRun(intent.site, rows)
  {
    PhasesAreRun(intent, echo);
  }

  lemma GitRowsAreRun(
      cfg: Config, intent: GitIntent, echo: string, gitFound: bool, keyUsable: bool,
      rows: seq<Row>, commit: Option<Commit>, failure: Option<Reason>, heard: bool)
    requires SendsAsAsked(cfg, intent, echo, gitFound, keyUsable, rows, commit, failure, heard)
    ensures GitRun(intent.site, rows)
  {
    if gitFound && keyUsable && Servable(cfg, intent) {
      var phases: nat :| SequenceAsAsked(intent, echo, rows, commit, phases, failure, heard);
      SequenceIsRun(intent, echo, rows, commit, phases, failure, heard);
    }
  }

  /** Every row of a run is one of its plan's. */
  predicate OfPlan(plan: N.Plan, row: Row) {
    row.site == plan.site && row.body.ApplyBody?
  }

  // ---------------------------------------------------------------- an nginx run in terms of its intent

  /** The nginx loop runs exactly when both roots are given. */
  lemma RootsConfigured(cfg: Config)
    ensures NginxConfigured(cfg) <==> I.RootsGiven(cfg)
  {
  }

  lemma KindIs(intent: ApplyIntent)
    ensures KindOf(intent).NotOurs? <==> !I.Acted(intent)
    ensures KindOf(intent).ReloadLeg? <==> I.StateText(intent) == "reload_requested"
  {
  }

  lemma ApplySentAsAsked(
      cfg: Config, intent: ApplyIntent, echo: string, rows: seq<Row>, last: Option<Row>, heard: bool)
    requires var plan := N.PlanFor(cfg, intent, echo); ApplyRows(plan, None, rows, last, heard) && (last.Some? ==> EndsApply(plan, last.value))
    ensures I.AppliesAsAsked(intent, echo, rows, last, heard)
  {
    I.RowsAre(cfg, intent, echo);
    I.LegsAre(cfg, intent, echo);
  }

  lemma RefusalSent(
      cfg: Config, intent: ApplyIntent, echo: string, check: Reason, rows: seq<Row>, last: Option<Row>, heard: bool)
    requires NginxSends(KindOf(intent), N.PlanFor(cfg, intent, echo), Some(check), rows, last, heard) && I.Acted(intent)
    ensures last == Some(I.FailedFor(intent, echo, check)) && rows == [I.FailedFor(intent, echo, check)]
  {
    KindIs(intent);
    I.RowsAre(cfg, intent, echo);
  }

  /** The rows of a run, in terms of its intent. */
  lemma NginxSentAsAsked(
      cfg: Config, intent: ApplyIntent, echo: string, certOk: bool, rows: seq<Row>, last: Option<Row>, heard: bool)
    requires NginxSends(KindOf(intent), N.PlanFor(cfg, intent, echo), N.Precheck(cfg, intent, certOk), rows, last, heard)
    ensures I.NginxSendsAsAsked(cfg, intent, echo, certOk, rows, last, heard)
  {
    var check := N.Precheck(cfg, intent, certOk);
    KindIs(intent);
    if I.Acted(intent) {
      I.ChecksExactly(cfg, intent, certOk);
      if check.Some? {
        RefusalSent(cfg, intent, echo, check.value, rows, last, heard);
      } else if KindOf(intent).ApplyLeg? {
        ApplySentAsAsked(cfg, intent, echo, rows, last, heard);
      } else {
        I.RowsAre(cfg, intent, echo);
      }
    }
  }

  /** What the program knows once the run is over. */
  ghost predicate NginxMeans(cfg: Config, plan: N.Plan, last: Option<Row>, w: N.Web) {
    last.Some? && SuccessRow(last.value) ==> (
      && N.Ready(plan) && FileAt(w.disk, plan.paths.value.available, plan.conf.value)
      && LinkAt(w.disk, plan.paths.value.enabled, plan.paths.value.available)
      && (last.value.body.apply.ReloadApplied? ==> Serving(plan, w.loaded) && cfg.accepts(w.loaded)))
  }

  lemma NginxDoneAsPlanned(
      cfg: Config, intent: ApplyIntent, echo: string, certOk: bool, rows: seq<Row>, last: Option<Row>, heard: bool, before: N.Web, after: N.Web)
    requires var plan, check := N.PlanFor(cfg, intent, echo), N.Precheck(cfg, intent, certOk);
      && NginxSends(KindOf(intent), plan, check, rows, last, heard) && NginxMeans(cfg, plan, last, after)
      && (KindOf(intent).NotOurs? || check.Some? ==> after == before)
    ensures I.NginxDoneAsAsked(cfg, intent, certOk, last, before, after)
  {
    KindIs(intent);
    I.ChecksExactly(cfg, intent, certOk);
    if last.Some? && SuccessRow(last.value) {
      SuccessWasAllowed(cfg, intent, echo, certOk, rows, last, heard);
      I.PlacedByPlan(cfg, intent, echo, after.disk);
      if last.value.body.apply.ReloadApplied? {
        I.LoadedByPlan(cfg, intent, echo, after.loaded);
      }
    }
  }

  lemma SuccessWasAllowed(
      cfg: Config, intent: ApplyIntent, echo: string, certOk: bool, rows: seq<Row>, last: Option<Row>, heard: bool)
    requires NginxSends(KindOf(intent), N.PlanFor(cfg, intent, echo), N.Precheck(cfg, intent, certOk), rows, last, heard)
    requires last.Some? && SuccessRow(last.value)
    ensures N.Precheck(cfg, intent, certOk).None?
  {
  }

  lemma NginxRowsAreRun(
      cfg: Config, intent: ApplyIntent, echo: string, certOk: bool, rows: seq<Row>, last: Option<Row>, heard: bool)
    requires I.NginxSendsAsAsked(cfg, intent, echo, certOk, rows, last, heard) && Handled(intent)
    ensures ApplyRun(intent.site, rows)
  {
    KindIs(intent);
  }
}
