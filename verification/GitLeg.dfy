/** One run of git convergence for one site, split like the nginx run into its own control (`Next`, `Resume`)
    and the repository it acts on (`Perform`). */
module GitLeg {
  import opened Text
  import opened UnixPath
  import opened DeployPath
  import opened SshCommand
  import opened CommitRecord
  import opened Protocol

  // ---------------------------------------------------------------- repositories

  /** Remote-tracking branches, the texts that name a commit, and the commits HEAD and the tree are at. */
  datatype Repo = Repo(refs: map<string, Hash>, names: map<string, Hash>, head: Hash, tree: Hash)

  /** What is found at a deploy path; an absent path is not in the map of places. */
  datatype Place = NotDirectory | PlainDirectory | InvalidGitFile | Git(repo: Repo)

  type Places = map<string, Place>

  datatype Target = RemoteBranch(name: string) | Desired(text: string)

  function Resolve(r: Repo, t: Target): Option<Hash> {
    match t
    case RemoteBranch(name) => if name in r.refs then Some(r.refs[name]) else None
    case Desired(text) => if text in r.names then Some(r.names[text]) else None
  }

  // ---------------------------------------------------------------- before the first call

  /** The intent served, the tls_state echoed for it, and what the run has computed from them and the
      configuration: `place` is the cleaned deploy path, `parent` the verdict on its parent directory. */
  datatype Plan = Plan(
    intent: GitIntent, echo: string, site: string, tls: string, skipFetching: bool, skipFetched: bool, branch: string, desired: string,
    place: string, parent: Option<PathError>)

  function TargetOf(plan: Plan): Target {
    if plan.desired == "" then RemoteBranch(plan.branch) else Desired(plan.desired)
  }

  function KeyPath(cfg: Config, site: string): string {
    Trim(JoinPath(cfg.keysDir, site + ".key"))
  }

  /** The checks made before the first receipt; `None` lets the run go on. */
  function Precheck(cfg: Config, intent: GitIntent, gitFound: bool, keyUsable: bool): Option<Reason> {
    var deployPath, roots := Trim(intent.deployPath), NormalizeRoots(cfg.deployRoots);
    if !gitFound then Some(GitMissing)
    else if Trim(intent.branch) == "" || deployPath == "" || Trim(intent.url) == "" then Some(IntentIncomplete)
    else if ValidateDeployPath(deployPath, roots).Some? then Some(InvalidDeployPath(ValidateDeployPath(deployPath, roots).value))
    else if !intent.keyConfigured then Some(KeyNotConfigured)
    else if KeyPath(cfg, intent.site) == "" then Some(KeyPathEmpty)
    else if !keyUsable then Some(KeyUnusable)
    else if BuildCommand(KeyPath(cfg, intent.site), cfg.knownHosts).Failure? then Some(SshCommandInvalid)
    else None
  }

  function PlanFor(cfg: Config, intent: GitIntent, echo: string): Plan {
    var deployPath, cur := Trim(intent.deployPath), Normal(intent.state);
    Plan(intent, echo, intent.site, EchoOrNone(echo),
         cur == GitName(GitFetched) || cur == GitName(GitApplying), cur == GitName(GitApplying),
         Trim(intent.branch), Trim(intent.desired),
         Clean(deployPath), ValidateDeployPath(Dir(deployPath), NormalizeRoots(cfg.deployRoots)))
  }

  // ---------------------------------------------------------------- control

  datatype Stage =
    | PostFetching | StatParent | ProbeRepo | ProbePath | CloneNew | FetchOrigin
    | PostFetched | PostApplying | VerifyCommit | ResetHard | ReadHead | ReadLog
    | PostLast(row: Row) | Done

  datatype Run = Run(plan: Plan, stage: Stage)

  datatype Action =
    | LookUp(stage: Stage) | CloneBranch(branch: string) | Fetch | CheckCommit(text: string)
    | ResetTo(target: Target) | RevParse | ShowLog | Post(row: Row)

  datatype Reply = Good | Bad | Found(exists_: bool) | Observed(record: Option<Commit>)

  function FailedRow(plan: Plan, reason: Reason): Row {
    Row(plan.site, plan.tls, GitBody(GitFailed, Some(reason), None))
  }

  function PhaseRow(plan: Plan, phase: GitPhase): Row {
    Row(plan.site, plan.tls, GitBody(phase, None, None))
  }

  function AppliedRow(plan: Plan, c: Commit): Row {
    Row(plan.site, plan.tls, GitBody(GitApplied, None, Some(c.sha)))
  }

  function Failing(run: Run, reason: Reason): Stage {
    PostLast(FailedRow(run.plan, reason))
  }

  function AfterFetching(plan: Plan): Stage {
    if plan.parent.Some? then PostLast(FailedRow(plan, InvalidParent(plan.parent.value))) else StatParent
  }

  function Begin(cfg: Config, intent: GitIntent, echo: string, gitFound: bool, keyUsable: bool): Run {
    var plan, check := PlanFor(cfg, intent, echo), Precheck(cfg, intent, gitFound, keyUsable);
    Run(plan,
        if check.Some? then PostLast(FailedRow(plan, check.value))
        else if plan.skipFetching then AfterFetching(plan)
        else PostFetching)
  }

  function Next(run: Run): Action
    requires !run.stage.Done?
  {
    match run.stage
    case PostFetching => Post(PhaseRow(run.plan, GitFetching))
    case CloneNew => CloneBranch(run.plan.branch)
    case FetchOrigin => Fetch
    case PostFetched => Post(PhaseRow(run.plan, GitFetched))
    case PostApplying => Post(PhaseRow(run.plan, GitApplying))
    case VerifyCommit => CheckCommit(run.plan.desired)
    case ResetHard => ResetTo(TargetOf(run.plan))
    case ReadHead => RevParse
    case ReadLog => ShowLog
    case PostLast(row) => Post(row)
    case _ => LookUp(run.stage)
  }

  function AfterUpdate(plan: Plan): Stage {
    if plan.skipFetched then PostApplying else PostFetched
  }

  function Resume(run: Run, reply: Reply): (next: Run)
    requires !run.stage.Done?
    ensures next.plan == run.plan
  {
    var plan, ok := run.plan, reply.Good?;
    match run.stage
    case PostFetching => run.(stage := if ok then AfterFetching(plan) else Done)
    case StatParent => run.(stage := if ok then ProbeRepo else Failing(run, ParentMissing))
    case ProbeRepo =>
      run.(stage := if !reply.Found? then Failing(run, RepoCheckFailed) else if reply.exists_ then FetchOrigin else ProbePath)
    case ProbePath =>
      run.(stage := if !reply.Found? then Failing(run, PathStatFailed) else if reply.exists_ then Failing(run, NotARepository) else CloneNew)
    case CloneNew => run.(stage := if ok then AfterUpdate(plan) else Failing(run, CloneFailed))
    case FetchOrigin => run.(stage := if ok then AfterUpdate(plan) else Failing(run, FetchFailed))
    case PostFetched => run.(stage := if ok then PostApplying else Done)
    case PostApplying => run.(stage := if !ok then Done else if plan.desired != "" then VerifyCommit else ResetHard)
    case VerifyCommit => run.(stage := if ok then ResetHard else Failing(run, CommitNotFound))
    case ResetHard => run.(stage := if ok then ReadHead else Failing(run, ResetFailed))
    case ReadHead => run.(stage := if ok then ReadLog else Failing(run, ReadCommitFailed))
    case ReadLog => run.(stage := AfterLog(run, reply))
    case PostLast(_) => run.(stage := Done)
  }

  function AfterLog(run: Run, reply: Reply): Stage {
    if !reply.Observed? || reply.record.None? then Failing(run, ReadCommitFailed)
    else PostLast(AppliedRow(run.plan, reply.record.value))
  }

  // ---------------------------------------------------------------- the repository

  function Answer(ok: bool): Reply {
    if ok then Good else Bad
  }

  function Look(places: Places, place: string, stage: Stage, o: Outcome): Reply {
    if !o.Succeeds? then Bad
    else if stage.StatParent? then Good
    else if place !in places then Found(false)
    else if stage.ProbePath? then Found(true)
    else match places[place]
      case Git(_) => Found(true)
      case PlainDirectory => Found(false)
      case _ => Bad
  }

  /** What the log call prints: fields free of NUL, the author ending in `>`. */
  predicate LogFields(o: Outcome) {
    o.Logged? && NulFree(o.subject) && NulFree(o.author) && o.author != [] && o.author[|o.author| - 1] == GT
  }

  /** What the parser makes of that output; `RecordIsParsed` shows it is exactly `Fields` of the bytes printed. */
  function LogRecord(head: Hash, o: Outcome): Option<Commit>
    requires LogFields(o)
  {
    if o.terminators > 2 then None else Some(Commit(head, TrimBytes(o.subject), TrimBytes(o.author)))
  }

  /** Fetch neither prunes branches nor moves HEAD; an incomplete one may have updated some branches.
      A clone is complete or absent; a reset is atomic. */
  function Perform(places: Places, place: string, a: Action, o: Outcome): (Places, Reply) {
    var here := if place in places && places[place].Git? then Some(places[place].repo) else None;
    match a
    case LookUp(stage) => (places, Look(places, place, stage, o))
    case CloneBranch(branch) =>
      if place !in places && o.Remote? && o.complete && branch in o.refs
      then (places[place := Git(Repo(o.refs, o.names, o.refs[branch], o.refs[branch]))], Good)
      else (places, Bad)
    case Fetch =>
      if here.Some? && o.Remote?
      then (places[place := Git(here.value.(refs := here.value.refs + o.refs, names := o.names))], Answer(o.complete))
      else (places, Bad)
    case CheckCommit(text) => (places, Answer(o.Succeeds? && here.Some? && text in here.value.names))
    case ResetTo(target) =>
      if o.Succeeds? && here.Some? && Resolve(here.value, target).Some?
      then (places[place := Git(At(here.value, Resolve(here.value, target).value))], Good)
      else (places, Bad)
    case RevParse => (places, Answer(o.Succeeds? && here.Some?))
    case ShowLog =>
      (places, if here.Some? && LogFields(o) then Observed(LogRecord(here.value.head, o)) else Bad)
    case Post(_) => (places, Answer(o.Acked?))
  }

  function At(r: Repo, h: Hash): Repo {
    r.(head := h, tree := h)
  }

  function Step(places: Places, run: Run, o: Outcome): (r: (Places, Run))
    requires !run.stage.Done?
    ensures r.1.plan == run.plan
  {
    var (places', reply) := Perform(places, run.plan.place, Next(run), o);
    (places', Resume(run, reply))
  }

  /** A run up to some call, killed there if it had more to do. */
  function Steps(places: Places, run: Run, os: seq<Outcome>): (r: (Places, Run))
    ensures r.1.plan == run.plan
    decreases |os|
  {
    if os == [] || run.stage.Done? then (places, run)
    else
      var (places', run') := Step(places, run, os[0]);
      Steps(places', run', os[1..])
  }
}
