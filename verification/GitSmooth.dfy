/** The failure-free git run: exactly how it ends from every phase and every place, and that it converges after
    any number of killed runs. */
module GitSmooth {
  import opened Text
  import opened Protocol
  import opened GitLeg
  import opened GitRuns

  // ---------------------------------------------------------------- a run in which no call fails

  /** What the remote offers and what the log prints. */
  datatype World = World(refs: map<string, Hash>, names: map<string, Hash>, log: Outcome)

  function Smooth(s: Stage, world: World): Outcome {
    match s
    case PostFetching => Acked
    case PostFetched => Acked
    case PostApplying => Acked
    case CloneNew => Remote(world.refs, world.names, true)
    case FetchOrigin => Remote(world.refs, world.names, true)
    case ReadLog => world.log
    case _ => Succeeds
  }

  function Remaining(s: Stage): nat {
    match s
    case PostFetching => 13
    case StatParent => 12
    case ProbeRepo => 11
    case ProbePath => 10
    case CloneNew => 9
    case FetchOrigin => 8
    case PostFetched => 7
    case PostApplying => 6
    case VerifyCommit => 5
    case ResetHard => 4
    case ReadHead => 3
    case ReadLog => 2
    case PostLast(_) => 1
    case Done => 0
  }

  lemma StagesAdvance(run: Run, reply: Reply)
    requires !run.stage.Done?
    ensures Remaining(Resume(run, reply).stage) < Remaining(run.stage)
  {
  }

  /** The failure-free run to its end, with the last receipt it posts. */
  function Finish(places: Places, run: Run, world: World): (Places, Option<Row>)
    decreases Remaining(run.stage)
  {
    if run.stage.Done? then (places, None)
    else if run.stage.PostLast? then (places, Some(run.stage.row))
    else
      var o := Smooth(run.stage, world);
      StagesAdvance(run, Perform(places, run.plan.place, Next(run), o).1);
      var (places', run') := Step(places, run, o);
      Finish(places', run', world)
  }

  // ---------------------------------------------------------------- how it ends

  /** The repository the clone or the fetch leaves. */
  function Left(places: Places, plan: Plan, world: World): Option<Repo> {
    if plan.place !in places then
      if plan.branch in world.refs
      then Some(Repo(world.refs, world.names, world.refs[plan.branch], world.refs[plan.branch]))
      else None
    else match places[plan.place]
      case Git(repo) => Some(repo.(refs := repo.refs + world.refs, names := world.names))
      case _ => None
  }

  /** What was found when nothing can be cloned or fetched. */
  function NotUpdatable(places: Places, place: string): Reason {
    if place !in places then CloneFailed
    else if places[place].PlainDirectory? then NotARepository
    else RepoCheckFailed
  }

  /** The end of the run whose parent directory is accepted. */
  function Ended(places: Places, plan: Plan, world: World): (Places, Option<Row>)
    requires LogFields(world.log)
  {
    var left := Left(places, plan, world);
    if left.None? then (places, Some(FailedRow(plan, NotUpdatable(places, plan.place))))
    else Reset(places[plan.place := Git(left.value)], left.value, plan, world)
  }

  /** The end of a run whose update left the repository. */
  function Reset(places: Places, left: Repo, plan: Plan, world: World): (Places, Option<Row>)
    requires LogFields(world.log)
  {
    var target := Resolve(left, TargetOf(plan));
    if target.None? then (places, Some(FailedRow(plan, if plan.desired != "" then CommitNotFound else ResetFailed)))
    else
      var record := LogRecord(target.value, world.log);
      (places[plan.place := Git(At(left, target.value))],
       Some(if record.Some? then AppliedRow(plan, record.value) else FailedRow(plan, ReadCommitFailed)))
  }

  function Outcomes(places: Places, plan: Plan, world: World): (Places, Option<Row>)
    requires LogFields(world.log)
  {
    if plan.parent.Some? then (places, Some(FailedRow(plan, InvalidParent(plan.parent.value))))
    else Ended(places, plan, world)
  }

  // ---------------------------------------------------------------- call by call

  lemma OneCall(places: Places, run: Run, world: World, places': Places, run': Run)
    requires !run.stage.Done? && !run.stage.PostLast?
    requires Step(places, run, Smooth(run.stage, world)) == (places', run')
    ensures Finish(places, run, world) == Finish(places', run', world)
  {
  }

  lemma LastCalls(places: Places, run: Run, world: World)
    requires run.stage.ReadHead? && RepoAt(places, run.plan.place) && LogFields(world.log)
    ensures var record := LogRecord(places[run.plan.place].repo.head, world.log);
      Finish(places, run, world)
      == (places, Some(if record.Some? then AppliedRow(run.plan, record.value) else FailedRow(run.plan, ReadCommitFailed)))
  {
    var record := LogRecord(places[run.plan.place].repo.head, world.log);
    OneCall(places, run, world, places, run.(stage := ReadLog));
    OneCall(places, run.(stage := ReadLog), world, places, run.(stage := AfterLog(run, Observed(record))));
  }

  lemma ResetCall(places: Places, run: Run, world: World)
    requires run.stage.ResetHard? && RepoAt(places, run.plan.place) && LogFields(world.log)
    requires run.plan.desired != "" ==> Resolve(places[run.plan.place].repo, TargetOf(run.plan)).Some?
    ensures Finish(places, run, world) == Reset(places, places[run.plan.place].repo, run.plan, world)
  {
    var plan, left := run.plan, places[run.plan.place].repo;
    var target := Resolve(left, TargetOf(plan));
    if target.None? {
      OneCall(places, run, world, places, run.(stage := Failing(run, ResetFailed)));
    } else {
      var moved := places[plan.place := Git(At(left, target.value))];
      OneCall(places, run, world, moved, run.(stage := ReadHead));
      LastCalls(moved, run.(stage := ReadHead), world);
    }
  }

  lemma ApplyCalls(places: Places, run: Run, world: World)
    requires run.stage.PostApplying? && RepoAt(places, run.plan.place) && LogFields(world.log)
    ensures Finish(places, run, world) == Reset(places, places[run.plan.place].repo, run.plan, world)
  {
    if run.plan.desired == "" {
      OneCall(places, run, world, places, run.(stage := ResetHard));
      ResetCall(places, run.(stage := ResetHard), world);
    } else {
      OneCall(places, run, world, places, run.(stage := VerifyCommit));
      VerifyCalls(places, run.(stage := VerifyCommit), world);
    }
  }

  lemma VerifyCalls(places: Places, run: Run, world: World)
    requires run.stage.VerifyCommit? && run.plan.desired != "" && RepoAt(places, run.plan.place) && LogFields(world.log)
    ensures Finish(places, run, world) == Reset(places, places[run.plan.place].repo, run.plan, world)
  {
    if Resolve(places[run.plan.place].repo, TargetOf(run.plan)).Some? {
      OneCall(places, run, world, places, run.(stage := ResetHard));
      ResetCall(places, run.(stage := ResetHard), world);
    } else {
      OneCall(places, run, world, places, run.(stage := Failing(run, CommitNotFound)));
    }
  }

  lemma AfterUpdateCalls(places: Places, run: Run, world: World)
    requires run.stage == AfterUpdate(run.plan) && RepoAt(places, run.plan.place) && LogFields(world.log)
    ensures Finish(places, run, world) == Reset(places, places[run.plan.place].repo, run.plan, world)
  {
    if run.stage.PostFetched? {
      OneCall(places, run, world, places, run.(stage := PostApplying));
    }
    ApplyCalls(places, run.(stage := PostApplying), world);
  }

  lemma FetchCall(places: Places, run: Run, world: World)
    requires run.stage.FetchOrigin? && RepoAt(places, run.plan.place) && LogFields(world.log)
    ensures Finish(places, run, world) == Ended(places, run.plan, world)
  {
    var places' := places[run.plan.place := Git(Left(places, run.plan, world).value)];
    OneCall(places, run, world, places', run.(stage := AfterUpdate(run.plan)));
    AfterUpdateCalls(places', run.(stage := AfterUpdate(run.plan)), world);
  }

  lemma CloneCall(places: Places, run: Run, world: World)
    requires run.stage.CloneNew? && run.plan.place !in places && LogFields(world.log)
    ensures Finish(places, run, world) == Ended(places, run.plan, world)
  {
    if run.plan.branch in world.refs {
      var places' := places[run.plan.place := Git(Left(places, run.plan, world).value)];
      OneCall(places, run, world, places', run.(stage := AfterUpdate(run.plan)));
      AfterUpdateCalls(places', run.(stage := AfterUpdate(run.plan)), world);
    } else {
      OneCall(places, run, world, places, run.(stage := Failing(run, CloneFailed)));
    }
  }

  /** No repository at the path. */
  lemma PathCalls(places: Places, run: Run, world: World)
    requires run.stage.ProbePath? && LogFields(world.log) && (run.plan.place in places ==> places[run.plan.place].PlainDirectory?)
    ensures Finish(places, run, world) == Ended(places, run.plan, world)
  {
    if run.plan.place in places {
      OneCall(places, run, world, places, run.(stage := Failing(run, NotARepository)));
    } else {
      OneCall(places, run, world, places, run.(stage := CloneNew));
      CloneCall(places, run.(stage := CloneNew), world);
    }
  }

  lemma ProbeCalls(places: Places, run: Run, world: World)
    requires run.stage.ProbeRepo? && LogFields(world.log)
    ensures Finish(places, run, world) == Ended(places, run.plan, world)
  {
    if RepoAt(places, run.plan.place) {
      OneCall(places, run, world, places, run.(stage := FetchOrigin));
      FetchCall(places, run.(stage := FetchOrigin), world);
    } else if run.plan.place in places && !places[run.plan.place].PlainDirectory? {
      OneCall(places, run, world, places, run.(stage := Failing(run, RepoCheckFailed)));
    } else {
      OneCall(places, run, world, places, run.(stage := ProbePath));
      PathCalls(places, run.(stage := ProbePath), world);
    }
  }

  /** Where a run whose checks passed begins, by the ledger's phase. */
  predicate Begun(run: Run) {
    run.stage == if run.plan.skipFetching then AfterFetching(run.plan) else PostFetching
  }

  lemma BeginBegun(cfg: Config, intent: GitIntent, echo: string, gitFound: bool, keyUsable: bool)
    requires Precheck(cfg, intent, gitFound, keyUsable).None?
    ensures var run := Begin(cfg, intent, echo, gitFound, keyUsable); Begun(run) && run.plan == PlanFor(cfg, intent, echo)
  {
  }

  /** From every ledger phase and whatever is found at the deploy path, the failure-free run ends exactly so: with
      the parent refused, with what is in the way of an update, with a target that does not resolve, or at it. */
  lemma FinishExactly(places: Places, run: Run, world: World)
    requires Begun(run) && LogFields(world.log)
    ensures Finish(places, run, world) == Outcomes(places, run.plan, world)
  {
    var run1 := run.(stage := AfterFetching(run.plan));
    if !run.plan.skipFetching {
      OneCall(places, run, world, places, run1);
    }
    if run.plan.parent.None? {
      OneCall(places, run1, world, places, run.(stage := ProbeRepo));
      ProbeCalls(places, run.(stage := ProbeRepo), world);
    }
  }

  // ---------------------------------------------------------------- when it converges

  /** The path is free to be cloned into, or holds a repository. */
  predicate Usable(places: Places, plan: Plan, world: World) {
    if plan.place in places then places[plan.place].Git? else plan.branch in world.refs
  }

  /** HEAD and tree are at what the target resolves to in the repository the update left. */
  predicate ConvergedAt(places: Places, after: Places, plan: Plan, world: World) {
    var left := Left(places, plan, world);
    && RepoAt(after, plan.place) && left.Some?
    && var r := after[plan.place].repo; r.head == r.tree && Resolve(left.value, TargetOf(plan)) == Some(r.head)
  }

  predicate EndsApplied(row: Option<Row>) {
    row.Some? && row.value.body.GitBody? && row.value.body.git.GitApplied?
  }

  /** The failure-free run reports `applied` exactly when the parent passes, the path is free or a repository, the
      target resolves in what the clone or fetch leaves, and the log has at most two terminators; HEAD and tree
      are then at that target. */
  lemma ConvergesExactly(places: Places, run: Run, world: World)
    requires Begun(run) && LogFields(world.log)
    ensures EndsApplied(Finish(places, run, world).1) <==> (
        && run.plan.parent.None? && Usable(places, run.plan, world)
        && Resolve(Left(places, run.plan, world).value, TargetOf(run.plan)).Some? && world.log.terminators <= 2)
    ensures var (after, row) := Finish(places, run, world);
      EndsApplied(row) ==> (
        ConvergedAt(places, after, run.plan, world) && row.value.body.commit == Some(after[run.plan.place].repo.head))
  {
    FinishExactly(places, run, world);
  }

  // ---------------------------------------------------------------- after killed runs

  /** Any git run from its beginning, cut off after the given outcomes. */
  datatype Attempt = Attempt(run: Run, outcomes: seq<Outcome>)

  function After(places: Places, attempts: seq<Attempt>): Places
    decreases |attempts|
  {
    if attempts == [] then places
    else After(Steps(places, attempts[0].run, attempts[0].outcomes).0, attempts[1..])
  }

  /** The path is free or holds a repository. */
  predicate Workable(places: Places, place: string) {
    place in places ==> places[place].Git?
  }

  lemma StepWorkable(places: Places, run: Run, o: Outcome, place: string)
    requires !run.stage.Done? && Workable(places, place)
    ensures Workable(Step(places, run, o).0, place)
  {
  }

  lemma {:induction false} StepsWorkable(places: Places, run: Run, os: seq<Outcome>, place: string)
    requires Workable(places, place)
    ensures Workable(Steps(places, run, os).0, place)
    decreases |os|
  {
    if os != [] && !run.stage.Done? {
      StepWorkable(places, run, os[0], place);
      var (places', run') := Step(places, run, os[0]);
      StepsWorkable(places', run', os[1..], place);
    }
  }

  lemma {:induction false} AfterWorkable(places: Places, attempts: seq<Attempt>, place: string)
    requires Workable(places, place)
    ensures Workable(After(places, attempts), place)
    decreases |attempts|
  {
    if attempts != [] {
      StepsWorkable(places, attempts[0].run, attempts[0].outcomes, place);
      AfterWorkable(Steps(places, attempts[0].run, attempts[0].outcomes).0, attempts[1..], place);
    }
  }

  /** What the remote alone says the target is. */
  function Offered(plan: Plan, world: World): Option<Hash> {
    if plan.branch !in world.refs then None
    else Resolve(Repo(world.refs, world.names, world.refs[plan.branch], world.refs[plan.branch]), TargetOf(plan))
  }

  lemma LeftResolves(places: Places, plan: Plan, world: World)
    requires Workable(places, plan.place) && Offered(plan, world).Some?
    ensures Left(places, plan, world).Some? && Resolve(Left(places, plan, world).value, TargetOf(plan)) == Offered(plan, world)
  {
  }

  /** The failure-free run on a workable place ends at what the remote offers, whatever was there. */
  lemma EndsAtOffered(places: Places, run: Run, world: World)
    requires Begun(run) && run.plan.parent.None? && LogFields(world.log) && world.log.terminators <= 2
    requires Workable(places, run.plan.place) && Offered(run.plan, world).Some?
    ensures var h, left := Offered(run.plan, world).value, Left(places, run.plan, world);
      && left.Some?
      && Finish(places, run, world)
         == (places[run.plan.place := Git(At(left.value, h))], Some(AppliedRow(run.plan, LogRecord(h, world.log).value)))
  {
    FinishExactly(places, run, world);
    LeftResolves(places, run.plan, world);
    var left := Left(places, run.plan, world).value;
    SetTwice(places, run.plan.place, Git(left), Git(At(left, Offered(run.plan, world).value)));
  }

  lemma SetTwice(places: Places, place: string, a: Place, b: Place)
    ensures places[place := a][place := b] == places[place := b]
  {
  }

  /** Kill git runs of any sites anywhere and as often as you like; then run an intent without failures. It ends
      applied at what the remote offers for its target, as it would have done without the killed runs, and running
      it once more changes nothing at all. */
  lemma CrashedRunsConverge(places: Places, attempts: seq<Attempt>, run: Run, world: World)
    requires Begun(run) && run.plan.parent.None? && LogFields(world.log) && world.log.terminators <= 2
    requires Workable(places, run.plan.place) && Offered(run.plan, world).Some?
    ensures var straight, recovered := Finish(places, run, world), Finish(After(places, attempts), run, world);
      && RepoAt(straight.0, run.plan.place) && RepoAt(recovered.0, run.plan.place)
      && recovered.0[run.plan.place].repo.head == recovered.0[run.plan.place].repo.tree == Offered(run.plan, world).value
      && straight.0[run.plan.place].repo.head == straight.0[run.plan.place].repo.tree == Offered(run.plan, world).value
      && recovered.1 == straight.1 && EndsApplied(recovered.1)
      && Finish(recovered.0, run, world) == recovered
  {
    var crashed := After(places, attempts);
    AfterWorkable(places, attempts, run.plan.place);
    EndsAtOffered(places, run, world);
    EndsAtOffered(crashed, run, world);
    var recovered := Finish(crashed, run, world).0;
    EndsAtOffered(recovered, run, world);
    LeftTwice(crashed, run.plan, world);
  }

  /** Fetching the same again leaves the repository as it is. */
  lemma LeftTwice(places: Places, plan: Plan, world: World)
    requires Workable(places, plan.place) && Offered(plan, world).Some? && Left(places, plan, world).Some?
    ensures var h := Offered(plan, world).value;
      var after := places[plan.place := Git(At(Left(places, plan, world).value, h))];
      Left(after, plan, world).Some? && after[plan.place := Git(At(Left(after, plan, world).value, h))] == after
  {
    var r := Left(places, plan, world).value;
    assert r.refs + world.refs == r.refs;
  }
}
