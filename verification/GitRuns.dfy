/** What a git run, cut off anywhere, does to repositories, and what its receipts prove. */
module GitRuns {
  import opened Text
  import opened UnixPath
  import opened Utf8
  import opened CommitRecord
  import opened Protocol
  import opened GitLeg

  // ---------------------------------------------------------------- hashes as printed

  lemma HashTrims(h: Hash)
    ensures TrimBytes(h) == h && NulFree(h)
  {
    var t := TrimLeftBytes(h);
    assert DecodeFirst(h).rune == h[0];
    assert !IsSpaceRune(DecodeFirst(h).rune);
    var n := |h| - 1;
    assert LastStart(h, n, 3) == n;
    assert h[n..] == [h[n]];
  }

  /** The record a run reads is what parsing git's raw output gives, and its id is HEAD's. */
  lemma RecordIsParsed(head: Hash, o: Outcome)
    requires LogFields(o)
    ensures LogRecord(head, o) == Fields(LogOutput(head, o.subject, o.author, o.terminators))
  {
    HashTrims(head);
    FieldsRoundTrip(head, o.subject, o.author, o.terminators);
  }

  // ---------------------------------------------------------------- stages

  predicate Updated(s: Stage) {
    s.PostFetched? || s.PostApplying? || s.VerifyCommit? || s.ResetHard? || AtTarget(s)
  }

  predicate AppliedAt(s: Stage) {
    s.PostLast? && s.row.body.GitBody? && s.row.body.git.GitApplied?
  }

  /** HEAD has been moved. */
  predicate AtTarget(s: Stage) {
    s.ReadHead? || s.ReadLog? || AppliedAt(s)
  }

  predicate RepoAt(places: Places, place: string) {
    place in places && places[place].Git?
  }

  /** What the repository is known to be when the run is at a stage. */
  predicate Truthful(run: Run, places: Places) {
    && (Updated(run.stage) ==> RepoAt(places, run.plan.place))
    && (AtTarget(run.stage) ==> (
        var r := places[run.plan.place].repo;
        r.tree == r.head && Resolve(r, TargetOf(run.plan)) == Some(r.head)))
    && (AppliedAt(run.stage) ==> (
        && run.stage.row.body.commit.Some?
        && run.stage.row.body.commit.value == places[run.plan.place].repo.head))
    && (run.stage.FetchOrigin? ==> RepoAt(places, run.plan.place))
  }

  lemma StepLog(places: Places, run: Run, o: Outcome)
    requires run.stage.ReadLog? && Truthful(run, places)
    ensures Truthful(Step(places, run, o).1, Step(places, run, o).0)
    ensures Step(places, run, o).0 == places
  {
  }

  lemma StepReset(places: Places, run: Run, o: Outcome)
    requires (run.stage.ResetHard? || run.stage.ReadHead?) && Truthful(run, places)
    ensures Truthful(Step(places, run, o).1, Step(places, run, o).0)
  {
  }

  lemma StepUpdate(places: Places, run: Run, o: Outcome)
    requires (run.stage.CloneNew? || run.stage.FetchOrigin? || run.stage.ProbeRepo?) && Truthful(run, places)
    ensures Truthful(Step(places, run, o).1, Step(places, run, o).0)
  {
  }

  lemma StepOther(places: Places, run: Run, o: Outcome)
    requires !run.stage.Done? && !run.stage.ReadLog? && !run.stage.ResetHard? && !run.stage.ReadHead?
    requires !run.stage.CloneNew? && !run.stage.FetchOrigin? && !run.stage.ProbeRepo? && Truthful(run, places)
    ensures Truthful(Step(places, run, o).1, Step(places, run, o).0)
  {
  }

  lemma StepTruthful(places: Places, run: Run, o: Outcome)
    requires !run.stage.Done? && Truthful(run, places)
    ensures Truthful(Step(places, run, o).1, Step(places, run, o).0)
  {
    if run.stage.ReadLog? {
      StepLog(places, run, o);
    } else if run.stage.ResetHard? || run.stage.ReadHead? {
      StepReset(places, run, o);
    } else if run.stage.CloneNew? || run.stage.FetchOrigin? || run.stage.ProbeRepo? {
      StepUpdate(places, run, o);
    } else {
      StepOther(places, run, o);
    }
  }

  lemma {:induction false} StepsTruthful(places: Places, run: Run, os: seq<Outcome>)
    requires Truthful(run, places)
    ensures Truthful(Steps(places, run, os).1, Steps(places, run, os).0)
    decreases |os|
  {
    if os != [] && !run.stage.Done? {
      StepTruthful(places, run, os[0]);
      var (places', run') := Step(places, run, os[0]);
      StepsTruthful(places', run', os[1..]);
    }
  }

  // ---------------------------------------------------------------- what the intent asks for

  /** The commit an intent asks for, given branches and names: its desired commit, for want of one its branch. */
  function AskedIn(intent: GitIntent, refs: map<string, Hash>, names: map<string, Hash>): Option<Hash> {
    var text, branch := Trim(intent.desired), Trim(intent.branch);
    if text != "" then (if text in names then Some(names[text]) else None)
    else if branch in refs then Some(refs[branch])
    else None
  }

  function AskedFor(intent: GitIntent, r: Repo): Option<Hash> {
    AskedIn(intent, r.refs, r.names)
  }

  /** Where an intent wants it. */
  function PlaceOf(intent: GitIntent): string {
    Clean(Trim(intent.deployPath))
  }

  /** The plan serves its intent: site, place, what to deploy there, and the tls_state to report. */
  predicate OfIntent(plan: Plan) {
    && plan.site == plan.intent.site && plan.place == PlaceOf(plan.intent)
    && plan.branch == Trim(plan.intent.branch) && plan.desired == Trim(plan.intent.desired)
    && plan.tls == (if Trim(plan.echo) == "" then "none" else Trim(plan.echo))
  }

  lemma TargetIsAsked(plan: Plan, r: Repo)
    requires OfIntent(plan)
    ensures Resolve(r, TargetOf(plan)) == AskedFor(plan.intent, r)
  {
  }

  lemma BeginServes(cfg: Config, intent: GitIntent, echo: string, gitFound: bool, keyUsable: bool)
    ensures var plan := Begin(cfg, intent, echo, gitFound, keyUsable).plan;
      plan.intent == intent && plan.echo == echo && OfIntent(plan)
  {
  }

  predicate Starting(run: Run) {
    run.stage.PostFetching? || run.stage.StatParent?
    || (run.stage.PostLast? && run.stage.row.body.GitBody? && run.stage.row.body.git.GitFailed?
        && run.stage.row.body.gitReason != Some(ReadCommitFailed))
  }

  lemma BeginStarts(cfg: Config, intent: GitIntent, echo: string, gitFound: bool, keyUsable: bool)
    ensures var run := Begin(cfg, intent, echo, gitFound, keyUsable); run.plan == PlanFor(cfg, intent, echo) && Starting(run)
  {
  }

  lemma StartingTruthful(run: Run, places: Places)
    requires Starting(run)
    ensures Truthful(run, places)
  {
  }

  lemma BeginTruthful(cfg: Config, intent: GitIntent, echo: string, gitFound: bool, keyUsable: bool, places: Places)
    ensures Truthful(Begin(cfg, intent, echo, gitFound, keyUsable), places)
  {
    BeginStarts(cfg, intent, echo, gitFound, keyUsable);
    StartingTruthful(Begin(cfg, intent, echo, gitFound, keyUsable), places);
  }

  // ---------------------------------------------------------------- what the fetch or clone left

  /** Branches and names at a place, as two states see them. */
  predicate SameRefs(a: Places, b: Places, place: string) {
    && RepoAt(a, place) && RepoAt(b, place)
    && a[place].repo.refs == b[place].repo.refs && a[place].repo.names == b[place].repo.names
  }

  lemma StepKeepsRefs(places: Places, run: Run, o: Outcome)
    requires Updated(run.stage) && Truthful(run, places)
    ensures SameRefs(places, Step(places, run, o).0, run.plan.place)
  {
    if run.stage.ReadLog? {
      StepLog(places, run, o);
    }
  }

  /** Later stages of a run that has fetched or cloned. */
  predicate Later(s: Stage) {
    Updated(s) || s.PostLast? || s.Done?
  }

  lemma StaysLater(places: Places, run: Run, o: Outcome)
    requires !run.stage.Done? && Later(run.stage)
    ensures Later(Step(places, run, o).1.stage)
  {
    assert Later(Resume(run, Perform(places, run.plan.place, Next(run), o).1).stage);
  }

  lemma {:induction false} StepsKeepRefs(places: Places, run: Run, os: seq<Outcome>)
    requires Later(run.stage) && Truthful(run, places) && RepoAt(places, run.plan.place)
    ensures SameRefs(places, Steps(places, run, os).0, run.plan.place)
    decreases |os|
  {
    if os != [] && !run.stage.Done? {
      StepTruthful(places, run, os[0]);
      StaysLater(places, run, os[0]);
      if !run.stage.PostLast? {
        StepKeepsRefs(places, run, os[0]);
      } else {
        LastPost(places, run, os[0]);
      }
      var (places', run') := Step(places, run, os[0]);
      StepsKeepRefs(places', run', os[1..]);
    }
  }

  lemma LastPost(places: Places, run: Run, o: Outcome)
    requires run.stage.PostLast?
    ensures Step(places, run, o) == (places, run.(stage := Done))
  {
  }

  /** Where the run's own clone or fetch is called, as an index into the outcomes. */
  function UpdateCall(places: Places, run: Run, os: seq<Outcome>): nat
    decreases |os|
  {
    if os == [] || run.stage.Done? || run.stage.CloneNew? || run.stage.FetchOrigin? then 0
    else
      var (places', run') := Step(places, run, os[0]);
      1 + UpdateCall(places', run', os[1..])
  }

  /** Before the clone or fetch. */
  predicate NotUpdated(s: Stage) {
    s.PostFetching? || s.StatParent? || s.ProbeRepo? || s.ProbePath? || s.CloneNew? || s.FetchOrigin?
  }

  /** The run can no longer reach an applied receipt. */
  predicate Hopeless(s: Stage) {
    s.Done? || (s.PostLast? && !AppliedAt(s))
  }

  lemma ResumeNotUpdated(run: Run, reply: Reply)
    requires NotUpdated(run.stage)
    ensures var s := Resume(run, reply).stage;
      if run.stage.CloneNew? || run.stage.FetchOrigin? then Hopeless(s) || (Updated(s) && !AtTarget(s))
      else Hopeless(s) || NotUpdated(s)
  {
  }

  lemma {:induction false} HopelessStays(places: Places, run: Run, os: seq<Outcome>)
    requires Hopeless(run.stage)
    ensures Hopeless(Steps(places, run, os).1.stage)
    decreases |os|
  {
    if os != [] && !run.stage.Done? {
      LastPost(places, run, os[0]);
      HopelessStays(places, run.(stage := Done), os[1..]);
    }
  }

  lemma StepsFirst(places: Places, run: Run, os: seq<Outcome>, n: nat)
    requires 0 < n <= |os| && !run.stage.Done?
    ensures Steps(places, run, os[..n]) == Steps(Step(places, run, os[0]).0, Step(places, run, os[0]).1, os[1..][..n - 1])
  {
    assert os[..n][0] == os[0] && os[..n][1..] == os[1..][..n - 1];
  }

  /** A run that reaches its applied receipt has called clone or fetch itself, and that call succeeded. */
  lemma {:induction false} UpdatedByItself(places: Places, run: Run, os: seq<Outcome>)
    requires NotUpdated(run.stage) && AppliedAt(Steps(places, run, os).1.stage)
    ensures var n := UpdateCall(places, run, os);
      && n < |os|
      && var s, t := Steps(places, run, os[..n]).1.stage, Steps(places, run, os[..n + 1]).1.stage;
         (s.CloneNew? || s.FetchOrigin?) && Updated(t) && !AtTarget(t)
    decreases |os|
  {
    var (places', run') := Step(places, run, os[0]);
    ResumeNotUpdated(run, Perform(places, run.plan.place, Next(run), os[0]).1);
    if Hopeless(run'.stage) {
      HopelessStays(places', run', os[1..]);
    } else {
      StepsFirst(places, run, os, 1);
      if !run.stage.CloneNew? && !run.stage.FetchOrigin? {
        UpdatedByItself(places', run', os[1..]);
        OneCallEarlier(places, run, os, UpdateCall(places', run', os[1..]));
      }
    }
  }

  lemma OneCallEarlier(places: Places, run: Run, os: seq<Outcome>, n: nat)
    requires os != [] && !run.stage.Done? && n < |os[1..]|
    ensures var (places', run') := Step(places, run, os[0]);
      && Steps(places, run, os[..n + 1]) == Steps(places', run', os[1..][..n])
      && Steps(places, run, os[..n + 2]) == Steps(places', run', os[1..][..n + 1])
  {
    StepsFirst(places, run, os, n + 1);
    StepsFirst(places, run, os, n + 2);
  }

  lemma {:induction false} StepsSplit(places: Places, run: Run, os: seq<Outcome>, n: nat)
    requires n <= |os|
    ensures var (mid, last) := Steps(places, run, os[..n]); Steps(mid, last, os[n..]) == Steps(places, run, os)
    decreases n
  {
    if n > 0 && !run.stage.Done? {
      var (places', run') := Step(places, run, os[0]);
      StepsFirst(places, run, os, n);
      StepsSplit(places', run', os[1..], n - 1);
      assert os[1..][n - 1..] == os[n..];
    }
  }

  /** A run that gets as far as its applied receipt has cloned or fetched itself; HEAD and tree are at the
      reported commit, which is what the intent asked for in the repository as that very call left it. */
  lemma AppliedIsTrue(places: Places, run: Run, os: seq<Outcome>)
    requires Starting(run) && AppliedAt(Steps(places, run, os).1.stage)
    ensures var n := UpdateCall(places, run, os);
      && n < |os|
      && var before, left := Steps(places, run, os[..n]).1, Steps(places, run, os[..n + 1]);
         (before.stage.CloneNew? || before.stage.FetchOrigin?) && Updated(left.1.stage) && !AtTarget(left.1.stage)
    ensures var left := Steps(places, run, os[..UpdateCall(places, run, os) + 1]).0;
      var (now, last) := Steps(places, run, os);
      var place, c := run.plan.place, last.stage.row.body.commit;
      && RepoAt(left, place) && RepoAt(now, place) && c.Some?
      && now[place].repo.head == c.value && now[place].repo.tree == c.value
      && Resolve(left[place].repo, TargetOf(run.plan)) == c
  {
    if !NotUpdated(run.stage) {
      HopelessStays(places, run, os);
    }
    UpdatedByItself(places, run, os);
    var n := UpdateCall(places, run, os);
    AppliedAfter(places, run, os, n + 1);
  }

  /** The same, for any point after the clone or fetch and before the reset. */
  lemma AppliedAfter(places: Places, run: Run, os: seq<Outcome>, n: nat)
    requires Starting(run) && n <= |os| && AppliedAt(Steps(places, run, os).1.stage)
    requires Updated(Steps(places, run, os[..n]).1.stage)
    ensures var left := Steps(places, run, os[..n]).0;
      var (now, last) := Steps(places, run, os);
      var place, c := run.plan.place, last.stage.row.body.commit;
      && RepoAt(left, place) && RepoAt(now, place) && c.Some?
      && now[place].repo.head == c.value && now[place].repo.tree == c.value
      && Resolve(left[place].repo, TargetOf(run.plan)) == c
  {
    StepsTruthful(places, run, os[..n]);
    var (left, mid) := Steps(places, run, os[..n]);
    StepsSplit(places, run, os, n);
    StepsTruthful(left, mid, os[n..]);
    StepsKeepRefs(left, mid, os[n..]);
  }

  // ---------------------------------------------------------------- failing before the reset

  /** HEAD and tree of an existing repository are where they were. */
  predicate Unmoved(before: Places, after: Places, place: string) {
    RepoAt(before, place) ==> (
      && RepoAt(after, place)
      && after[place].repo.head == before[place].repo.head && after[place].repo.tree == before[place].repo.tree)
  }

  /** The call at this index is the run's reset, and it succeeds. */
  predicate ResetAt(places: Places, run: Run, os: seq<Outcome>, n: nat)
    requires n < |os|
  {
    Steps(places, run, os[..n]).1.stage.ResetHard? && Steps(places, run, os[..n + 1]).1.stage.ReadHead?
  }

  lemma StepUnmoved(places: Places, run: Run, o: Outcome)
    requires !run.stage.Done? && !(run.stage.ResetHard? && Step(places, run, o).1.stage.ReadHead?)
    ensures Unmoved(places, Step(places, run, o).0, run.plan.place)
  {
  }

  /** A run without a successful reset, finished or cut off anywhere, leaves HEAD and tree where they were. */
  lemma {:induction false} StepsUnmoved(places: Places, run: Run, os: seq<Outcome>)
    requires forall n :: 0 <= n < |os| ==> !ResetAt(places, run, os, n)
    ensures Unmoved(places, Steps(places, run, os).0, run.plan.place)
    decreases |os|
  {
    if os != [] && !run.stage.Done? {
      var (places', run') := Step(places, run, os[0]);
      StepsFirst(places, run, os, 1);
      assert !ResetAt(places, run, os, 0);
      StepUnmoved(places, run, os[0]);
      forall n | 0 <= n < |os[1..]| ensures !ResetAt(places', run', os[1..], n) {
        OneCallEarlier(places, run, os, n);
        assert !ResetAt(places, run, os, n + 1);
      }
      StepsUnmoved(places', run', os[1..]);
    }
  }

  /** The stage tells that the run has not reset: it precedes the reset, or is a failure that does. */
  predicate BeforeReset(s: Stage) {
    && !s.ReadHead? && !s.ReadLog? && !s.Done?
    && (s.PostLast? ==> s.row.body.GitBody? && s.row.body.git.GitFailed? && s.row.body.gitReason != Some(ReadCommitFailed))
  }

  lemma StepBefore(places: Places, run: Run, o: Outcome)
    requires !run.stage.Done? && BeforeReset(Step(places, run, o).1.stage)
    ensures BeforeReset(run.stage)
  {
  }

  lemma {:induction false} StepsBefore(places: Places, run: Run, os: seq<Outcome>)
    requires BeforeReset(Steps(places, run, os).1.stage)
    ensures BeforeReset(run.stage)
    decreases |os|
  {
    if os != [] && !run.stage.Done? {
      var (places', run') := Step(places, run, os[0]);
      StepsBefore(places', run', os[1..]);
      StepBefore(places, run, os[0]);
    }
  }

  /** In particular a run that stands before its reset, or before the receipt of a failure that precedes it. */
  lemma FailedUnmoved(places: Places, run: Run, os: seq<Outcome>)
    requires BeforeReset(Steps(places, run, os).1.stage)
    ensures Unmoved(places, Steps(places, run, os).0, run.plan.place)
  {
    forall n | 0 <= n < |os| ensures !ResetAt(places, run, os, n) {
      StepsSplit(places, run, os, n + 1);
      var (mid, last) := Steps(places, run, os[..n + 1]);
      StepsBefore(mid, last, os[n + 1..]);
    }
    StepsUnmoved(places, run, os);
  }

  /** Whatever a run does, repositories at other deploy paths stay exactly as they were. */
  lemma StepElsewhere(places: Places, run: Run, o: Outcome, place: string)
    requires !run.stage.Done? && place != run.plan.place
    ensures place in Step(places, run, o).0 <==> place in places
    ensures place in places ==> Step(places, run, o).0[place] == places[place]
  {
  }

  lemma {:induction false} StepsElsewhere(places: Places, run: Run, os: seq<Outcome>, place: string)
    requires place != run.plan.place
    ensures place in Steps(places, run, os).0 <==> place in places
    ensures place in places ==> Steps(places, run, os).0[place] == places[place]
    decreases |os|
  {
    if os != [] && !run.stage.Done? {
      StepElsewhere(places, run, os[0], place);
      var (places', run') := Step(places, run, os[0]);
      StepsElsewhere(places', run', os[1..], place);
    }
  }
}
