/** Git receipts of the whole agent are truthful. */
module GitReceipts {
  import opened Text
  import opened Utf8
  import opened Protocol
  import opened Agent
  import opened TlsEcho
  import opened GitRuns
  import G = GitLeg

  predicate Honest(a: State) {
    a.leg.OnGit? ==> OfIntent(a.leg.git.plan) && (!a.leg.git.stage.Done? ==> Truthful(a.leg.git, a.places))
  }

  lemma CallPlaces(a: State, run: G.Run, o: Outcome)
    requires !run.stage.Done?
    ensures var a' := GitStep(a, run, o);
      a'.leg.OnGit? && a'.places == G.Step(a.places, run, o).0 && a'.leg.git == G.Step(a.places, run, o).1
  {
  }

  lemma StartHonest(cfg: Config, a: State, e: Event)
    requires e.Start? && Possible(cfg, a, e)
    ensures Honest(Effect(cfg, a, e))
  {
    if a.gitQueue != [] {
      var intent := a.gitQueue[0];
      BeginTruthful(cfg, intent, EchoOf(a, intent.site), e.gitFound, e.keyUsable, a.places);
      BeginServes(cfg, intent, EchoOf(a, intent.site), e.gitFound, e.keyUsable);
    }
  }

  lemma EventHonest(cfg: Config, a: State, e: Event)
    requires Honest(a)
    ensures Honest(Happens(cfg, a, e))
  {
    if Possible(cfg, a, e) {
      match e
      case Call(o) =>
        if a.leg.OnGit? {
          CallPlaces(a, a.leg.git, o);
          StepTruthful(a.places, a.leg.git, o);
        } else {
          NginxCallLeg(cfg, a, o);
        }
      case Start(_, _, _) => StartHonest(cfg, a, e);
      case _ =>
    }
  }

  lemma NginxCallLeg(cfg: Config, a: State, o: Outcome)
    requires a.leg.OnNginx? && !a.leg.nginx.stage.Done?
    ensures NginxStep(cfg, a, a.leg.nginx, o).leg.OnNginx?
  {
  }

  /** HEAD and tree at the intent's place are at the commit, and it is the one the intent asks for there. */
  predicate Deployed(intent: GitIntent, places: G.Places, commit: Option<seq<byte>>) {
    && RepoAt(places, PlaceOf(intent)) && commit.Some?
    && var r := places[PlaceOf(intent)].repo;
       r.head == commit.value && r.tree == commit.value && AskedFor(intent, r) == Some(r.head)
  }

  lemma TruthDeploys(run: G.Run, places: G.Places)
    requires OfIntent(run.plan) && Truthful(run, places) && AppliedAt(run.stage)
    ensures Deployed(run.plan.intent, places, run.stage.row.body.commit)
  {
    TargetIsAsked(run.plan, places[run.plan.place].repo);
  }

  lemma {:induction false} HonestAlong(cfg: Config, a: State, es: seq<Event>)
    requires Honest(a)
    ensures Honest(Exec(cfg, a, es))
    decreases |es|
  {
    if es != [] {
      EventHonest(cfg, a, es[0]);
      HonestAlong(cfg, Happens(cfg, a, es[0]), es[1..]);
    }
  }

  lemma HonestDeploys(a: State)
    requires Honest(a) && a.leg.OnGit? && AppliedAt(a.leg.git.stage)
    ensures NextReceipt(a.leg) == Some(a.leg.git.stage.row)
    ensures Deployed(a.leg.git.plan.intent, a.places, a.leg.git.stage.row.body.commit)
  {
    TruthDeploys(a.leg.git, a.places);
  }

  /** Whenever a git `applied` receipt is about to be sent, HEAD and the tree of the repository at the intent's
      deploy path are at the reported commit, and that commit is the one the intent asks for. */
  lemma AppliedReceiptsAreTrue(cfg: Config, a: State, es: seq<Event>)
    requires Honest(a)
    ensures var b := Exec(cfg, a, es);
      && Honest(b)
      && (b.leg.OnGit? && AppliedAt(b.leg.git.stage) ==>
            NextReceipt(b.leg).Some? && Deployed(b.leg.git.plan.intent, b.places, NextReceipt(b.leg).value.body.commit))
  {
    HonestAlong(cfg, a, es);
    var b := Exec(cfg, a, es);
    if b.leg.OnGit? && AppliedAt(b.leg.git.stage) {
      HonestDeploys(b);
    }
  }

  // ---------------------------------------------------------------- since the run's own update

  lemma {:induction false} ExecOneMore(cfg: Config, a: State, es: seq<Event>, e: Event)
    ensures Exec(cfg, a, es + [e]) == Happens(cfg, Exec(cfg, a, es), e)
    decreases |es|
  {
    if es == [] {
      assert [] + [e] == [e];
    } else {
      assert (es + [e])[1..] == es[1..] + [e];
      ExecOneMore(cfg, Happens(cfg, a, es[0]), es[1..], e);
    }
  }

  /** The state after the first events. */
  function StateAt(cfg: Config, a: State, es: seq<Event>, n: nat): State
    requires n <= |es|
  {
    Exec(cfg, a, es[..n])
  }

  lemma AtLonger(cfg: Config, a: State, es: seq<Event>, e: Event, n: nat)
    requires n <= |es|
    ensures StateAt(cfg, a, es + [e], n) == StateAt(cfg, a, es, n)
  {
    assert (es + [e])[..n] == es[..n];
  }

  /** A git run of the plan is past its clone or fetch. */
  predicate PastUpdate(a: State, plan: G.Plan) {
    a.leg.OnGit? && a.leg.git.plan == plan && Updated(a.leg.git.stage)
  }

  /** The call at this index is the run's own clone or fetch and succeeds; the run goes on from there, and branches
      and names at its place are still as that call left them. */
  ghost predicate UpdatedAt(cfg: Config, a: State, es: seq<Event>, n: nat, plan: G.Plan)
    requires n < |es|
  {
    var before := StateAt(cfg, a, es, n);
    && es[n].Call? && before.leg.OnGit? && before.leg.git.plan == plan
    && (before.leg.git.stage.CloneNew? || before.leg.git.stage.FetchOrigin?)
    && (forall m :: n < m <= |es| ==> PastUpdate(StateAt(cfg, a, es, m), plan))
    && SameRefs(StateAt(cfg, a, es, n + 1).places, Exec(cfg, a, es).places, plan.place)
  }

  /** What one event does to a run past its update. */
  lemma StaysUpdated(cfg: Config, a: State, e: Event, plan: G.Plan)
    requires Honest(a) && PastUpdate(Happens(cfg, a, e), plan)
    ensures PastUpdate(a, plan) ==> SameRefs(a.places, Happens(cfg, a, e).places, plan.place)
    ensures !PastUpdate(a, plan) ==>
      e.Call? && a.leg.OnGit? && a.leg.git.plan == plan && (a.leg.git.stage.CloneNew? || a.leg.git.stage.FetchOrigin?)
  {
    if Possible(cfg, a, e) {
      match e
      case Call(o) => CallUpdated(cfg, a, o, plan);
      case Start(_, _, _) => StartNotUpdated(cfg, a, e);
      case _ =>
    }
  }

  lemma CallUpdated(cfg: Config, a: State, o: Outcome, plan: G.Plan)
    requires Honest(a) && !a.unsaved && !Finished(a.leg) && PastUpdate(Happens(cfg, a, Call(o)), plan)
    ensures a.leg.OnGit? && a.leg.git.plan == plan
    ensures PastUpdate(a, plan) ==> SameRefs(a.places, Happens(cfg, a, Call(o)).places, plan.place)
    ensures !PastUpdate(a, plan) ==> a.leg.git.stage.CloneNew? || a.leg.git.stage.FetchOrigin?
  {
    if a.leg.OnNginx? {
      NginxCallLeg(cfg, a, o);
    } else {
      CallPlaces(a, a.leg.git, o);
      StepUpdated(a.places, a.leg.git, o);
    }
  }

  /** One call of a run that is past its update afterwards. */
  lemma StepUpdated(places: G.Places, run: G.Run, o: Outcome)
    requires !run.stage.Done? && Truthful(run, places) && Updated(G.Step(places, run, o).1.stage)
    ensures Updated(run.stage) ==> SameRefs(places, G.Step(places, run, o).0, run.plan.place)
    ensures !Updated(run.stage) ==> run.stage.CloneNew? || run.stage.FetchOrigin?
  {
    if Updated(run.stage) {
      StepKeepsRefs(places, run, o);
    } else if NotUpdated(run.stage) {
      ResumeNotUpdated(run, G.Perform(places, run.plan.place, G.Next(run), o).1);
    } else {
      LastPost(places, run, o);
    }
  }

  lemma StartNotUpdated(cfg: Config, a: State, e: Event)
    requires e.Start? && Possible(cfg, a, e)
    ensures var leg := Effect(cfg, a, e).leg; leg.OnGit? ==> !Updated(leg.git.stage)
  {
    if a.gitQueue != [] {
      BeginNotUpdated(cfg, a.gitQueue[0], EchoOf(a, a.gitQueue[0].site), e.gitFound, e.keyUsable);
    }
  }

  lemma BeginNotUpdated(cfg: Config, intent: GitIntent, echo: string, gitFound: bool, keyUsable: bool)
    ensures !Updated(G.Begin(cfg, intent, echo, gitFound, keyUsable).stage)
  {
    BeginStarts(cfg, intent, echo, gitFound, keyUsable);
  }

  /** A run past its update has made it itself, in these events. */
  lemma {:induction false} SomeUpdate(cfg: Config, a: State, es: seq<Event>, plan: G.Plan) returns (n: nat)
    requires Honest(a) && !PastUpdate(a, plan) && PastUpdate(Exec(cfg, a, es), plan)
    ensures n < |es| && UpdatedAt(cfg, a, es, n, plan)
    decreases |es|
  {
    assert es != [];
    var front, e := es[..|es| - 1], es[|es| - 1];
    assert es == front + [e];
    var b := Exec(cfg, a, front);
    ExecOneMore(cfg, a, front, e);
    HonestAlong(cfg, a, front);
    StaysUpdated(cfg, b, e, plan);
    if PastUpdate(b, plan) {
      n := SomeUpdate(cfg, a, front, plan);
      UpdatedLonger(cfg, a, front, e, n, plan);
    } else {
      n := |front|;
      UpdatedNow(cfg, a, front, e, plan);
    }
  }

  lemma UpdatedLonger(cfg: Config, a: State, es: seq<Event>, e: Event, n: nat, plan: G.Plan)
    requires n < |es| && UpdatedAt(cfg, a, es, n, plan) && PastUpdate(Exec(cfg, a, es + [e]), plan)
    requires SameRefs(Exec(cfg, a, es).places, Exec(cfg, a, es + [e]).places, plan.place)
    ensures UpdatedAt(cfg, a, es + [e], n, plan)
  {
    var more := es + [e];
    AtLonger(cfg, a, es, e, n);
    AtLonger(cfg, a, es, e, n + 1);
    forall m | n < m <= |more| ensures PastUpdate(StateAt(cfg, a, more, m), plan) {
      if m <= |es| {
        AtLonger(cfg, a, es, e, m);
      } else {
        assert more[..m] == more;
      }
    }
  }

  lemma UpdatedNow(cfg: Config, a: State, es: seq<Event>, e: Event, plan: G.Plan)
    requires Honest(a) && PastUpdate(Exec(cfg, a, es + [e]), plan)
    requires e.Call? && Exec(cfg, a, es).leg.OnGit? && Exec(cfg, a, es).leg.git.plan == plan
    requires Exec(cfg, a, es).leg.git.stage.CloneNew? || Exec(cfg, a, es).leg.git.stage.FetchOrigin?
    ensures UpdatedAt(cfg, a, es + [e], |es|, plan)
  {
    var more := es + [e];
    AtEnds(cfg, a, es, e);
    PastAtLast(cfg, a, es, e, plan);
    RefsAtLast(cfg, a, more, plan);
    assert more[|es|] == e && |more| == |es| + 1;
  }

  lemma PastAtLast(cfg: Config, a: State, es: seq<Event>, e: Event, plan: G.Plan)
    requires PastUpdate(Exec(cfg, a, es + [e]), plan)
    ensures forall m :: |es| < m <= |es + [e]| ==> PastUpdate(StateAt(cfg, a, es + [e], m), plan)
  {
    AtEnds(cfg, a, es, e);
  }

  lemma RefsAtLast(cfg: Config, a: State, es: seq<Event>, plan: G.Plan)
    requires Honest(a) && PastUpdate(Exec(cfg, a, es), plan)
    ensures SameRefs(StateAt(cfg, a, es, |es|).places, Exec(cfg, a, es).places, plan.place)
  {
    HonestAlong(cfg, a, es);
    SameAsItself(Exec(cfg, a, es), plan);
    assert es[..|es|] == es;
  }

  lemma AtEnds(cfg: Config, a: State, es: seq<Event>, e: Event)
    ensures StateAt(cfg, a, es + [e], |es|) == Exec(cfg, a, es) && StateAt(cfg, a, es + [e], |es| + 1) == Exec(cfg, a, es + [e])
  {
    assert (es + [e])[..|es|] == es && (es + [e])[..|es| + 1] == es + [e];
  }

  lemma SameAsItself(a: State, plan: G.Plan)
    requires Honest(a) && PastUpdate(a, plan)
    ensures SameRefs(a.places, a.places, plan.place)
  {
  }

  /** Over every sequence of events a git run about to send its applied receipt has cloned or fetched itself, and the
      commit it reports is the one its intent asks for in the repository that very call left. */
  lemma AppliedSinceUpdate(cfg: Config, a: State, es: seq<Event>) returns (n: nat)
    requires Honest(a) && Free(a) && Exec(cfg, a, es).leg.OnGit? && AppliedAt(Exec(cfg, a, es).leg.git.stage)
    ensures n < |es| && UpdatedAt(cfg, a, es, n, Exec(cfg, a, es).leg.git.plan)
    ensures var b, left := Exec(cfg, a, es), StateAt(cfg, a, es, n + 1).places;
      var intent, commit := b.leg.git.plan.intent, b.leg.git.stage.row.body.commit;
      && Deployed(intent, b.places, commit)
      && RepoAt(left, PlaceOf(intent)) && AskedFor(intent, left[PlaceOf(intent)].repo) == commit
  {
    AppliedReceiptsAreTrue(cfg, a, es);
    n := SomeUpdate(cfg, a, es, Exec(cfg, a, es).leg.git.plan);
  }
}
