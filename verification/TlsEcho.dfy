/** The echo of tls_state: what every receipt carries, and that `applied`, once saved, is never lost again. */
module TlsEcho {
  import opened Text
  import opened Protocol
  import opened Agent
  import opened LedgerOrder
  import opened LiveConfig
  import G = GitLeg
  import N = NginxLeg

  // ---------------------------------------------------------------- receipts of one run

  predicate GitRows(run: G.Run) {
    run.stage.PostLast? ==> run.stage.row.site == run.plan.site && run.stage.row.tls == run.plan.tls
  }

  /** Whether the row is the reload receipt. */
  predicate Reloaded(row: Row) {
    row.body.ApplyBody? && row.body.apply.ReloadApplied?
  }

  predicate NginxRow(plan: N.Plan, row: Row) {
    row.site == plan.site && row.tls == (if Reloaded(row) then plan.tlsAfter else plan.tls)
  }

  predicate NginxRows(run: N.Run) {
    run.stage.PostLast? ==> NginxRow(run.plan, run.stage.row)
  }

  lemma GitResumeRows(run: G.Run, reply: G.Reply)
    requires !run.stage.Done? && GitRows(run)
    ensures GitRows(G.Resume(run, reply))
    ensures G.Next(run).Post? ==> G.Next(run).row.site == run.plan.site && G.Next(run).row.tls == run.plan.tls
  {
  }

  lemma NginxResumeRows(run: N.FormedRun, reply: N.Reply)
    requires !run.stage.Done? && NginxRows(run)
    ensures NginxRows(N.Resume(run, reply))
    ensures N.Next(run).Post? ==> NginxRow(run.plan, N.Next(run).row)
  {
  }

  // ---------------------------------------------------------------- the run in progress

  function LegSite(leg: Leg): string {
    match leg
    case NoLeg => ""
    case OnGit(run) => run.plan.site
    case OnNginx(run) => run.plan.site
  }

  /** The tls_state a run reports, and the one its reload receipt may report instead. */
  function LegTls(leg: Leg): set<string> {
    match leg
    case NoLeg => {}
    case OnGit(run) => {run.plan.tls}
    case OnNginx(run) => {run.plan.tls, run.plan.tlsAfter}
  }

  predicate LegRows(leg: Leg) {
    match leg
    case NoLeg => true
    case OnGit(run) => GitRows(run) && run.plan.tls != ""
    case OnNginx(run) =>
      && NginxRows(run) && run.plan.tls != "" && (run.plan.tlsAfter == run.plan.tls || run.plan.tlsAfter == "applied")
  }

  /** The receipt the run is about to post. */
  function NextReceipt(leg: Leg): Option<Row> {
    match leg
    case NoLeg => None
    case OnGit(run) => if !run.stage.Done? && G.Next(run).Post? then Some(G.Next(run).row) else None
    case OnNginx(run) => if !run.stage.Done? && N.Next(run).Post? then Some(N.Next(run).row) else None
  }

  /** A receipt names the run's site and carries one of its states. */
  lemma ReceiptCarries(leg: Leg)
    requires LegRows(leg) && NextReceipt(leg).Some?
    ensures var row := NextReceipt(leg).value; row.site == LegSite(leg) && row.tls in LegTls(leg) && row.tls != ""
  {
    match leg
    case OnGit(run) => GitResumeRows(run, G.Bad);
    case OnNginx(run) => NginxResumeRows(run, N.Bad);
  }

  // ---------------------------------------------------------------- the invariant

  predicate Id(site: string) {
    site != "" && Trim(site) == site
  }

  predicate Ids(m: map<string, string>) {
    forall k :: k in m ==> Id(k)
  }

  /** Something of a cycle is still to be done, so the map in memory is in use. */
  predicate InCycle(a: State) {
    a.gitQueue != [] || a.applyQueue != [] || a.unsaved || !Finished(a.leg)
  }

  /** The id is the site's own, or one that does not trim to it. */
  predicate Clear(id: string, site: string) {
    Trim(id) == site ==> id == site
  }

  predicate Clears(m: map<string, string>, site: string) {
    forall k :: k in m ==> Clear(k, site)
  }

  /** The site's id is trimmed and not blank, and no other id in use trims to it. */
  predicate Unrivalled(a: State, site: string) {
    && Id(site) && Clears(a.file, site) && Clears(a.echo, site)
    && (forall i :: 0 <= i < |a.gitQueue| ==> Clear(a.gitQueue[i].site, site))
    && (forall i :: 0 <= i < |a.applyQueue| ==> Clear(a.applyQueue[i].site, site))
    && (!Finished(a.leg) ==> Clear(LegSite(a.leg), site))
  }

  predicate Says(m: map<string, string>, site: string) {
    site in m && m[site] == "applied"
  }

  /** `applied` for the site is saved, held in memory during a cycle, and carried by a run of the site. */
  predicate Sealed(a: State, site: string) {
    Says(a.file, site) && Held(a, site)
  }

  predicate Held(a: State, site: string) {
    && (InCycle(a) ==> Says(a.echo, site))
    && (!Finished(a.leg) && LegSite(a.leg) == site ==> LegTls(a.leg) == {"applied"})
  }

  /** No other id in the snapshot trims to the site's, the echo file is read, and saves succeed. */
  predicate Benign(e: Event, site: string) {
    match e
    case Ping(git, apply, _, readable) =>
      && readable
      && (forall i :: 0 <= i < |git| ==> Clear(git[i].site, site))
      && (forall i :: 0 <= i < |apply| ==> Clear(apply[i].site, site))
    case Save(ok) => ok
    case _ => true
  }

  // ---------------------------------------------------------------- reading the file back

  /** Reading back a map keeps the non-blank state, trimmed, of a site without rivals. */
  lemma ReadBack(stub: map<string, string>, out: map<string, string>, site: string)
    requires LoadedFrom(stub, out) && Id(site) && Clears(stub, site) && site in stub && Trim(stub[site]) != ""
    ensures site in out && out[site] == Trim(stub[site])
  {
    assert Trim(site) in out;
    assert Comes(stub, site, out[site]);
    var s :| s in stub && Trim(s) == site && Trim(stub[s]) == out[site];
    assert Clear(s, site);
  }

  lemma ReadBackIds(stub: map<string, string>, out: map<string, string>)
    requires LoadedFrom(stub, out)
    ensures Ids(out)
  {
    forall k | k in out ensures Id(k) {
      assert Comes(stub, k, out[k]);
      var s :| s in stub && Trim(s) == k && Trim(stub[s]) == out[k];
      TrimIsTrimmed(s);
    }
  }

  lemma ReadBackClear(stub: map<string, string>, out: map<string, string>, site: string)
    requires LoadedFrom(stub, out)
    ensures Clears(out, site)
  {
    ReadBackIds(stub, out);
    forall k | k in out ensures Clear(k, site) {
      assert Id(k);
    }
  }

  lemma AppliedIsTrimmed()
    ensures Trim("applied") == "applied"
  {
    LettersTrimmed("applied");
  }

  lemma LettersTrimmed(s: string)
    requires s != "" && 'a' <= s[0] <= 'z' && 'a' <= s[|s| - 1] <= 'z'
    ensures Trim(s) == s
  {
    TrimIsTrimmed(s);
  }

  /** Every entry competing for the site's id, after trimming, says `applied` too. */
  predicate NoRival(stub: map<string, string>, site: string) {
    forall s :: s in stub && Trim(s) == site && Trim(stub[s]) != "" ==> Trim(stub[s]) == "applied"
  }

  predicate Entry(stub: map<string, string>, s: string) {
    s in stub && Trim(s) != "" && Trim(stub[s]) != ""
  }

  ghost function SomeEntry(stub: map<string, string>, k: string): (s: string)
    requires exists s :: Entry(stub, s) && Trim(s) == k
    ensures Entry(stub, s) && Trim(s) == k
  {
    var s :| Entry(stub, s) && Trim(s) == k;
    s
  }

  /** The load that meets the entry `last` after all its rivals. */
  ghost function LoadWithLast(stub: map<string, string>, last: string): map<string, string> {
    map k | k in (set s | s in stub && Entry(stub, s) :: Trim(s)) ::
      if Entry(stub, last) && Trim(last) == k then Trim(stub[last]) else Trim(stub[SomeEntry(stub, k)])
  }

  lemma LastWins(stub: map<string, string>, last: string)
    ensures LoadedFrom(stub, LoadWithLast(stub, last))
    ensures Entry(stub, last) ==> Trim(last) in LoadWithLast(stub, last) && LoadWithLast(stub, last)[Trim(last)] == Trim(stub[last])
  {
    var out := LoadWithLast(stub, last);
    forall k | k in out ensures k != "" && out[k] != "" && Comes(stub, k, out[k]) {
      var s := if Entry(stub, last) && Trim(last) == k then last else SomeEntry(stub, k);
      assert s in stub && Trim(s) == k && Trim(stub[s]) == out[k];
    }
    forall s | s in stub && Trim(s) != "" && Trim(stub[s]) != "" ensures Trim(s) in out {
      assert Entry(stub, s);
    }
  }

  /** A saved `applied` survives every read of the file, in whatever order its entries are met, exactly when the
      site id is trimmed and not blank and no entry with the same trimmed id says anything else. */
  lemma SurvivesExactly(stub: map<string, string>, site: string)
    requires site in stub && Trim(stub[site]) == "applied"
    ensures (forall out :: LoadedFrom(stub, out) ==> Says(out, site)) <==> Id(site) && NoRival(stub, site)
  {
    if Id(site) && NoRival(stub, site) {
      forall out | LoadedFrom(stub, out) ensures Says(out, site) {
        assert Trim(site) in out;
        assert Comes(stub, site, out[site]);
      }
    }
    if forall out :: LoadedFrom(stub, out) ==> Says(out, site) {
      LastWins(stub, site);
      ReadBackIds(stub, LoadWithLast(stub, site));
      forall s | s in stub && Trim(s) == site && Trim(stub[s]) != "" ensures Trim(stub[s]) == "applied" {
        LastWins(stub, s);
        assert Says(LoadWithLast(stub, s), site);
      }
    }
  }

  /** A trimmed id is not enough: a rival entry may win the read. */
  lemma RivalCanWin(stub: map<string, string>)
    requires stub == map["a" := "applied", " a" := "none"]
    ensures Id("a") && exists out :: LoadedFrom(stub, out) && !Says(out, "a")
  {
    AppliedIsTrimmed();
    LettersTrimmed("a");
    LettersTrimmed("none");
    assert Trim(" a") == "a";
    var rival := " a";
    assert rival in stub && stub[rival] == "none" && |"none"| != |"applied"|;
    assert "a" in stub && stub["a"] == "applied";
    SurvivesExactly(stub, "a");
  }

  // ---------------------------------------------------------------- one call

  /** Between two states of a call: the run keeps its site and states, and a receipt reaches the echo exactly
      when it is acknowledged. */
  predicate EchoStep(a: State, b: State, o: Outcome) {
    var row := NextReceipt(a.leg);
    && LegRows(b.leg) && LegSite(b.leg) == LegSite(a.leg) && LegTls(b.leg) == LegTls(a.leg)
    && b.file == a.file && b.gitQueue == a.gitQueue && b.applyQueue == a.applyQueue
    && b.unsaved == (row.Some? && o.Acked?)
    && b.echo == (if row.Some? && o.Acked? then a.echo[row.value.site := row.value.tls] else a.echo)
  }

  lemma GitCallEcho(a: State, run: G.Run, o: Outcome)
    requires a.leg == OnGit(run) && !run.stage.Done? && !a.unsaved && LegRows(a.leg)
    ensures EchoStep(a, GitStep(a, run, o), o)
  {
    GitResumeRows(run, G.Perform(a.places, run.plan.place, G.Next(run), o).1);
  }

  lemma NginxCallEcho(cfg: Config, a: State, run: N.FormedRun, o: Outcome)
    requires a.leg == OnNginx(run) && !run.stage.Done? && !a.unsaved && LegRows(a.leg)
    ensures EchoStep(a, NginxStep(cfg, a, run, o), o)
  {
    NginxResumeRows(run, N.Perform(cfg, a.web, N.Next(run), o).1);
  }

  lemma CallEcho(cfg: Config, a: State, e: Event)
    requires e.Call? && Possible(cfg, a, e) && LegRows(a.leg)
    ensures EchoStep(a, Effect(cfg, a, e), e.outcome)
  {
    match a.leg
    case OnGit(run) => GitCallEcho(a, run, e.outcome);
    case OnNginx(run) => NginxCallEcho(cfg, a, run, e.outcome);
  }

  // ---------------------------------------------------------------- sealed for good

  lemma CallSealed(cfg: Config, a: State, e: Event, site: string)
    requires e.Call? && Possible(cfg, a, e) && LegRows(a.leg) && Unrivalled(a, site) && Sealed(a, site)
    ensures var b := Effect(cfg, a, e); LegRows(b.leg) && Unrivalled(b, site) && Sealed(b, site)
  {
    CallEcho(cfg, a, e);
    if NextReceipt(a.leg).Some? {
      ReceiptCarries(a.leg);
    }
  }

  lemma BeginRows(cfg: Config, a: State, e: Event)
    requires e.Start? && Possible(cfg, a, e)
    ensures var b := Effect(cfg, a, e);
      && LegRows(b.leg)
      && LegSite(b.leg) == (if a.gitQueue != [] then a.gitQueue[0].site else a.applyQueue[0].site)
      && (EchoOf(a, LegSite(b.leg)) == "applied" ==> LegTls(b.leg) == {"applied"})
  {
    if a.gitQueue != [] {
      GitStartRows(cfg, a, e);
    } else {
      NginxStartRows(cfg, a, e);
    }
  }

  lemma GitStartRows(cfg: Config, a: State, e: Event)
    requires e.Start? && a.gitQueue != []
    ensures var leg, site := StartNext(cfg, a, e).leg, a.gitQueue[0].site;
      LegRows(leg) && LegSite(leg) == site && (EchoOf(a, site) == "applied" ==> LegTls(leg) == {"applied"})
  {
    AppliedIsTrimmed();
    GitBegins(cfg, a.gitQueue[0], EchoOf(a, a.gitQueue[0].site), e.gitFound, e.keyUsable);
  }

  lemma NginxStartRows(cfg: Config, a: State, e: Event)
    requires e.Start? && a.gitQueue == [] && a.applyQueue != []
    ensures var leg, site := StartNext(cfg, a, e).leg, a.applyQueue[0].site;
      LegRows(leg) && LegSite(leg) == site && (EchoOf(a, site) == "applied" ==> LegTls(leg) == {"applied"})
  {
    AppliedIsTrimmed();
    NginxBegins(cfg, a.applyQueue[0], EchoOf(a, a.applyQueue[0].site), e.certOk);
  }

  lemma GitBegins(cfg: Config, intent: GitIntent, echo: string, gitFound: bool, keyUsable: bool)
    ensures var run := G.Begin(cfg, intent, echo, gitFound, keyUsable);
      run.plan.site == intent.site && run.plan.tls == EchoOrNone(echo) && GitRows(run)
  {
  }

  lemma NginxBegins(cfg: Config, intent: ApplyIntent, echo: string, certOk: bool)
    ensures var run := N.Begin(cfg, intent, echo, certOk);
      && run.plan.site == intent.site && run.plan.tls == EchoOrNone(echo) && NginxRows(run)
      && (run.plan.tlsAfter == run.plan.tls || run.plan.tlsAfter == "applied")
  {
  }

  lemma StartSealed(cfg: Config, a: State, e: Event, site: string)
    requires e.Start? && Possible(cfg, a, e) && Unrivalled(a, site) && Sealed(a, site)
    ensures var b := Effect(cfg, a, e); LegRows(b.leg) && Unrivalled(b, site) && Sealed(b, site)
  {
    BeginRows(cfg, a, e);
  }

  lemma PingSealed(cfg: Config, a: State, e: Event, site: string)
    requires e.Ping? && Benign(e, site) && Possible(cfg, a, e) && LegRows(a.leg) && Unrivalled(a, site) && Sealed(a, site)
    ensures var b := Effect(cfg, a, e); LegRows(b.leg) && Unrivalled(b, site) && Sealed(b, site)
  {
    AppliedIsTrimmed();
    ReadBack(a.file, e.loaded, site);
    ReadBackClear(a.file, e.loaded, site);
  }

  lemma EventSealed(cfg: Config, a: State, e: Event, site: string)
    requires Benign(e, site) && LegRows(a.leg) && Unrivalled(a, site) && Sealed(a, site)
    ensures var b := Happens(cfg, a, e); LegRows(b.leg) && Unrivalled(b, site) && Sealed(b, site)
  {
    if Possible(cfg, a, e) {
      match e
      case Call(_) => CallSealed(cfg, a, e, site);
      case Start(_, _, _) => StartSealed(cfg, a, e, site);
      case Ping(_, _, _, _) => PingSealed(cfg, a, e, site);
      case _ =>
    }
  }

  /** Once `applied` is saved for a site whose id no other id trims to, then through any further cycles, crashes
      and restarts every receipt about to be posted for the site carries `applied`. */
  lemma {:induction false} NeverRegresses(cfg: Config, a: State, es: seq<Event>, site: string)
    requires (forall e :: e in es ==> Benign(e, site)) && LegRows(a.leg) && Unrivalled(a, site) && Sealed(a, site)
    ensures var b := Exec(cfg, a, es);
      && Sealed(b, site)
      && (NextReceipt(b.leg).Some? && NextReceipt(b.leg).value.site == site ==> NextReceipt(b.leg).value.tls == "applied")
    decreases |es|
  {
    if es == [] {
      if NextReceipt(a.leg).Some? {
        ReceiptCarries(a.leg);
      }
    } else {
      EventSealed(cfg, a, es[0], site);
      NeverRegresses(cfg, Happens(cfg, a, es[0]), es[1..], site);
    }
  }

  // ---------------------------------------------------------------- becoming sealed

  predicate AtLast(leg: Leg) {
    (leg.OnGit? && leg.git.stage.PostLast?) || (leg.OnNginx? && leg.nginx.stage.PostLast?)
  }

  /** Only the last receipt of a run may carry a state other than the one the run began with. */
  lemma EarlierReceipts(leg: Leg)
    requires LegRows(leg) && NextReceipt(leg).Some? && NextReceipt(leg).value.tls == "applied" && !AtLast(leg)
    ensures LegTls(leg) == {"applied"}
  {
  }

  lemma LastReceiptEnds(cfg: Config, a: State, e: Event)
    requires e.Call? && Possible(cfg, a, e) && AtLast(a.leg)
    ensures Finished(Effect(cfg, a, e).leg)
  {
    match a.leg
    case OnGit(run) => GitLastEnds(a, run, e.outcome);
    case OnNginx(run) => NginxLastEnds(cfg, a, run, e.outcome);
  }

  lemma GitLastEnds(a: State, run: G.Run, o: Outcome)
    requires run.stage.PostLast?
    ensures Finished(GitStep(a, run, o).leg)
  {
    GitStepShape(a, run, o, G.Perform(a.places, run.plan.place, G.Next(run), o).1);
  }

  lemma NginxLastEnds(cfg: Config, a: State, run: N.FormedRun, o: Outcome)
    requires run.stage.PostLast?
    ensures Finished(NginxStep(cfg, a, run, o).leg)
  {
    NginxStepShape(cfg, a, run, o, N.Perform(cfg, a.web, N.Next(run), o).1);
  }

  /** Acknowledging a receipt that carries `applied` and then saving is what seals its site. */
  lemma AcknowledgedAndSaved(cfg: Config, a: State, e: Event, site: string)
    requires e == Call(Acked) && Possible(cfg, a, e) && LegRows(a.leg) && Unrivalled(a, site) && site == LegSite(a.leg)
    requires NextReceipt(a.leg).Some? && NextReceipt(a.leg).value.tls == "applied"
    ensures var b := Happens(cfg, Happens(cfg, a, e), Save(true)); Unrivalled(b, site) && Sealed(b, site)
  {
    CallEcho(cfg, a, e);
    ReceiptCarries(a.leg);
    if AtLast(a.leg) {
      LastReceiptEnds(cfg, a, e);
    } else {
      EarlierReceipts(a.leg);
    }
    var b := Effect(cfg, a, e);
    SaveSeals(cfg, b, site);
  }

  lemma SaveSeals(cfg: Config, a: State, site: string)
    requires a.unsaved && Unrivalled(a, site) && Held(a, site)
    ensures var b := Happens(cfg, a, Save(true)); Unrivalled(b, site) && Sealed(b, site)
  {
  }

  // ---------------------------------------------------------------- never blank

  lemma EventRows(cfg: Config, a: State, e: Event)
    requires LegRows(a.leg)
    ensures LegRows(Happens(cfg, a, e).leg)
  {
    if Possible(cfg, a, e) {
      match e
      case Call(_) => CallEcho(cfg, a, e);
      case Start(_, _, _) => BeginRows(cfg, a, e);
      case _ =>
    }
  }

  /** Every row ever sent, whatever is read, lost or killed, has a tls_state. */
  lemma {:induction false} NeverBlank(cfg: Config, a: State, es: seq<Event>)
    requires LegRows(a.leg)
    ensures LegRows(Exec(cfg, a, es).leg)
    ensures NextReceipt(Exec(cfg, a, es).leg).Some? ==> NextReceipt(Exec(cfg, a, es).leg).value.tls != ""
    decreases |es|
  {
    if es == [] {
      if NextReceipt(a.leg).Some? {
        ReceiptCarries(a.leg);
      }
    } else {
      EventRows(cfg, a, es[0]);
      NeverBlank(cfg, Happens(cfg, a, es[0]), es[1..]);
    }
  }

  // ---------------------------------------------------------------- who claims `applied`

  /** The ledger is ready for the certificate to be reported as applied. */
  predicate Issued(intent: ApplyIntent) {
    intent.tlsEnabled && ToLower(Trim(intent.tlsLedger)) == "issued"
  }

  lemma PlanStates(cfg: Config, plan: N.Plan)
    requires FromIntent(cfg, plan)
    ensures plan.tls == "applied" <==> Trim(plan.echo) == "applied"
    ensures plan.tlsAfter == "applied" <==> Issued(plan.intent) || Trim(plan.echo) == "applied"
  {
  }

  /** Over every sequence of events a nginx receipt claims `applied` exactly when the echo its run began with
      did, or it is the reload receipt of an intent whose certificate the ledger says is issued. */
  lemma ClaimsExactly(cfg: Config, a: State, es: seq<Event>)
    requires ConfigLoaded(cfg) && Live(cfg, a) && LegRows(a.leg)
    ensures var leg := Exec(cfg, a, es).leg;
      leg.OnNginx? && NextReceipt(leg).Some? ==> (
        var row, plan := NextReceipt(leg).value, leg.nginx.plan;
        row.tls == "applied" <==> Trim(plan.echo) == "applied" || (Reloaded(row) && Issued(plan.intent)))
  {
    AlwaysLive(cfg, a, es);
    NeverBlank(cfg, a, es);
    var leg := Exec(cfg, a, es).leg;
    if leg.OnNginx? && NextReceipt(leg).Some? {
      NginxResumeRows(leg.nginx, N.Bad);
      PlanStates(cfg, leg.nginx.plan);
    }
  }
}
