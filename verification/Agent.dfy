/** The agent between Central's ledger and its host: polling, both legs, receipts, and the echo of tls_state.
    Everything that can happen is an event; a run of the agent is any sequence of events. */
module Agent {
  import opened Text
  import opened Protocol
  import Disk
  import G = GitLeg
  import N = NginxLeg

  // ---------------------------------------------------------------- the ledger

  predicate GitTerminal(p: GitPhase) {
    p.GitApplied? || p.GitFailed?
  }

  predicate ApplyTerminal(p: ApplyPhase) {
    p.Applied? || p.ReloadApplied? || p.ApplyFailed?
  }

  /** Phases for which Central hands out an intent. */
  predicate ApplyHint(p: ApplyPhase) {
    p.ApplyRequested? || p.Applying? || p.ReloadRequested?
  }

  /** For each site, what Central has recorded since the last operator request, that request first. */
  datatype Ledger = Ledger(git: map<string, seq<GitPhase>>, apply: map<string, seq<ApplyPhase>>)

  function Record(l: Ledger, row: Row): Ledger {
    match row.body
    case GitBody(phase, _, _) => l.(git := l.git[row.site := (if row.site in l.git then l.git[row.site] else []) + [phase]])
    case ApplyBody(phase, _) => l.(apply := l.apply[row.site := (if row.site in l.apply then l.apply[row.site] else []) + [phase]])
  }

  function GitNow(l: Ledger, site: string): Option<GitPhase> {
    if site in l.git && l.git[site] != [] then Some(l.git[site][|l.git[site]| - 1]) else None
  }

  function ApplyNow(l: Ledger, site: string): Option<ApplyPhase> {
    if site in l.apply && l.apply[site] != [] then Some(l.apply[site][|l.apply[site]| - 1]) else None
  }

  // ---------------------------------------------------------------- the echo file

  /** What reading the saved map back may give: keys and values trimmed, blank ones dropped. Keys that
      trim to the same text compete, in no particular order. */
  predicate LoadedFrom(stub: map<string, string>, out: map<string, string>) {
    && (forall k :: k in out ==> k != "" && out[k] != "" && Comes(stub, k, out[k]))
    && (forall s :: s in stub && Trim(s) != "" && Trim(stub[s]) != "" ==> Trim(s) in out)
  }

  predicate Comes(stub: map<string, string>, k: string, v: string) {
    exists s :: s in stub && Trim(s) == k && Trim(stub[s]) == v
  }

  // ---------------------------------------------------------------- state and events

  datatype Leg = NoLeg | OnGit(git: G.Run) | OnNginx(nginx: N.FormedRun)

  /** `file` is the echo map on disk, `echo` the one in memory; `unsaved` says the save is still due. */
  datatype State = State(
    web: N.Web, places: G.Places, ledger: Ledger,
    file: map<string, string>, echo: map<string, string>, unsaved: bool,
    leg: Leg, gitQueue: seq<GitIntent>, applyQueue: seq<ApplyIntent>)

  datatype Event =
    | Ping(git: seq<GitIntent>, apply: seq<ApplyIntent>, loaded: map<string, string>, readable: bool)
    | Start(gitFound: bool, keyUsable: bool, certOk: bool)
    | Call(outcome: Outcome)
    | Save(ok: bool)
    | Crash
    | RequestGit(site: string)
    | RequestApply(site: string, reload: bool)
    | Outside(disk: Disk.Disk, places: G.Places)

  predicate Finished(leg: Leg) {
    match leg
    case NoLeg => true
    case OnGit(run) => run.stage.Done?
    case OnNginx(run) => run.stage.Done?
  }

  /** Between two runs. */
  predicate Free(a: State) {
    !a.unsaved && Finished(a.leg)
  }

  predicate NginxConfigured(cfg: Config) {
    Trim(cfg.availableRoot) != "" && Trim(cfg.enabledRoot) != ""
  }

  /** One intent per site, each showing the phase the ledger is in. */
  predicate GitSnapshot(l: Ledger, intents: seq<GitIntent>) {
    && (forall i, j :: 0 <= i < j < |intents| ==> intents[i].site != intents[j].site)
    && (forall i :: 0 <= i < |intents| ==> GitShows(l, intents[i]))
  }

  predicate GitShows(l: Ledger, intent: GitIntent) {
    var p := GitNow(l, intent.site);
    p.Some? && !GitTerminal(p.value) && Normal(intent.state) == GitName(p.value)
  }

  predicate ApplySnapshot(l: Ledger, intents: seq<ApplyIntent>) {
    && (forall i, j :: 0 <= i < j < |intents| ==> intents[i].site != intents[j].site)
    && (forall i :: 0 <= i < |intents| ==> ApplyShows(l, intents[i]))
  }

  predicate ApplyShows(l: Ledger, intent: ApplyIntent) {
    var p := ApplyNow(l, intent.site);
    p.Some? && ApplyHint(p.value) && Normal(intent.state) == ApplyName(p.value)
  }

  function EchoOf(a: State, site: string): string {
    if site in a.echo then a.echo[site] else ""
  }

  /** When the event can happen. */
  predicate Possible(cfg: Config, a: State, e: Event) {
    match e
    case Ping(git, apply, loaded, readable) =>
      && Free(a) && a.gitQueue == [] && a.applyQueue == []
      && GitSnapshot(a.ledger, git) && ApplySnapshot(a.ledger, apply)
      && (if readable then LoadedFrom(a.file, loaded) else loaded == map[])
    case Start(_, _, _) => Free(a) && (a.gitQueue != [] || a.applyQueue != [])
    case Call(_) => !a.unsaved && !Finished(a.leg)
    case Save(_) => a.unsaved
    case Crash => true
    case RequestGit(site) => var p := GitNow(a.ledger, site); p.Some? ==> GitTerminal(p.value)
    case RequestApply(site, _) => var p := ApplyNow(a.ledger, site); p.Some? ==> ApplyTerminal(p.value)
    case Outside(_, _) => Free(a)
  }

  /** What a post does at Central and, once acknowledged, to the echo. */
  function Posted(a: State, row: Row, o: Outcome): State {
    var l := if Received(o) then Record(a.ledger, row) else a.ledger;
    if o.Acked? then a.(ledger := l, echo := a.echo[row.site := row.tls], unsaved := true) else a.(ledger := l)
  }

  function GitStep(a: State, run: G.Run, o: Outcome): State
    requires !run.stage.Done?
  {
    var (places, next) := G.Step(a.places, run, o);
    var moved := a.(places := places, leg := OnGit(next));
    if G.Next(run).Post? then Posted(moved, G.Next(run).row, o) else moved
  }

  function NginxStep(cfg: Config, a: State, run: N.FormedRun, o: Outcome): State
    requires !run.stage.Done?
  {
    var (web, next) := N.Step(cfg, a.web, run, o);
    var moved := a.(web := web, leg := OnNginx(next));
    if N.Next(run).Post? then Posted(moved, N.Next(run).row, o) else moved
  }

  function StartNext(cfg: Config, a: State, e: Event): State
    requires e.Start? && (a.gitQueue != [] || a.applyQueue != [])
  {
    if a.gitQueue != [] then
      var intent := a.gitQueue[0];
      a.(leg := OnGit(G.Begin(cfg, intent, EchoOf(a, intent.site), e.gitFound, e.keyUsable)), gitQueue := a.gitQueue[1..])
    else
      var intent := a.applyQueue[0];
      a.(leg := OnNginx(N.Begin(cfg, intent, EchoOf(a, intent.site), e.certOk)), applyQueue := a.applyQueue[1..])
  }

  function Effect(cfg: Config, a: State, e: Event): State
    requires Possible(cfg, a, e)
  {
    match e
    case Ping(git, apply, loaded, _) =>
      a.(leg := NoLeg, echo := loaded, gitQueue := git, applyQueue := if NginxConfigured(cfg) then apply else [])
    case Start(_, _, _) => StartNext(cfg, a, e)
    case Call(o) => if a.leg.OnGit? then GitStep(a, a.leg.git, o) else NginxStep(cfg, a, a.leg.nginx, o)
    case Save(ok) => a.(file := if ok then a.echo else a.file, unsaved := false)
    case Crash => a.(leg := NoLeg, unsaved := false, echo := map[], gitQueue := [], applyQueue := [])
    case RequestGit(site) => a.(ledger := a.ledger.(git := a.ledger.git[site := [GitRequested]]))
    case RequestApply(site, reload) =>
      a.(ledger := a.ledger.(apply := a.ledger.apply[site := [if reload then ReloadRequested else ApplyRequested]]))
    case Outside(disk, places) => a.(web := a.web.(disk := disk), places := places)
  }

  /** Impossible events do not happen. */
  function Happens(cfg: Config, a: State, e: Event): State {
    if Possible(cfg, a, e) then Effect(cfg, a, e) else a
  }

  function Exec(cfg: Config, a: State, es: seq<Event>): State
    decreases |es|
  {
    if es == [] then a else Exec(cfg, Happens(cfg, a, es[0]), es[1..])
  }
}
