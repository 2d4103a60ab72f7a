/** What an nginx run makes of its intent and the configuration: which intents are refused and why, and what nginx
    reads for the others. */
module NginxIntents {
  import opened Text
  import opened UnixPath
  import opened DeployPath
  import opened Admission
  import opened SitePaths
  import opened Render
  import opened RenderRoundTrip
  import opened RenderExact
  import opened ServerView
  import opened Protocol
  import opened Agent
  import opened NginxLeg
  import opened NginxRuns
  import opened LiveConfig
  import NginxSyntax
  import CrashRecovery
  import Disk

  // ---------------------------------------------------------------- which intents are served

  /** The state as the intent shows it. */
  function StateText(intent: ApplyIntent): string {
    Trim(ToLower(intent.state))
  }

  /** The agent acts on the intent. */
  predicate Acted(intent: ApplyIntent) {
    StateText(intent) in {"requested", "applying", "reload_requested"}
  }

  predicate TlsNamed(intent: ApplyIntent) {
    intent.tlsEnabled ==> Trim(intent.certPath) != "" && Trim(intent.keyPath) != ""
  }

  predicate TlsRooted(cfg: Config, intent: ApplyIntent) {
    intent.tlsEnabled ==> exists i :: 0 <= i < |cfg.tlsRoots| && !Blank(cfg.tlsRoots[i])
  }

  predicate RootsGiven(cfg: Config) {
    Trim(cfg.availableRoot) != "" && Trim(cfg.enabledRoot) != ""
  }

  /** What intent and configuration must be like. */
  ghost predicate Hostable(cfg: Config, intent: ApplyIntent) {
    && Admitted(cfg, intent.deployPath) && KnownRuntime(intent.runtimeType)
    && TlsNamed(intent) && TlsRooted(cfg, intent) && RootsGiven(cfg)
  }

  /** Also the certificate can be read, if one is needed. */
  ghost predicate Allowed(cfg: Config, intent: ApplyIntent, certOk: bool) {
    Hostable(cfg, intent) && (intent.tlsEnabled ==> certOk)
  }

  /** When each failure of the checks is the one posted: the first thing wrong. */
  ghost predicate Hindrance(cfg: Config, intent: ApplyIntent, certOk: bool, r: Reason) {
    match r
    case InvalidDeployPath(e) => !Admitted(cfg, intent.deployPath) && Fault(intent.deployPath, cfg.deployRoots, e)
    case BadWebRoot(w) => Admitted(cfg, intent.deployPath) && !KnownRuntime(intent.runtimeType) && w == UnsupportedRuntime
    case TlsPathsMissing => Admitted(cfg, intent.deployPath) && KnownRuntime(intent.runtimeType) && !TlsNamed(intent)
    case TlsRootsMissing =>
      && Admitted(cfg, intent.deployPath) && KnownRuntime(intent.runtimeType) && TlsNamed(intent) && !TlsRooted(cfg, intent)
    case CertificateInvalid =>
      && Admitted(cfg, intent.deployPath) && KnownRuntime(intent.runtimeType) && TlsNamed(intent) && TlsRooted(cfg, intent)
      && intent.tlsEnabled && !certOk
    case NginxRootsMissing =>
      && Admitted(cfg, intent.deployPath) && KnownRuntime(intent.runtimeType) && TlsNamed(intent) && TlsRooted(cfg, intent)
      && (intent.tlsEnabled ==> certOk) && !RootsGiven(cfg)
    case _ => false
  }

  lemma PathChecks(cfg: Config, intent: ApplyIntent)
    ensures var path, roots := Trim(intent.deployPath), NormalizeRoots(cfg.deployRoots);
      var v, root := ValidateDeployPath(path, roots), ResolveWebRoot(path, intent.runtimeType);
      && (v.None? <==> Admitted(cfg, intent.deployPath))
      && (v.Some? ==> Fault(intent.deployPath, cfg.deployRoots, v.value))
      && (v.None? ==> (root.Success? <==> KnownRuntime(intent.runtimeType)))
      && (v.None? && root.Failure? ==> root.error == UnsupportedRuntime)
      && (v.None? && root.Success? ==> ValidateDeployPath(root.value, roots).None?)
  {
    var path, roots := Trim(intent.deployPath), NormalizeRoots(cfg.deployRoots);
    TrimIsTrimmed(intent.deployPath);
    PathVerdict(cfg, intent.deployPath);
    ResolvesExactly(path, intent.runtimeType);
    var v := ValidateDeployPath(path, roots);
    if v.Some? {
      FaultExactly(intent.deployPath, cfg.deployRoots, v.value);
    } else if ResolveWebRoot(path, intent.runtimeType).Success? {
      WebRootInherits(path, intent.runtimeType, roots);
    }
  }

  lemma TlsChecks(cfg: Config, intent: ApplyIntent)
    ensures var mat := TlsMaterialization(intent);
      && (mat.Success? <==> TlsNamed(intent))
      && (mat.Failure? ==> mat.error == TlsPathsMissing)
      && (mat.Success? ==> (mat.value.Some? <==> intent.tlsEnabled))
    ensures intent.tlsEnabled ==> (NormalizeRoots(cfg.tlsRoots) == [] <==> !TlsRooted(cfg, intent))
  {
    NormalizedEmpty(cfg.tlsRoots);
  }

  lemma ChecksExactly(cfg: Config, intent: ApplyIntent, certOk: bool)
    ensures var check := Precheck(cfg, intent, certOk);
      && (check.None? <==> Allowed(cfg, intent, certOk))
      && (check.Some? ==> Hindrance(cfg, intent, certOk, check.value))
  {
    PathChecks(cfg, intent);
    TlsChecks(cfg, intent);
  }

  // ---------------------------------------------------------------- where a run begins

  /** The tls_state a run reports, from what is echoed for the site. */
  function TlsText(echo: string): string {
    if Trim(echo) == "" then "none" else Trim(echo)
  }

  /** The tls_state of its reload receipt. */
  function TlsReloaded(intent: ApplyIntent, echo: string): string {
    if intent.tlsEnabled && ToLower(Trim(intent.tlsLedger)) == "issued" then "applied" else TlsText(echo)
  }

  function FailedFor(intent: ApplyIntent, echo: string, r: Reason): Row {
    Row(intent.site, TlsText(echo), ApplyBody(ApplyFailed, Some(r)))
  }

  function PhaseFor(intent: ApplyIntent, echo: string, phase: ApplyPhase): Row {
    Row(intent.site, TlsText(echo), ApplyBody(phase, None))
  }

  function ReloadedFor(intent: ApplyIntent, echo: string): Row {
    Row(intent.site, TlsReloaded(intent, echo), ApplyBody(ReloadApplied, None))
  }

  lemma RowsAre(cfg: Config, intent: ApplyIntent, echo: string)
    ensures var plan := PlanFor(cfg, intent, echo);
      && (forall r :: FailedRow(plan, r) == FailedFor(intent, echo, r))
      && (forall phase :: PhaseRow(plan, phase) == PhaseFor(intent, echo, phase))
      && ReloadRow(plan) == ReloadedFor(intent, echo)
  {
  }

  lemma LegsAre(cfg: Config, intent: ApplyIntent, echo: string)
    ensures var plan := PlanFor(cfg, intent, echo);
      plan.intent == intent && plan.echo == echo
      && (plan.reload <==> StateText(intent) == "reload_requested") && (plan.resumed <==> StateText(intent) == "applying")
  {
  }

  /** Where the run of an intent stands when it begins: at its first directory exactly when the agent acts on the
      intent and it is allowed; a refused one posts the first thing wrong, and one not acted on posts nothing. */
  ghost predicate BeginsAsAsked(cfg: Config, intent: ApplyIntent, echo: string, certOk: bool, s: Stage) {
    if !Acted(intent) then s == Done
    else if Allowed(cfg, intent, certOk) then s == MkdirAvailable
    else exists r :: Hindrance(cfg, intent, certOk, r) && s == PostLast(FailedFor(intent, echo, r))
  }

  lemma BeginStage(cfg: Config, intent: ApplyIntent, echo: string, certOk: bool)
    ensures var plan, check := PlanFor(cfg, intent, echo), Precheck(cfg, intent, certOk);
      var run := Begin(cfg, intent, echo, certOk);
      && run.plan == plan
      && run.stage == if !Acted(intent) then Done else if check.Some? then PostLast(FailedRow(plan, check.value)) else MkdirAvailable
  {
    ActedIs(intent);
  }

  lemma ActedIs(intent: ApplyIntent)
    ensures var cur := Normal(intent.state);
      Acted(intent) <==> cur == ApplyName(ApplyRequested) || cur == ApplyName(Applying) || cur == ApplyName(ReloadRequested)
  {
  }

  lemma BeginExactly(cfg: Config, intent: ApplyIntent, echo: string, certOk: bool)
    ensures BeginsAsAsked(cfg, intent, echo, certOk, Begin(cfg, intent, echo, certOk).stage)
  {
    ChecksExactly(cfg, intent, certOk);
    BeginStage(cfg, intent, echo, certOk);
    RowsAre(cfg, intent, echo);
  }

  // ---------------------------------------------------------------- what is rendered

  /** The web root: the deploy path, or its `public` child for laravel. */
  function RootFor(intent: ApplyIntent): string {
    var path := Trim(intent.deployPath);
    if ToLower(Trim(intent.runtimeType)) == "laravel" then JoinPath(path, "public") else path
  }

  /** The application on some ports, with or without a certificate. */
  function AppFor(cfg: Config, intent: ApplyIntent, listens: seq<seq<string>>, certs: seq<seq<string>>, keys: seq<seq<string>>): Server {
    Server(listens, [[Trim(intent.domain)]], [[RootFor(intent)]], certs, keys, [],
           [["$uri", "$uri/", LastTarget(intent.runtimeType)]],
           if ServesPhp(intent.runtimeType) then [[Trim(cfg.phpPass)]] else [])
  }

  /** The servers an intent asks for: the application on port 80, unless it is redirected; and with TLS the
      application on port 443 with the intent's certificate and key. */
  function ServersFor(cfg: Config, intent: ApplyIntent): seq<Server> {
    [if intent.tlsEnabled && intent.redirect
     then Server([["80"], ["[::]:80"]], [[Trim(intent.domain)]], [], [], [], [["301", "https://$host$request_uri"]], [], [])
     else AppFor(cfg, intent, [["80"], ["[::]:80"]], [], [])]
    + (if intent.tlsEnabled
       then [AppFor(cfg, intent, [["443", "ssl"], ["[::]:443", "ssl"]], [[Trim(intent.certPath)]], [[Trim(intent.keyPath)]])]
       else [])
  }

  /** The three paths are single plain words. */
  predicate PlainFor(intent: ApplyIntent) {
    && NginxSyntax.Plain(RootFor(intent))
    && (intent.tlsEnabled ==> NginxSyntax.Plain(Trim(intent.certPath)) && NginxSyntax.Plain(Trim(intent.keyPath)))
  }

  /** Site id, domain padding and fastcgi pass are as nginx can read them. */
  predicate ReadableFor(cfg: Config, intent: ApplyIntent) {
    && '\n' !in Trim(intent.site) && Padded(intent.domain)
    && (ServesPhp(intent.runtimeType) ==> NginxSyntax.Plain(Trim(cfg.phpPass)))
  }

  /** The text reads as the servers the intent asks for, exactly when its paths are plain words. */
  ghost predicate Says(cfg: Config, intent: ApplyIntent, text: string) {
    ReadableFor(cfg, intent) ==> (ReadSite(text) == Some(ServersFor(cfg, intent)) <==> PlainFor(intent))
  }

  lemma RootIs(cfg: Config, intent: ApplyIntent)
    requires RenderSiteConfig(Input(cfg, intent)).Success?
    ensures Input(cfg, intent).webRoot == RootFor(intent)
  {
    TrimIsTrimmed(intent.deployPath);
    ResolvesExactly(Trim(intent.deployPath), intent.runtimeType);
    RootRendered(Input(cfg, intent));
  }

  lemma RootRendered(input: RenderInput)
    requires RenderSiteConfig(input).Success?
    ensures input.webRoot != ""
  {
  }

  lemma InputIs(cfg: Config, intent: ApplyIntent)
    requires TlsNamed(intent)
    ensures var input := Input(cfg, intent);
      && input.site == intent.site && input.domain == intent.domain && input.runtimeType == intent.runtimeType
      && input.phpPass == cfg.phpPass && (input.tls.Some? <==> intent.tlsEnabled)
      && (input.tls.Some? ==> input.tls.value == Tls(Trim(intent.certPath), Trim(intent.keyPath), intent.redirect))
  {
  }

  lemma AppIs(cfg: Config, intent: ApplyIntent, input: RenderInput, listens: seq<seq<string>>, certs: seq<seq<string>>, keys: seq<seq<string>>)
    requires input.domain == intent.domain && input.webRoot == RootFor(intent)
    requires input.runtimeType == intent.runtimeType && input.phpPass == cfg.phpPass
    ensures AppServer(listens, certs, keys, input) == AppFor(cfg, intent, listens, certs, keys)
  {
  }

  lemma IntendedFor(cfg: Config, intent: ApplyIntent, input: RenderInput)
    requires input == Input(cfg, intent) && RenderSiteConfig(input).Success? && TlsNamed(intent)
    ensures Intended(input) == ServersFor(cfg, intent) && (PlainPaths(input) <==> PlainFor(intent))
  {
    RootIs(cfg, intent);
    InputIs(cfg, intent);
    AppIs(cfg, intent, input, PlainPorts, [], []);
    if intent.tlsEnabled {
      TrimIsTrimmed(intent.certPath);
      TrimIsTrimmed(intent.keyPath);
      AppIs(cfg, intent, input, SecurePorts, [[Trim(intent.certPath)]], [[Trim(intent.keyPath)]]);
    } else {
      assert ServersFor(cfg, intent) == [AppFor(cfg, intent, PlainPorts, [], [])];
    }
  }

  /** The text rendered for an intent says what the intent asks for. */
  lemma TextAsAsked(cfg: Config, intent: ApplyIntent, echo: string)
    requires PlanFor(cfg, intent, echo).conf.Success? && TlsNamed(intent)
    ensures Says(cfg, intent, PlanFor(cfg, intent, echo).conf.value)
  {
    var input := Input(cfg, intent);
    PlanRenders(cfg, intent, echo);
    IntendedFor(cfg, intent, input);
    InputIs(cfg, intent);
    if ReadableFor(cfg, intent) {
      ReadsBackExactly(input);
    }
  }

  lemma PlanRenders(cfg: Config, intent: ApplyIntent, echo: string)
    ensures PlanFor(cfg, intent, echo).conf == RenderSiteConfig(Input(cfg, intent))
  {
  }

  /** A web root that is served is one the configured roots admit. */
  lemma RootAdmitted(cfg: Config, intent: ApplyIntent)
    requires Hostable(cfg, intent)
    ensures var root := RootFor(intent); IsAbs(root) && NoDots(Components(root)) && AdmittedBy(cfg.deployRoots, root)
  {
    var path, roots := Trim(intent.deployPath), NormalizeRoots(cfg.deployRoots);
    TrimIsTrimmed(intent.deployPath);
    if ToLower(Trim(intent.runtimeType)) == "laravel" {
      PublicChild(path);
      AdmissionGrows(cfg.deployRoots, path, JoinPath(path, "public"));
    }
  }

  predicate Secure(s: Server) {
    s.listens == [["443", "ssl"], ["[::]:443", "ssl"]]
  }

  predicate Redirects(s: Server) {
    s.redirects == [["301", "https://$host$request_uri"]]
  }

  /** Which of the servers there are. */
  lemma ServersPresent(cfg: Config, intent: ApplyIntent)
    ensures var servers := ServersFor(cfg, intent);
      && ((exists s :: s in servers && Secure(s)) <==> intent.tlsEnabled)
      && ((exists s :: s in servers && Redirects(s)) <==> intent.tlsEnabled && intent.redirect)
      && (forall s :: s in servers && Secure(s) ==>
            s.certificates == [[Trim(intent.certPath)]] && s.keys == [[Trim(intent.keyPath)]] && s.roots == [[RootFor(intent)]])
  {
    var servers := ServersFor(cfg, intent);
    var first := servers[0];
    assert |[["80"], ["[::]:80"]][0]| == 1 && |[["443", "ssl"], ["[::]:443", "ssl"]][0]| == 2;
    assert !Secure(first) by {
      assert first.listens[0] == ["80"] && |first.listens[0]| == 1;
    }
    assert first in servers;
    if intent.tlsEnabled {
      var second := servers[1];
      assert servers == [first, second] && Secure(second) && second in servers && second.redirects == [];
    } else {
      assert servers == [first];
    }
  }

  // ---------------------------------------------------------------- where it is put

  function NameFor(intent: ApplyIntent): string {
    "rp-" + ToLower(Trim(intent.site)) + ".conf"
  }

  /** The site's file in the available root, and its link in the enabled one. */
  function AvailableFor(cfg: Config, intent: ApplyIntent): string {
    JoinPath(Trim(cfg.availableRoot), NameFor(intent))
  }

  function EnabledFor(cfg: Config, intent: ApplyIntent): string {
    JoinPath(Trim(cfg.enabledRoot), NameFor(intent))
  }

  lemma PathsAre(cfg: Config, intent: ApplyIntent, echo: string)
    requires PlanFor(cfg, intent, echo).paths.Success?
    ensures PlanFor(cfg, intent, echo).paths.value == Managed(AvailableFor(cfg, intent), EnabledFor(cfg, intent))
  {
  }

  /** A whole text that says what the intent asks for is in the available file, and the enabled link points at it. */
  ghost predicate DiskAsAsked(cfg: Config, intent: ApplyIntent, d: Disk.Disk) {
    exists text :: FileAt(d, AvailableFor(cfg, intent), text) && Says(cfg, intent, text)
      && LinkAt(d, EnabledFor(cfg, intent), AvailableFor(cfg, intent))
  }

  /** Behind the enabled link nginx has read a text that says what the intent asks for. */
  ghost predicate LoadedAsAsked(cfg: Config, intent: ApplyIntent, loaded: Disk.Snapshot) {
    && EnabledFor(cfg, intent) in loaded && loaded[EnabledFor(cfg, intent)].Shown?
    && Says(cfg, intent, loaded[EnabledFor(cfg, intent)].text)
  }

  lemma LoadedByPlan(cfg: Config, intent: ApplyIntent, echo: string, loaded: Disk.Snapshot)
    requires Serving(PlanFor(cfg, intent, echo), loaded) && TlsNamed(intent)
    ensures LoadedAsAsked(cfg, intent, loaded)
  {
    TextAsAsked(cfg, intent, echo);
    PathsAre(cfg, intent, echo);
  }

  lemma PlacedByPlan(cfg: Config, intent: ApplyIntent, echo: string, d: Disk.Disk)
    requires var plan := PlanFor(cfg, intent, echo);
      && Ready(plan) && FileAt(d, plan.paths.value.available, plan.conf.value)
      && LinkAt(d, plan.paths.value.enabled, plan.paths.value.available)
    requires TlsNamed(intent)
    ensures DiskAsAsked(cfg, intent, d)
  {
    TextAsAsked(cfg, intent, echo);
    PathsAre(cfg, intent, echo);
  }

  // ---------------------------------------------------------------- over every sequence of events

  /** The run is past its checks. */
  predicate Working(s: Stage) {
    (!s.PostLast? && !s.Done?) || (s.PostLast? && SuccessRow(s.row))
  }

  ghost predicate Granted(cfg: Config, run: Run) {
    Working(run.stage) ==> Hostable(cfg, run.plan.intent)
  }

  ghost predicate NginxGranted(cfg: Config, a: State) {
    a.leg.OnNginx? ==> Granted(cfg, a.leg.nginx)
  }

  lemma StaysWorking(run: Run, reply: Reply)
    requires Formed(run) && !run.stage.Done?
    ensures Working(Resume(run, reply).stage) ==> Working(run.stage)
  {
  }

  lemma BeginGranted(cfg: Config, intent: ApplyIntent, echo: string, certOk: bool)
    ensures Granted(cfg, Begin(cfg, intent, echo, certOk))
  {
    BeginStage(cfg, intent, echo, certOk);
    LegsAre(cfg, intent, echo);
    ChecksExactly(cfg, intent, certOk);
    RowsAre(cfg, intent, echo);
  }

  lemma StartGranted(cfg: Config, a: State, e: Event)
    requires e.Start? && (a.gitQueue != [] || a.applyQueue != [])
    ensures NginxGranted(cfg, StartNext(cfg, a, e))
  {
    if a.gitQueue == [] {
      StartsNginx(cfg, a, e);
      BeginGranted(cfg, a.applyQueue[0], EchoOf(a, a.applyQueue[0].site), e.certOk);
    } else {
      StartsGit(cfg, a, e);
    }
  }

  lemma NginxCallGranted(cfg: Config, a: State, run: FormedRun, o: Outcome)
    requires !run.stage.Done? && Granted(cfg, run)
    ensures NginxGranted(cfg, NginxStep(cfg, a, run, o))
  {
    NginxCallWeb(cfg, a, run, o);
    StaysWorking(run, Perform(cfg, a.web, Next(run), o).1);
  }

  lemma CallGranted(cfg: Config, a: State, o: Outcome)
    requires NginxGranted(cfg, a) && !Finished(a.leg)
    ensures NginxGranted(cfg, if a.leg.OnGit? then GitStep(a, a.leg.git, o) else NginxStep(cfg, a, a.leg.nginx, o))
  {
    if a.leg.OnGit? {
      GitCallWeb(a, a.leg.git, o);
    } else {
      NginxCallGranted(cfg, a, a.leg.nginx, o);
    }
  }

  lemma EventGranted(cfg: Config, a: State, e: Event)
    requires NginxGranted(cfg, a)
    ensures NginxGranted(cfg, Happens(cfg, a, e))
  {
    if Possible(cfg, a, e) {
      match e
      case Call(o) => CallGranted(cfg, a, o);
      case Start(_, _, _) => StartGranted(cfg, a, e);
      case _ =>
    }
  }

  /** Over every sequence of events an nginx run past its checks serves an intent whose deploy path the configured
      roots admit, of a known runtime, with what TLS needs; and so (`RootAdmitted`) an admitted web root. */
  lemma {:induction false} OnlyGranted(cfg: Config, a: State, es: seq<Event>)
    requires NginxGranted(cfg, a)
    ensures NginxGranted(cfg, Exec(cfg, a, es))
    decreases |es|
  {
    if es != [] {
      EventGranted(cfg, a, es[0]);
      OnlyGranted(cfg, Happens(cfg, a, es[0]), es[1..]);
    }
  }

  /** What a success receipt about to be sent says of the intent its run serves. */
  ghost predicate ReceiptAsAsked(cfg: Config, intent: ApplyIntent, row: Row, w: Web) {
    && Hostable(cfg, intent) && DiskAsAsked(cfg, intent, w.disk)
    && (row.body.ApplyBody? && row.body.apply.ReloadApplied? ==>
          LoadedAsAsked(cfg, intent, w.loaded) && cfg.accepts(w.loaded))
  }

  lemma LiveAsAsked(cfg: Config, run: Run, w: Web)
    requires RunLive(cfg, run, w) && cfg.accepts(w.loaded) && Granted(cfg, run)
    requires run.stage.PostLast? && SuccessRow(run.stage.row)
    ensures ReceiptAsAsked(cfg, run.plan.intent, run.stage.row, w)
  {
    PlacedByPlan(cfg, run.plan.intent, run.plan.echo, w.disk);
    if ReloadReceipt(run.stage) {
      LoadedByPlan(cfg, run.plan.intent, run.plan.echo, w.loaded);
    }
  }

  /** After a ping, a success receipt about to be sent is for one of the polled intents: a text that says what it asks
      for is in place behind the site's link, and at a reload receipt nginx has read and accepted it. */
  lemma SuccessAsPolled(cfg: Config, a: State, ping: Event, start: State, es: seq<Event>) returns (i: nat)
    requires ConfigLoaded(cfg) && Live(cfg, a) && ping.Ping? && Possible(cfg, a, ping) && start == Effect(cfg, a, ping)
    requires forall e :: e in es ==> WithinCycle(e)
    requires var leg := Exec(cfg, start, es).leg; leg.OnNginx? && leg.nginx.stage.PostLast? && SuccessRow(leg.nginx.stage.row)
    ensures i < |ping.apply|
    ensures var b := Exec(cfg, start, es);
      b.leg.nginx.plan.intent == ping.apply[i] && ReceiptAsAsked(cfg, ping.apply[i], b.leg.nginx.stage.row, b.web)
  {
    PingStarts(cfg, a, ping, start);
    i := SuccessInOrder(cfg, if NginxConfigured(cfg) then ping.apply else [], start, es);
  }

  lemma PingStarts(cfg: Config, a: State, ping: Event, start: State)
    requires ConfigLoaded(cfg) && Live(cfg, a) && ping.Ping? && Possible(cfg, a, ping) && start == Effect(cfg, a, ping)
    ensures Live(cfg, start) && start.leg == NoLeg
    ensures var polled := if NginxConfigured(cfg) then ping.apply else []; ServesInOrder(polled, start)
  {
    EventLive(cfg, a, ping);
    var polled := if NginxConfigured(cfg) then ping.apply else [];
    assert polled[0..] == polled;
  }

  lemma SuccessInOrder(cfg: Config, polled: seq<ApplyIntent>, a: State, es: seq<Event>) returns (i: nat)
    requires ConfigLoaded(cfg) && Live(cfg, a) && NginxGranted(cfg, a) && ServesInOrder(polled, a)
    requires forall e :: e in es ==> WithinCycle(e)
    requires var leg := Exec(cfg, a, es).leg; leg.OnNginx? && leg.nginx.stage.PostLast? && SuccessRow(leg.nginx.stage.row)
    ensures i < |polled|
    ensures var b := Exec(cfg, a, es);
      b.leg.nginx.plan.intent == polled[i] && ReceiptAsAsked(cfg, polled[i], b.leg.nginx.stage.row, b.web)
  {
    AlwaysLive(cfg, a, es);
    OnlyGranted(cfg, a, es);
    ServesAll(cfg, polled, a, es);
    i := StateAsAsked(cfg, polled, Exec(cfg, a, es));
  }

  lemma StateAsAsked(cfg: Config, polled: seq<ApplyIntent>, b: State) returns (i: nat)
    requires Live(cfg, b) && NginxGranted(cfg, b) && ServesInOrder(polled, b)
    requires b.leg.OnNginx? && b.leg.nginx.stage.PostLast? && SuccessRow(b.leg.nginx.stage.row)
    ensures i < |polled|
    ensures b.leg.nginx.plan.intent == polled[i] && ReceiptAsAsked(cfg, polled[i], b.leg.nginx.stage.row, b.web)
  {
    LiveReceipt(cfg, b);
    i := Served(polled, b);
  }

  lemma LiveReceipt(cfg: Config, b: State)
    requires Live(cfg, b) && NginxGranted(cfg, b)
    requires b.leg.OnNginx? && b.leg.nginx.stage.PostLast? && SuccessRow(b.leg.nginx.stage.row)
    ensures ReceiptAsAsked(cfg, b.leg.nginx.plan.intent, b.leg.nginx.stage.row, b.web)
  {
    LiveAsAsked(cfg, b.leg.nginx, b.web);
  }

  lemma Served(polled: seq<ApplyIntent>, b: State) returns (i: nat)
    requires ServesInOrder(polled, b) && b.leg.OnNginx?
    ensures i < |polled| && polled[i] == b.leg.nginx.plan.intent
  {
    i := |polled| - |b.applyQueue| - 1;
  }

  // ---------------------------------------------------------------- the rows of a run

  predicate EndsFailed(intent: ApplyIntent, echo: string, row: Row) {
    row.body.ApplyBody? && row.body.applyReason.Some? && row == FailedFor(intent, echo, row.body.applyReason.value)
  }

  /** The apply leg: the applying receipt when it is due and came to be sent, then, unless it was not acknowledged,
      the applied row or a failure. */
  predicate AppliesAsAsked(intent: ApplyIntent, echo: string, rows: seq<Row>, last: Option<Row>, heard: bool) {
    var resumed, applying := StateText(intent) == "applying", [PhaseFor(intent, echo, Applying)];
    if last.None? then !resumed && rows == applying && !heard
    else
      && (last.value == PhaseFor(intent, echo, Applied) || EndsFailed(intent, echo, last.value))
      && rows == (if resumed || last.value == FailedFor(intent, echo, MkdirFailed) then [] else applying) + [last.value]
  }

  /** What a run of an intent sends: nothing for one the agent does not act on, what is wrong for one that is refused,
      and otherwise the rows of its leg. */
  ghost predicate NginxSendsAsAsked(
      cfg: Config, intent: ApplyIntent, echo: string, certOk: bool, rows: seq<Row>, last: Option<Row>, heard: bool) {
    if !Acted(intent) then last.None? && rows == []
    else if !Allowed(cfg, intent, certOk) then
      exists r :: Hindrance(cfg, intent, certOk, r) && last == Some(FailedFor(intent, echo, r)) && rows == [FailedFor(intent, echo, r)]
    else if StateText(intent) == "reload_requested" then
      last.Some? && rows == [last.value] && (last.value == ReloadedFor(intent, echo) || EndsFailed(intent, echo, last.value))
    else AppliesAsAsked(intent, echo, rows, last, heard)
  }

  /** What it may have done: nothing when it was refused or not acted on; and a success row is as the intent asks. */
  ghost predicate NginxDoneAsAsked(
      cfg: Config, intent: ApplyIntent, certOk: bool, last: Option<Row>, before: Web, after: Web) {
    && (!Acted(intent) || !Allowed(cfg, intent, certOk) ==> after == before)
    && (last.Some? && SuccessRow(last.value) ==> ReceiptAsAsked(cfg, intent, last.value, after))
  }
}
