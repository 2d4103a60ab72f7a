/** One run of nginx convergence for one site. The run's own control is separated from the machine it acts
    on: `Next` is the call it makes, `Perform` what the call does, `Resume` how the run reads the reply. */
module NginxLeg {
  import opened Text
  import opened UnixPath
  import opened DeployPath
  import opened SitePaths
  import opened Render
  import opened Protocol
  import Disk

  // ---------------------------------------------------------------- before the first call

  /** The intent served, the tls_state echoed for it, and what the run has computed from them and the
      configuration. */
  datatype Plan = Plan(
    intent: ApplyIntent, echo: string, site: string, tls: string, tlsAfter: string, reload: bool, resumed: bool,
    conf: Result<string, RenderError>, paths: Result<Managed, SitePathError>,
    availableDir: string, enabledDir: string, fileDir: string)

  function TlsMaterialization(intent: ApplyIntent): Result<Option<Tls>, Reason> {
    var c, k := Trim(intent.certPath), Trim(intent.keyPath);
    if !intent.tlsEnabled then Success(None)
    else if c == "" || k == "" then Failure(TlsPathsMissing)
    else Success(Some(Tls(c, k, intent.redirect)))
  }

  /** The tls_state of the reload receipt. */
  function TlsAfterReload(intent: ApplyIntent, tls: string): string {
    if intent.tlsEnabled && ToLower(Trim(intent.tlsLedger)) == "issued" then "applied" else tls
  }

  function WebRootOf(intent: ApplyIntent): string {
    var r := ResolveWebRoot(Trim(intent.deployPath), intent.runtimeType);
    if r.Success? then r.value else ""
  }

  /** The checks both legs make before touching the disk; `None` lets the run go on. */
  function Precheck(cfg: Config, intent: ApplyIntent, certOk: bool): Option<Reason> {
    var deployPath, roots := Trim(intent.deployPath), NormalizeRoots(cfg.deployRoots);
    var webRoot, mat := ResolveWebRoot(deployPath, intent.runtimeType), TlsMaterialization(intent);
    if ValidateDeployPath(deployPath, roots).Some? then Some(InvalidDeployPath(ValidateDeployPath(deployPath, roots).value))
    else if webRoot.Failure? then Some(BadWebRoot(webRoot.error))
    else if ValidateDeployPath(webRoot.value, roots).Some? then Some(InvalidWebRoot(ValidateDeployPath(webRoot.value, roots).value))
    else if mat.Failure? then Some(mat.error)
    else if mat.value.Some? && NormalizeRoots(cfg.tlsRoots) == [] then Some(TlsRootsMissing)
    else if mat.value.Some? && !certOk then Some(CertificateInvalid)
    else if Trim(cfg.availableRoot) == "" || Trim(cfg.enabledRoot) == "" then Some(NginxRootsMissing)
    else None
  }

  function Input(cfg: Config, intent: ApplyIntent): RenderInput {
    var mat := TlsMaterialization(intent);
    RenderInput(intent.site, intent.domain, WebRootOf(intent), intent.runtimeType, cfg.phpPass,
                if mat.Success? then mat.value else None)
  }

  function PlanFor(cfg: Config, intent: ApplyIntent, echo: string): Plan {
    var tls, paths := EchoOrNone(echo), SiteConfigPaths(cfg.availableRoot, cfg.enabledRoot, intent.site);
    Plan(intent, echo, intent.site, tls, TlsAfterReload(intent, tls),
         Normal(intent.state) == ApplyName(ReloadRequested), Normal(intent.state) == ApplyName(Applying),
         RenderSiteConfig(Input(cfg, intent)), paths,
         Clean(Trim(cfg.availableRoot)), Clean(Trim(cfg.enabledRoot)),
         if paths.Success? then Dir(paths.value.available) else "")
  }

  // ---------------------------------------------------------------- control

  datatype Stage =
    | MkdirAvailable | MkdirEnabled | PostApplying
    | MkdirForFile | MakeTemp | WriteTemp | SealTemp | RenameTemp | DropTemp(written: bool)
    | InspectLink | RemoveLink | MakeLink
    | Test | Reload | PostLast(row: Row) | Done

  datatype Run = Run(plan: Plan, stage: Stage, temp: string)

  datatype Action =
    | MakeAll(path: string) | NewTemp(dir: string) | Write(path: string, text: string) | SyncAndClose(path: string)
    | Move(from: string, to: string) | Unlink(path: string) | Look(path: string) | Link(target: string, path: string)
    | TestConfig | ReloadConfig | Post(row: Row)

  datatype Reply = Good | Bad | Named(path: string) | Seen(link: Disk.LinkState)

  function FailedRow(plan: Plan, reason: Reason): Row {
    Row(plan.site, plan.tls, ApplyBody(ApplyFailed, Some(reason)))
  }

  function PhaseRow(plan: Plan, phase: ApplyPhase): Row {
    Row(plan.site, plan.tls, ApplyBody(phase, None))
  }

  function ReloadRow(plan: Plan): Row {
    Row(plan.site, plan.tlsAfter, ApplyBody(ReloadApplied, None))
  }

  /** `Run` up to its first call. An unknown state is not for the agent. */
  function Begin(cfg: Config, intent: ApplyIntent, echo: string, certOk: bool): Run {
    var plan, cur := PlanFor(cfg, intent, echo), Normal(intent.state);
    var check := Precheck(cfg, intent, certOk);
    Run(plan,
        if cur != ApplyName(ApplyRequested) && cur != ApplyName(Applying) && cur != ApplyName(ReloadRequested) then Done
        else if check.Some? then PostLast(FailedRow(plan, check.value))
        else MkdirAvailable,
        "")
  }

  predicate Ready(plan: Plan) {
    plan.conf.Success? && plan.paths.Success?
  }

  /** From the applying receipt (sent, skipped or not due) to the first write. */
  function Materialize(plan: Plan): Stage {
    if plan.conf.Failure? then PostLast(FailedRow(plan, RenderFailed(plan.conf.error)))
    else if plan.paths.Failure? then PostLast(FailedRow(plan, BadSitePaths(plan.paths.error)))
    else MkdirForFile
  }

  /** Stages that use the rendered text and the two managed paths. */
  predicate Materializing(s: Stage) {
    s.MkdirForFile? || s.MakeTemp? || s.WriteTemp? || s.SealTemp? || s.RenameTemp? || s.DropTemp?
    || s.InspectLink? || s.RemoveLink? || s.MakeLink?
  }

  predicate Formed(run: Run) {
    Materializing(run.stage) ==> Ready(run.plan)
  }

  type FormedRun = r: Run | Formed(r) witness Nothing

  /** A run with nothing to do. */
  const Nothing: Run :=
    Run(Plan(ApplyIntent("", "", "", "", "", false, "", "", false, ""), "", "", "none", "none", false, false, Failure(EmptyDomain), Failure(EmptySite), "", "", ""), Done, "")

  function Next(run: Run): Action
    requires !run.stage.Done? && Formed(run)
  {
    var p := run.plan;
    match run.stage
    case MkdirAvailable => MakeAll(p.availableDir)
    case MkdirEnabled => MakeAll(p.enabledDir)
    case PostApplying => Post(PhaseRow(p, Applying))
    case MkdirForFile => MakeAll(p.fileDir)
    case MakeTemp => NewTemp(p.fileDir)
    case WriteTemp => Write(run.temp, p.conf.value)
    case SealTemp => SyncAndClose(run.temp)
    case RenameTemp => Move(run.temp, p.paths.value.available)
    case DropTemp(_) => Unlink(run.temp)
    case InspectLink => Look(p.paths.value.enabled)
    case RemoveLink => Unlink(p.paths.value.enabled)
    case MakeLink => Link(p.paths.value.available, p.paths.value.enabled)
    case Test => TestConfig
    case Reload => ReloadConfig
    case PostLast(row) => Post(row)
  }

  function Failing(run: Run, reason: Reason): Stage {
    PostLast(FailedRow(run.plan, reason))
  }

  function Resume(run: Run, reply: Reply): (next: Run)
    requires !run.stage.Done? && Formed(run)
    ensures next.plan == run.plan && Formed(next)
  {
    var p, ok := run.plan, reply.Good?;
    match run.stage
    case MkdirAvailable => run.(stage := if ok then MkdirEnabled else Failing(run, MkdirFailed))
    case MkdirEnabled =>
      run.(stage := if !ok then Failing(run, MkdirFailed) else if p.reload || p.resumed then Materialize(p) else PostApplying)
    case PostApplying => run.(stage := if ok then Materialize(p) else Done)
    case MkdirForFile => run.(stage := if ok then MakeTemp else Failing(run, WriteFailed))
    case MakeTemp =>
      if reply.Named? then run.(stage := WriteTemp, temp := reply.path) else run.(stage := Failing(run, WriteFailed))
    case WriteTemp => run.(stage := if ok then SealTemp else DropTemp(false))
    case SealTemp => run.(stage := if ok then RenameTemp else DropTemp(false))
    case RenameTemp => run.(stage := DropTemp(ok))
    case DropTemp(written) => run.(stage := if written then InspectLink else Failing(run, WriteFailed))
    case InspectLink => run.(stage := AfterLook(run, reply))
    case RemoveLink => run.(stage := if ok then MakeLink else Failing(run, SymlinkFailed))
    case MakeLink => run.(stage := if ok then Test else Failing(run, SymlinkFailed))
    case Test =>
      run.(stage := if !ok then Failing(run, ValidationFailed) else if p.reload then Reload else PostLast(PhaseRow(p, Applied)))
    case Reload => run.(stage := if ok then PostLast(ReloadRow(p)) else Failing(run, ReloadFailed))
    case PostLast(_) => run.(stage := Done)
  }

  function AfterLook(run: Run, reply: Reply): Stage
    requires run.plan.paths.Success?
  {
    match reply
    case Seen(Absent) => MakeLink
    case Seen(LinkTo(target)) => if target == run.plan.paths.value.available then Test else RemoveLink
    case _ => Failing(run, SymlinkFailed)
  }

  // ---------------------------------------------------------------- the machine

  /** The disk and the configuration the running nginx holds. */
  datatype Web = Web(disk: Disk.Disk, loaded: Disk.Snapshot)

  function Enabled(cfg: Config, disk: Disk.Disk): Disk.Snapshot {
    Disk.View(disk, Clean(Trim(cfg.enabledRoot)))
  }

  function Amount(o: Outcome): nat {
    if o.FailsAfter? then o.done else 0
  }

  function OnDisk(w: Web, result: (Disk.Disk, bool)): (Web, Reply) {
    (w.(disk := result.0), if result.1 then Good else Bad)
  }

  function Perform(cfg: Config, w: Web, a: Action, o: Outcome): (Web, Reply) {
    match a
    case MakeAll(path) => OnDisk(w, Disk.MkdirAll(w.disk, path, !o.Succeeds?, Amount(o)))
    case NewTemp(dir) =>
      if !o.TempNamed? || !Disk.CreateTemp(w.disk, dir, o.suffix).1 then (w, Bad)
      else (w.(disk := Disk.CreateTemp(w.disk, dir, o.suffix).0), Named(Disk.TempPath(dir, o.suffix)))
    case Write(path, text) => OnDisk(w, Disk.WriteFile(w.disk, path, text, !o.Succeeds?, Amount(o)))
    case SyncAndClose(path) => (w, if o.Succeeds? then Good else Bad)
    case Move(from, to) => OnDisk(w, Disk.Rename(w.disk, from, to, !o.Succeeds?))
    case Unlink(path) => OnDisk(w, Disk.Remove(w.disk, path, !o.Succeeds?))
    case Look(path) => (w, Seen(Disk.Inspect(w.disk, path, !o.Succeeds?)))
    case Link(target, path) => OnDisk(w, Disk.Symlink(w.disk, target, path, !o.Succeeds?))
    case TestConfig => (w, if o.Succeeds? && cfg.accepts(Enabled(cfg, w.disk)) then Good else Bad)
    case ReloadConfig =>
      (if o.Succeeds? || o.FailsAfter? then w.(loaded := Enabled(cfg, w.disk)) else w, if o.Succeeds? then Good else Bad)
    case Post(_) => (w, if o.Acked? then Good else Bad)
  }

  /** One call of the run and its reading of the reply. */
  function Step(cfg: Config, w: Web, run: Run, o: Outcome): (r: (Web, Run))
    requires !run.stage.Done? && Formed(run)
    ensures r.1.plan == run.plan && Formed(r.1)
  {
    var (w', reply) := Perform(cfg, w, Next(run), o);
    (w', Resume(run, reply))
  }
}
