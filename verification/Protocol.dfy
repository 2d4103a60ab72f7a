/** What agent and Central exchange: ledger phases, intents, receipts, and the fixed configuration. */
module Protocol {
  import opened Text
  import opened DeployPath
  import opened SitePaths
  import opened Render
  import opened Utf8
  import Disk

  // ---------------------------------------------------------------- ledger phases

  datatype GitPhase = GitRequested | GitFetching | GitFetched | GitApplying | GitApplied | GitFailed

  datatype ApplyPhase = ApplyRequested | Applying | Applied | ReloadRequested | ReloadApplied | ApplyFailed

  function GitName(p: GitPhase): string {
    match p
    case GitRequested => "requested"
    case GitFetching => "fetching"
    case GitFetched => "fetched"
    case GitApplying => "applying"
    case GitApplied => "applied"
    case GitFailed => "failed"
  }

  function ApplyName(p: ApplyPhase): string {
    match p
    case ApplyRequested => "requested"
    case Applying => "applying"
    case Applied => "applied"
    case ReloadRequested => "reload_requested"
    case ReloadApplied => "reload_applied"
    case ApplyFailed => "failed"
  }

  /** How both legs read a phase name from an intent. */
  function Normal(state: string): string {
    Trim(ToLower(state))
  }

  // ---------------------------------------------------------------- intents

  datatype GitIntent = GitIntent(
    site: string, deployPath: string, url: string, branch: string, desired: string,
    state: string, keyConfigured: bool)

  datatype ApplyIntent = ApplyIntent(
    site: string, domain: string, deployPath: string, runtimeType: string, state: string,
    tlsEnabled: bool, certPath: string, keyPath: string, redirect: bool, tlsLedger: string)

  // ---------------------------------------------------------------- receipts

  datatype Reason =
    | GitMissing | IntentIncomplete | InvalidDeployPath(e: PathError) | KeyNotConfigured | KeyPathEmpty | KeyUnusable
    | SshCommandInvalid | InvalidParent(e: PathError) | ParentMissing | RepoCheckFailed | NotARepository | PathStatFailed
    | CloneFailed | FetchFailed | CommitNotFound | ResetFailed | ReadCommitFailed
    | BadWebRoot(w: WebRootError) | InvalidWebRoot(e: PathError)
    | TlsPathsMissing | TlsRootsMissing | CertificateInvalid | NginxRootsMissing | MkdirFailed
    | RenderFailed(r: RenderError) | BadSitePaths(s: SitePathError) | WriteFailed | SymlinkFailed
    | ValidationFailed | ReloadFailed

  datatype Body =
    | GitBody(git: GitPhase, gitReason: Option<Reason>, commit: Option<seq<byte>>)
    | ApplyBody(apply: ApplyPhase, applyReason: Option<Reason>)

  /** One `site_runtime_reports` row. Of an observed commit only the id is kept here. */
  datatype Row = Row(site: string, tls: string, body: Body)

  /** The tls_state a leg reports: the trimmed echo, `none` when blank. */
  function EchoOrNone(echo: string): (tls: string)
    ensures tls != ""
  {
    if Trim(echo) == "" then "none" else Trim(echo)
  }

  // ---------------------------------------------------------------- configuration and environment

  /** `accepts` is `nginx -t` as a function of the files it reads. */
  datatype Config = Config(
    deployRoots: seq<string>, availableRoot: string, enabledRoot: string, phpPass: string,
    tlsRoots: seq<string>, keysDir: string, knownHosts: string,
    accepts: Disk.Snapshot -> bool)

  /** `normalizeDeployRoots`: blank entries dropped, the rest trimmed. */
  function NormalizeRoots(roots: seq<string>): seq<string> {
    if roots == [] then []
    else if Trim(roots[0]) == "" then NormalizeRoots(roots[1..])
    else [Trim(roots[0])] + NormalizeRoots(roots[1..])
  }

  /** A commit id as `%H` prints it. */
  predicate IsHash(h: seq<byte>) {
    h != [] && forall i :: 0 <= i < |h| ==> 0x30 <= h[i] <= 0x39 || 0x61 <= h[i] <= 0x66
  }

  type Hash = h: seq<byte> | IsHash(h) witness [0x30]

  /** What the environment answers to one call. A call cut short by a kill is one that fails and is
      followed by the crash. */
  datatype Outcome =
    | Succeeds
    | Fails
    | FailsAfter(done: nat)
    | TempNamed(suffix: string)
    | Acked
    | ReplyLost
    | RequestLost
    | Remote(refs: map<string, Hash>, names: map<string, Hash>, complete: bool)
    | Logged(subject: seq<byte>, author: seq<byte>, terminators: nat)

  /** Whether Central received the receipt of a post. */
  predicate Received(o: Outcome) {
    o.Acked? || o.ReplyLost?
  }
}
