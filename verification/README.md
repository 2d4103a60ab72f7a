# Convergence model of the ReleasePanel agent

This project models the agent as a convergence engine and proves what its runs keep true. Each poll cycle the
agent reads a snapshot of Central's ledger, works on disk (git checkouts, nginx site files, a convergence
record) and posts ordered receipts. Any call may fail, any reply may be lost, and the process may die between
two calls.

`dafny verify dfyconfig.toml` checks everything.

## How the model is built

- **Text and paths.** `Text`, `UnixPath`, `PathLoop`, `DeployPath`, `SitePaths`: Go's trimming, folding and
  `path/filepath` on Unix. `filepath.Clean` has two forms, a walk over components and the buffer loop of Go's
  library, and the loop is proved to compute the walk.
- **Printers against readers.** `Render` prints the nginx template; `NginxSyntax` is an independent lexer and
  block parser, `ServerView` reads servers out of parsed blocks, `RenderRoundTrip` composes them and `RenderExact`
  shows the conditions on paths are needed. `SshCommand`
  prints the git ssh command; `Shell` tokenizes it by sections 2.2.2, 2.2.3 and 2.3 of the POSIX.1-2017 Shell
  Command Language. `Utf8` is section 4 of RFC 3629; `BoundedText` and `CommitRecord` work on raw bytes.
- **Two legs as automata.** `NginxLeg` and `GitLeg` split a run into the call it makes next (`Next`), what the
  call does to the machine (`Perform`, under an outcome the environment chooses) and how the run reads the reply
  (`Resume`). A run killed anywhere is a prefix of its steps; a call cut short is one that fails part-way and is
  followed by a crash. `NginxRuns`, `CrashRecovery`, `Recovery` and `GitRuns` say what any part of a run keeps;
  `SmoothRun`, `Refusals` and `GitSmooth` say exactly how a run ends in which no call fails, from every disk and
  every place, and that it converges after killed runs.
- **The agent as an event machine.** `Agent` puts the two legs, the ledger, the tls echo map in memory and on
  disk, the queues of a cycle, crashes, operator requests and outside edits between runs into one state.
  `LedgerOrder`, `LiveConfig`, `TlsEcho` and `GitReceipts` prove invariants over every sequence of events.
- **Intents.** `Admission`, `GitIntents`, `NginxIntents` and `Materials` say what the runs make of the fields of an
  intent and of the configuration, in their own terms: who is refused and why, which commit is deployed where, what
  nginx reads, and that it is so for the polled intent over every sequence of events.
- **The agent as a program.** `AgentHost.Host` is the imperative form: fields that methods update call by call
  in the order of the source, and a log of the rows sent and how each was answered. Its `Valid` says the fields are a state the
  event machine reaches, so every invariant holds between any two statements, which is also where a crash can
  fall; its contracts, in terms of `AgentSpec`, say exactly which rows each run sends and what they mean.
- **Reconcile.** `Reconcile` is the fingerprint protocol as single steps of any number of processes over one
  state directory; `ReconcileFacts` and `ReconcileRestarts` hold its theorems; `Runners.Runner` is the program, with other processes
  acting between any two of its calls and the convergence record updated in place through a reference.

Two observations on the source's own text, which the model follows. The template emits one `listen 80` line per
server, as in `internal/nginxruntime/render.go:139-145`; `internal/nginxruntime/render_test.go:97-100` counts two.
The value read at `internal/gitdeploy/executor.go:220` is never used; the reported commit id comes from line 239.

Where a property does not hold of every input, the exact condition is proved: `SitePaths.PathsInsideRoots` (when
"outside root" is reported), `ParentPath.ParentExact` and `ParentPath.TrimmedParentExact` (when the parent of a
deploy path passes), `CommitRecord.CommitRoundTrip` (how many terminators the parser accepts),
`RenderExact.ReadsBackExactly` (which validated paths nginx reads back), `Materials.ReadyExactly` (which intents can
be materialized), `Refusals.ConvergesExactly` (the disks a site converges on), `GitSmooth.ConvergesExactly` (when a
failure-free git run reports applied), `BoundedText.ReportedReason` (which failure texts are reported whole),
`TlsEcho.SurvivesExactly` (which saved states survive a reload of the echo file), `ReconcileFacts.SkipIsSound` (when
the fast path skips).

## Model

| member | source | states |
|---|---|---|
| `UnixPath.CleanIdempotent` | internal/gitdeploy/pathvalidate.go:19 | cleaning an absolute path twice is cleaning it once, and what remains has no empty, `.` or `..` component |
| `UnixPath.CleanInjective` | internal/gitdeploy/pathvalidate.go:39-45 | two absolute paths clean to the same text exactly when they resolve to the same components |
| `UnixPath.UnderMeansPrefix` | internal/gitdeploy/pathvalidate.go:43 | the textual test "equal or prefixed by root and separator" is exactly the component-prefix relation |
| `UnixPath.JoinPlain` | internal/nginxruntime/converge.go:324-325 | joining a plain name below an absolute path appends one component and yields a clean path |
| `PathLoop.CleanLoop` | internal/gitdeploy/pathvalidate.go:19 | the byte-buffer loop of the library computes the component-stack form of Clean on every string |
| `DeployPath.SearchIsAdmission` | internal/gitdeploy/pathvalidate.go:31-48 | the search over roots accepts exactly when some root admits the path and every earlier entry is blank or usable |
| `DeployPath.ValidateExact` | internal/gitdeploy/pathvalidate.go:11-49 | a deploy path is accepted if and only if it is absolute, resolves to a non-root path, has no `..` text and is admitted |
| `DeployPath.ResolvesExactly` | internal/nginxruntime/webroot.go:10-33 | which deploy path and runtime text give which web root: the path, or its `public` child for laravel; and when each of the two errors is returned |
| `ParentPath.ParentExact` | internal/gitdeploy/executor.go:108-111 | when the parent of an accepted deploy path passes too: always after a final slash or `.`, exactly under a root strictly above the path after a name, exactly without `..` text after a `..` |
| `ParentPath.TrimmedParentExact` | internal/gitdeploy/executor.go:108-111 | for every absolute path: its parent, trimmed as the check trims it, passes exactly when no component contains `..` and a usable root is at or above it |
| `ParentPath.SoleRootFails` | internal/gitdeploy/executor.go:108-111 | a deploy path that ends in a name and is its only root validates, but its parent never does |
| `Admission.PathVerdict` | cmd/agent/main.go:264 | with blank roots dropped and the others trimmed, a deploy path passes exactly when a root as configured admits it |
| `Admission.FaultExactly` | internal/gitdeploy/pathvalidate.go:11-49 | each of the eight errors is reported only for what it names: a blank, relative, root or `..` path, no root at all, the first root that is relative or `/`, or no root above the path |
| `Text.FoldExactly` | internal/nginxruntime/converge.go:320-322 | two ASCII texts fold to the same exactly when they agree letter by letter up to case |
| `DeployPath.WebRootInherits` | internal/nginxruntime/webroot.go:10-33 | the web root of a deploy path that validates also validates against the same roots, and is the path or its `public` child |
| `NginxRuns.SecondChecksPass` | internal/nginxruntime/converge.go:80-82 | a run never reports an invalid web root after a valid deploy path, nor a managed path outside loaded roots |
| `SitePaths.PathsInsideRoots` | internal/nginxruntime/converge.go:310-342 | for absolute roots "outside root" is reported exactly when a root is `/`; otherwise both files sit directly inside the cleaned roots |
| `SitePaths.PathsInjective` | internal/nginxruntime/converge.go:310-333 | two sites share a managed path exactly when their trimmed, folded ids agree; a file never doubles as a link when the roots differ |
| `SitePaths.DirOfManaged` | internal/nginxruntime/converge.go:346 | the directory of a managed file is the cleaned root itself |
| `NginxSyntax.ParseFlatten` | internal/nginxruntime/render.go:90-148 | parsing the token form of any block structure returns that structure and the rest of the tokens |
| `RenderRoundTrip.LocationsMean` | internal/nginxruntime/render.go:58-79 | the try_files text reads as one directive with the runtime's last target and the PHP text as the PHP location, present exactly for runtimes with PHP; and exactly when each of the two errors is returned |
| `RenderRoundTrip.BuildPHPLocations` | internal/nginxruntime/render.go:58-79 | the builder returns the texts, or the error, with just that meaning |
| `RenderRoundTrip.RenderedItems` | internal/nginxruntime/render.go:19-148 | the lexer and parser read the rendered text as exactly the intended block structure |
| `RenderRoundTrip.RenderedMeaning` | internal/nginxruntime/render.go:19-148 | the servers read back are the intended ones: plain HTTP, redirect plus HTTPS, or HTTP app plus HTTPS app, with domain, root, certificate, key, try_files and PHP location |
| `RenderRoundTrip.RuntimeMeaning` | internal/nginxruntime/render.go:31-36 | by the runtime text the operator wrote: the last try target of every application server read back, and that the PHP location is there exactly for the five PHP runtimes |
| `RenderRoundTrip.RenderInjective` | internal/nginxruntime/render.go:19-148 | equal rendered texts come from equal trimmed domains, roots, fastcgi passes, try_files targets and TLS material |
| `RenderRoundTrip.PathSurvivesExactly` | internal/nginxruntime/webroot.go:58-70 | a path that passes validation is read back by nginx as exactly itself if and only if it is one plain word: no white space nginx knows and no `{` |
| `RenderExact.ReadsBackExactly` | internal/nginxruntime/render.go:19-148 | the whole rendered file is read back as the intended servers if and only if web root, certificate and key are single plain words |
| `RenderExact.BlankIsLost` | internal/nginxruntime/webroot.go:58-70 | a validated web root with a blank is not read back |
| `Materials.RendersExactly` | internal/nginxruntime/render.go:19-56 | a file is rendered exactly from a proper name, web root, site id, fastcgi address and TLS paths, said character by character |
| `Materials.PathsExactly` | internal/nginxruntime/converge.go:310-333 | with loaded roots the managed paths exist exactly for a site id without slash or `..` that does not end in a dot |
| `Materials.ReadyExactly` | internal/nginxruntime/converge.go:100-115 | which of the intents the checks allow can be materialized, in terms of the intent and the configuration |
| `SshCommand.QuotedText` | internal/gitdeploy/ssh.go:38-40 | the shell reads a single-quoted text back unchanged, whatever it contains |
| `SshCommand.ShellRoundTrip` | internal/gitdeploy/ssh.go:20-35 | tokenizing and removing quotes yields exactly the intended argument list |
| `SshCommand.CommandInjective` | internal/gitdeploy/ssh.go:20-35 | different key or known-hosts paths give different commands |
| `SshCommand.GitSSHCommand` | internal/gitdeploy/ssh.go:10-36 | the builder's result, when each of its three errors is returned, and that the shell reads the result as the argument list with cleaned paths |
| `BoundedText.TruncateBounds` | internal/gitdeploy/executor.go:284-296 | at most the limit in characters for a positive limit, unchanged for any other limit and for texts within it |
| `BoundedText.TruncatePrefixExact` | internal/gitdeploy/executor.go:284-296 | the result is a byte prefix of the input if and only if nothing is cut or the runes kept were well-formed |
| `BoundedText.TruncateValid` | internal/gitdeploy/executor.go:284-296 | a valid UTF-8 text truncates to a valid byte prefix |
| `BoundedText.TruncateCompose` | internal/gitdeploy/executor.go:284-296 | truncating twice is truncating at the smaller limit, for every byte string |
| `BoundedText.ReportedReason` | internal/gitdeploy/executor.go:204-210 | the nested bounds of the command runner, the reason and the failure row compose; what is reported is the whole message with the stderr cut at 4000 exactly when that has at most 19000 characters |
| `BoundedText.RoomForStderr` | internal/gitdeploy/executor.go:204-210 | the stderr, cut only at 4000, is reported whole when prefix and exec error leave it room: at most 14996 characters between them, whatever bytes they hold |
| `CommitRecord.FieldsRoundTrip` | internal/gitdeploy/executor.go:224-236 | splitting git's output returns the three fields trimmed, exactly when git appended at most two terminators |
| `CommitRecord.CommitRoundTrip` | internal/gitdeploy/executor.go:219-244 | parsing the NUL-separated record returns the fields trimmed and bounded for zero, one or two terminators and the format error for more |
| `CommitRecord.SameSpaces` | internal/gitdeploy/executor.go:239-241 | the record's fields are trimmed of the same characters as the texts of intents |
| `NginxRuns.PlanIsShaped` | internal/nginxruntime/converge.go:112-117 | the two managed paths of a run are the same plain name in the two roots, and its temporary directory is the available root |
| `NginxRuns.StepAvailable` | internal/nginxruntime/converge.go:345-372 | after every single call the available file is the old one or the whole new one |
| `NginxRuns.StepPlaced` | internal/nginxruntime/converge.go:117-129 | what each stage has in place: the temporary text, then the available file, then the link to it |
| `NginxRuns.RunFootprint` | internal/nginxruntime/converge.go:112-123 | a run cut off anywhere has changed only its own two paths, missing root directories and one new temporary file |
| `CrashRecovery.StepEnabled` | internal/nginxruntime/converge.go:375-396 | after every single call the enabled path is what it was, free, or the link to the available file |
| `CrashRecovery.ForeignKeeps` | internal/nginxruntime/converge.go:320-325 | a run for another site leaves both managed paths of this one as they were |
| `CrashRecovery.KilledRuns` | internal/nginxruntime/converge.go:69-195 | any number of runs of this site, for any intents, and of other sites, each killed anywhere, leave a disk the site can converge on; its file is the old one or the whole text of one of the runs |
| `SmoothRun.FinishInstalls` | internal/nginxruntime/converge.go:69-195 | the failure-free run from any recoverable disk leaves exactly the installed disk and posts the receipt the test decides |
| `Recovery.InstalledTwice` | internal/nginxruntime/converge.go:345-396 | converging twice leaves every path of the disk as converging once |
| `Recovery.CrashedRunsRecover` | internal/nginxruntime/converge.go:69-195 | kill runs anywhere, of this intent or ones it replaced, then run the intent: the managed paths equal those of an uninterrupted run, and another run changes nothing at all |
| `Recovery.SuccessMeansInPlace` | internal/nginxruntime/converge.go:117-129 | whatever happened before and whatever fails meanwhile, a run that comes to its success receipt has the whole text in place behind its link |
| `Refusals.FinishExactly` | internal/nginxruntime/converge.go:69-195 | the failure-free run on every disk: the installed disk, or the disk and the receipt that says which directory, file or link is in the way |
| `Refusals.ConvergesExactly` | internal/nginxruntime/converge.go:250-271 | the failure-free run converges if and only if the disk is recoverable; otherwise it ends with the mkdir, write or symlink failure |
| `Refusals.EqualRootsNeverConverge` | internal/config/config.go:156-168 | with equal roots, which configuration loading accepts, the failure-free run of any intent ends with the mkdir, write or symlink failure, and on which disk and how |
| `Recovery.IntentsQualify` | internal/nginxruntime/converge.go:49-66 | under one configuration the runs of all intents, of other sites and of the same one, meet the hypotheses of recovery |
| `Recovery.OthersKeep` | internal/nginxruntime/converge.go:310-396 | any sequence of runs for sites with other trimmed, folded ids preserves this site's file and link |
| `Recovery.DistinctRootsApart` | internal/config/config.go:153-167 | distinct roots that have no component named like the site's file keep the site apart, the hypothesis of recovery |
| `Recovery.UnacknowledgedApplying` | internal/nginxruntime/converge.go:93-98 | a run whose applying receipt is not acknowledged ends there and has made directories and nothing else |
| `GitRuns.RecordIsParsed` | internal/gitdeploy/executor.go:219-244 | the record a run reads is what the parser makes of git's raw output, and its id is HEAD's |
| `GitRuns.StepTruthful` | internal/gitdeploy/executor.go:122-167 | every call keeps: after the reset HEAD and tree are at the resolved target, and an applied row carries HEAD's id |
| `GitRuns.StepsKeepRefs` | internal/gitdeploy/executor.go:140-167 | after the fetch or clone, branches and names stay as it left them to the end of the run |
| `GitRuns.AppliedIsTrue` | internal/gitdeploy/executor.go:117-167 | a run that reaches its applied receipt has cloned or fetched itself, HEAD and tree are at the reported commit, and that commit is the target resolved in the repository as that very clone or fetch left it |
| `GitRuns.UpdatedByItself` | internal/gitdeploy/executor.go:117-138 | the call at the computed index is the run's own clone or fetch, and it succeeded |
| `GitRuns.StepsUnmoved` | internal/gitdeploy/executor.go:108-160 | a run without a successful reset, finished, failed or killed anywhere, leaves HEAD and tree of an existing repository unchanged |
| `GitRuns.FailedUnmoved` | internal/gitdeploy/executor.go:108-160 | in particular a run that stands before its reset or at the receipt of a failure that precedes it |
| `GitRuns.StepsElsewhere` | internal/gitdeploy/executor.go:131-160 | repositories at other deploy paths stay exactly as they were |
| `GitSmooth.BeginBegun` | internal/gitdeploy/executor.go:98-106 | a run whose checks pass begins where the next three theorems take it up, with the plan of its intent |
| `GitSmooth.FinishExactly` | internal/gitdeploy/executor.go:98-168 | how the run ends in which no call fails, from every ledger phase and every kind of place: the repository left and the receipt sent |
| `GitSmooth.ConvergesExactly` | internal/gitdeploy/executor.go:98-168 | it reports applied if and only if the parent passes, the path is free or a repository, the target resolves in what the clone or fetch leaves and the log parses; HEAD and tree are then at that target |
| `GitSmooth.CrashedRunsConverge` | internal/gitdeploy/executor.go:47-168 | from a free path or a repository, kill git runs of any sites anywhere, then run the intent without failures: HEAD and tree are at what the remote offers for the target, as without the killed runs, the receipt is the same, and another run changes nothing |
| `GitIntents.ChecksExactly` | internal/gitdeploy/executor.go:56-92 | the checks pass exactly for a complete intent at an admitted path with a usable key and accepted key and known-hosts paths, and otherwise report the first thing wrong |
| `GitIntents.BeginExactly` | internal/gitdeploy/executor.go:47-111 | where the run of an intent stands when it begins: at the fetching receipt, past it when the ledger is, refused for its parent, or refused for the first thing wrong, with the row posted |
| `GitIntents.ConvergesAsAsked` | internal/gitdeploy/executor.go:47-168 | the failure-free run of an intent ends applied if and only if intent, parent, place and remote allow it, and then HEAD and tree at its deploy path are at the commit it asks for: the desired one, or else its branch |
| `GitIntents.OnlyGranted` | internal/gitdeploy/executor.go:66-115 | over every sequence of agent events a git run at work serves an intent whose deploy path, and from its first look at the disk on also the parent, the configured roots admit |
| `GitIntents.PlacesContained` | internal/gitdeploy/pathvalidate.go:11-49 | over every sequence of agent events nothing at a path no configured root admits is cloned, fetched or reset |
| `GitReceipts.AppliedReceiptsAreTrue` | internal/gitdeploy/executor.go:117-167 | over every sequence of agent events, an applied receipt about to be sent is true: HEAD and tree at the intent's cleaned deploy path are at the reported commit, and it is the one the intent asks for |
| `GitReceipts.AppliedSinceUpdate` | internal/gitdeploy/executor.go:117-167 | over every sequence of agent events, a run about to send its applied receipt has itself cloned or fetched successfully, and the reported commit is the one its intent asks for in the repository that very call left |
| `GitIntents.AppliedAsPolled` | cmd/agent/main.go:265-303 | after a ping the git runs serve the polled intents in order, and an applied receipt is true in that sense of the very intent polled |
| `LedgerOrder.GitBeginExpects` | internal/gitdeploy/executor.go:98-106 | a run starts at the stage the ledger's phase calls for |
| `LedgerOrder.ApplyBeginExpects` | internal/nginxruntime/converge.go:58-66 | the leg chosen from the intent's state matches the ledger's phase |
| `LedgerOrder.GitPost` | internal/gitdeploy/executor.go:102-149 | every receipt a git run posts repeats the phase, advances it by one or fails it |
| `LedgerOrder.ApplyPost` | internal/nginxruntime/converge.go:93-129 | every receipt an nginx run posts follows an edge of its leg |
| `LedgerOrder.EventTransition` | internal/gitdeploy/executor.go:98-168 | each event leaves a site's record alone, appends one advancing receipt, or restarts it by an operator request after a terminal phase |
| `LedgerOrder.LedgerOnlyAdvances` | cmd/agent/main.go:257-361 | over all sequences of events, with crashes, lost requests and lost replies, all records stay in order |
| `LedgerOrder.AtMostOnce` | internal/nginxruntime/converge.go:189-194 | between two operator requests each nginx stage is accepted at most once and nothing follows a terminal one |
| `LedgerOrder.AtMostTwoReceipts` | internal/nginxruntime/converge.go:93-129 | a request is answered by at most two accepted receipts |
| `LedgerOrder.GitRanksRise` | internal/gitdeploy/executor.go:98-168 | git phases never go back, and nothing follows applied or failed |
| `LiveConfig.StepLive` | internal/nginxruntime/converge.go:181-194 | every call keeps: the loaded configuration is accepted, a reload follows an accepted test of the same files, a reload receipt follows the load |
| `LiveConfig.RejectedStaysEnabled` | internal/nginxruntime/converge.go:125-127 | a rejected test is not rolled back: the text stays behind the enabled link while nginx keeps what it had |
| `LiveConfig.AlwaysLive` | internal/nginxruntime/converge.go:132-195 | over every sequence of events nginx holds a configuration the test accepted, and at each reload receipt exactly the text rendered for the intent the run serves |
| `LiveConfig.ReloadServesPolled` | cmd/agent/main.go:304-361 | after a ping the nginx runs serve the polled intents in order, and at each reload receipt nginx has read the text rendered for the very intent polled |
| `NginxIntents.ChecksExactly` | internal/nginxruntime/converge.go:69-91 | the checks pass exactly for an admitted deploy path, a known runtime, what TLS needs and both nginx roots, and otherwise report the first thing wrong |
| `NginxIntents.BeginExactly` | internal/nginxruntime/converge.go:49-91 | where the run of an intent stands when it begins: at its first directory if and only if the agent acts on its state and it is allowed; otherwise done, or refused with the row posted |
| `NginxIntents.TextAsAsked` | internal/nginxruntime/converge.go:100-107 | the text rendered for an intent is read back, exactly when its paths are plain words, as the servers its own fields ask for: name, root, runtime, fastcgi address, certificate, key, redirect |
| `NginxIntents.ServersPresent` | internal/nginxruntime/tlsintent.go:16-32 | among them an HTTPS server exactly when TLS is enabled, with the certificate and key of the intent, and a redirect exactly when TLS and redirect are |
| `NginxIntents.RootAdmitted` | internal/nginxruntime/converge.go:72-82 | the web root served for an allowed intent is one the configured roots admit |
| `NginxIntents.OnlyGranted` | internal/nginxruntime/converge.go:69-91 | over every sequence of agent events an nginx run past its checks serves an intent at an admitted path, of a known runtime, with what TLS needs |
| `NginxIntents.SuccessAsPolled` | cmd/agent/main.go:304-361 | after a ping a success receipt is for one of the polled intents: a text that says what it asks for is in place behind the site's link, and at a reload receipt nginx has read and accepted it |
| `TlsEcho.CallEcho` | cmd/agent/main.go:311-324 | a receipt reaches the echo map exactly when acknowledged, and a run keeps its site and states |
| `TlsEcho.SurvivesExactly` | cmd/agent/main.go:473-491 | for every saved map, a saved `applied` survives every read, in whatever order the entries are met, if and only if its site id is trimmed and not blank and no entry with the same trimmed id says anything else |
| `TlsEcho.RivalCanWin` | cmd/agent/main.go:483-489 | a map in which a trimmed id can lose its `applied` to an untrimmed rival |
| `TlsEcho.ClaimsExactly` | internal/nginxruntime/tlsintent.go:35-44 | over every sequence of events an nginx receipt claims `applied` if and only if the echo its run began with did, or it is the reload receipt of an intent whose certificate the ledger says is issued |
| `TlsEcho.AcknowledgedAndSaved` | cmd/agent/main.go:281-284 | an acknowledged receipt carrying `applied`, then saved, seals a site whose id no other id trims to |
| `TlsEcho.NeverRegresses` | cmd/agent/main.go:262-359 | once sealed, every later git or nginx receipt of the site carries `applied`, across cycles, crashes and restarts, whatever the ids of other sites are like unless they trim to its own |
| `TlsEcho.NeverBlank` | cmd/agent/main.go:266-269 | every row ever sent has a non-empty tls_state |
| `AgentHost.LoadTlsEchoMap` | cmd/agent/main.go:473-491 | the loop returns exactly the trimmed, non-blank entries, in whatever order it meets them |
| `AgentHost.Host.PostPing` | cmd/agent/main.go:271-281 | the row is sent once; the ledger records it exactly when the request arrives, the echo exactly when the reply does |
| `AgentHost.Host.Report` | cmd/agent/main.go:271-292 | post, echo and save as the reporter does them, with the same exact effect on ledger, echo and file |
| `AgentHost.Host.MkdirAll` | internal/nginxruntime/converge.go:260-269 | the run goes on or to its failure receipt, and the available file is left alone |
| `AgentHost.Host.Rename` | internal/nginxruntime/converge.go:371 | only a successful rename may change the available file |
| `AgentHost.Host.WriteAtomicFile` | internal/nginxruntime/converge.go:345-372 | on success the whole text is at the path, on failure the path is as it was |
| `AgentHost.Host.EnsureSymlink` | internal/nginxruntime/converge.go:375-396 | on success the link points at the target, on failure the run goes to its failure receipt |
| `AgentHost.Host.PrepareNginxDirs` | internal/nginxruntime/converge.go:250-271 | both roots and their ancestors exist and nothing that was there is changed, or exactly the mkdir failure is sent and the run is over |
| `AgentHost.Host.PlaceConfig` | internal/nginxruntime/converge.go:100-123 | rendered text and link in place with nothing sent, or exactly one failure row sent, whose reason is the rendering error, else the path error, else the write or link failure |
| `AgentHost.Host.RunApplyLeg` | internal/nginxruntime/converge.go:69-130 | exactly which rows are sent: the failed check, the mkdir failure, or the applying receipt when due and then, unless it was not acknowledged, the last one; an applied row means file and link are in place |
| `AgentHost.Host.RunReloadLeg` | internal/nginxruntime/converge.go:132-195 | exactly one row is sent; a reload row means file and link are in place and nginx has read the rendered text, which the test accepted |
| `AgentHost.Host.RunNginx` | internal/nginxruntime/converge.go:49-67 | of the intent itself: nothing for a state not acted on, the first thing wrong and nothing touched when refused, else the rows of its leg; the ledger they leave; and after a success row what it asks for is on disk, after a reload row also loaded |
| `AgentHost.Host.UpdateRepository` | internal/gitdeploy/executor.go:112-138 | a repository that was there is fetched, keeping HEAD, tree and all branches; an absent path is cloned at the branch; otherwise exactly one failure row is sent, and each failure is tied to what was found at the path |
| `AgentHost.Host.ReadCommitObservation` | internal/gitdeploy/executor.go:219-244 | the run goes to the applied row of the commit read or to the failure row |
| `AgentHost.Host.ResetAndReport` | internal/gitdeploy/executor.go:150-167 | exactly one row is sent, applied or one of three failures; a reported commit is where HEAD and tree are and what the target resolves to; the two failures before the reset leave them alone |
| `AgentHost.Host.Converge` | internal/gitdeploy/executor.go:101-167 | the rows sent are the phases the ledger is not past, in source order, then the applied row after all of them, or the failure, or nothing more only if the last phase was not acknowledged; HEAD and tree have not moved unless a commit was reported or could not be read back |
| `AgentHost.Host.RunGit` | internal/gitdeploy/executor.go:47-168 | of the intent itself: the first thing wrong, or the phases the ledger is not past and the last row; the ledger follows; nothing touched when it or its parent is refused; a reported commit is the one asked for, at the deploy path; HEAD and tree unmoved when the run failed before the reset |
| `AgentHost.Host.Cycle` | cmd/agent/main.go:257-361 | the rows sent are one non-empty run of git rows per git intent and after them one of nginx rows per nginx intent, in order, and the ledger is the old one with the received rows recorded |
| `AgentHost.Host.Holds` | cmd/agent/main.go:257-361 | at every point of the program: receipts in order, an accepted configuration loaded, truthful git receipts, no blank tls_state, and a ledger that replays the rows received |
| `Reconcile.StepInv` | internal/deploy/runner.go:56-131 | every step of any process keeps the protocol's invariant |
| `Reconcile.BootInv` | cmd/agent/main.go:455-464 | a process that starts from the state file, readable or not, keeps the invariant |
| `ReconcileRestarts.BootKnows` | cmd/agent/main.go:455-464 | a process that can read a whole state file starts with that very record, any other with three empty fingerprints |
| `ReconcileFacts.EveryInterleaving` | internal/deploy/runner.go:56-131 | in every interleaving: reported fingerprints were accepted by Central, the state file is whole with desired equal to applied, one process inside the locked region |
| `ReconcileFacts.SkipIsSound` | internal/deploy/runner.go:86-89 | the fast path skips exactly when the manifest asks for a non-empty fingerprint already applied and reported, and Central has accepted it |
| `ReconcileFacts.OnlyCreatorReleases` | internal/lock/lock.go:14-32 | only the process that created the lock file removes it |
| `ReconcileFacts.StaleForever` | internal/lock/lock.go:15-19 | a lock left by a dead holder is never broken, and nothing is written or reported any more |
| `ReconcileFacts.StaysQuiet` | internal/deploy/runner.go:87-89 | a process with `f` applied and reported posts nothing while what it fetches stays `f`, under any interleaving |
| `ReconcileFacts.AcknowledgedThenQuiet` | internal/deploy/runner.go:123-130 | an acknowledged report is the last one for its fingerprint, also when the final save fails |
| `ReconcileFacts.CallConverges` | internal/deploy/runner.go:62-130 | from any record, one failure-free call for a fingerprint, from the manifest's header or else its payload, ends with all three fingerprints equal, the file saved and the lock free |
| `ReconcileFacts.NothingToDo` | internal/deploy/runner.go:77-80 | a manifest with neither payload nor fingerprint leaves everything as it was |
| `ReconcileRestarts.RestartsStaySilent` | internal/deploy/runner.go:84-89 | once the file has `f` applied and reported, nothing more is reported while what is fetched stays `f`, in any interleaving of the processes that have it and all those started from the file since |
| `ReconcileRestarts.ReportedOnceForAll` | internal/deploy/runner.go:56-131 | a failure-free call that reports `f` is the last to report, whatever crashes, starts again and reconciles afterwards with `f` still desired |
| `Runners.OtherStep` | internal/lock/lock.go:14-23 | while a process holds the lock, no other changes its record, the files, the lock or what Central was told |
| `Runners.Runner.ExclusiveCreate` | internal/lock/lock.go:14-23 | created means the lock is this process's and it is inside; otherwise it stays outside |
| `Runners.Runner.Release` | internal/lock/lock.go:25-32 | leaves the region; the lock is gone or, when removal fails, still there |
| `Runners.Runner.WriteJSONAtomic` | internal/state/state.go:22-52 | the whole record replaces the file, or the file is untouched, whatever the other processes do meanwhile |
| `Runners.Runner.PostConvergence` | internal/deploy/runner.go:112-126 | exactly one report with the record's fingerprints is sent; the record is due to change only when it is acknowledged |
| `Runners.Runner.Reconcile` | internal/deploy/runner.go:56-131 | the record updated in place: unchanged when held or nothing desired, all three fingerprints equal and on disk when reported, and never a reported fingerprint Central did not accept |

## Left out

- HTTP, JSON and authentication: Central is a ledger that receives a call or does not, and a ping is a snapshot of it; late delivery of a request is not modelled.
- Assumptions of the ledger theorems: one intent per site in a snapshot, intents only for phases Central hands out, operator requests only from a terminal phase.
- TlsEcho.NeverRegresses: assumes that the site's id is trimmed and not blank, that no other id in use trims to it, and that reads of the echo file and saves succeed; `TlsEcho.SurvivesExactly` says what survives in other files.
- Outside writers: they act between runs only; an nginx restarted by someone else is not part of the model.
- Real git: refs, names, HEAD and tree are a map and two commit ids. A clone is complete or absent, a reset is atomic, a fetch does not prune and its partial failure may have moved branches; a tag or other ref named like `origin/<branch>` is not modelled, and the origin of an existing repository is not compared with the intent's URL (the source does not compare it either).
- `git log` output: subject and author are free of NUL and the author ends in `>`; in the event machine a row keeps only the commit id, the bounded subject and author are in `CommitRecord`.
- Failure reasons in rows are an enumeration; their text is bounded as `BoundedText.ReportedReason` says.
- File permissions, fsync durability, directory links and other aliasing of paths: the disk is a flat map from cleaned path to node. Certificate readability, the deploy key's mode and the presence of git are oracles.
- Echo and convergence saves: `AgentHost.Host.SaveTlsEchoMap` is one step that leaves the old or the new file; the calls inside the same atomic write are modelled for the convergence record.
- Convergence record: schema version, run id and time stamps are not modelled; run-record lines are appended best-effort and ignored by the source.
- Text.ToLower: beyond ASCII only U+0130 and U+212A are mapped, the two letters that fold into ASCII, so comparisons with the state names are those of the source.
- GitReceipts.AppliedReceiptsAreTrue, GitReceipts.AppliedSinceUpdate, GitRuns.AppliedIsTrue, AgentHost.Host.RunGit: names are fixed between updates, so the desired text is taken to be an absolute commit name; a relative one such as `HEAD~1`, which git would resolve anew after the reset, is not modelled.
- SitePaths.PathsInjective: folds ids as Text.ToLower does, so two ids that differ only in the case of other non-ASCII letters count as distinct here while the source puts them in one file; site ids are meant to be ULIDs.
- CrashRecovery.ForeignKeeps: tells sites apart by the same folding, with the same exception.
- Recovery.OthersKeep: tells sites apart by the same folding, with the same exception.
- ParentPath.ParentExact: states its condition on the path as written, so it leaves parents whose text ends in white space to `ParentPath.TrimmedParentExact`.
- GitSmooth.CrashedRunsConverge: counts on a clone that is complete or absent; one killed by force may leave a plain directory, on which every later run ends as `GitSmooth.FinishExactly` says for such a place.
- Recovery.CrashedRunsRecover: assumes distinct roots with no root below a managed file (`Recovery.DistinctRootsApart`), an enabled path that is free or a link and an available path that is not a directory; `Refusals.FinishExactly` says how the run ends on every other disk, `Refusals.EqualRootsNeverConverge` on equal roots.
- RenderRoundTrip.RenderedMeaning: assumes path and fastcgi tokens that are one plain word (no white space, `;`, `{` or backslash, no leading `}`, `#` or quote), a site id without newline, and domain padding of space, tab, CR or LF; `RenderExact.ReadsBackExactly` shows the condition on the three paths is needed.
- Runtime probes, health, inventory, enrollment, configuration loading, URL origin checks, logs, tickers and the unused `internal/runtime` reload: one-branch checks over foreign calls.
