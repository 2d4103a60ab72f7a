/** The agent as a program: the poll loop's state in fields, each run as the sequence of calls the source makes.
    `Valid` says that the fields together are a state the event machine reaches from `start`. Every method
    keeps it from one call to the next, so all that is proved of every event sequence holds wherever this
    program is cut. */
module AgentHost {
  import opened Text
  import opened UnixPath
  import opened Protocol
  import opened Agent
  import opened LedgerOrder
  import opened NginxRuns
  import opened CrashRecovery
  import opened LiveConfig
  import opened TlsEcho
  import opened GitReceipts
  import opened GitIntents
  import opened Utf8
  import opened CommitRecord
  import GitRuns
  import G = GitLeg
  import N = NginxLeg
  import I = NginxIntents
  import opened AgentSpec

  /** The echo map as read back: every entry in some order, keys and values trimmed, blank ones dropped; an
      unreadable file is an empty map. */
  method LoadTlsEchoMap(stub: map<string, string>, readable: bool) returns (out: map<string, string>)
    ensures if readable then LoadedFrom(stub, out) else out == map[]
  {
    out := map[];
    if !readable {
      return;
    }
    var rest := stub.Keys;
    while rest != {}
      invariant rest <= stub.Keys
      invariant forall k :: k in out ==> k != "" && out[k] != "" && Comes(stub, k, out[k])
      invariant forall s :: s in stub && s !in rest && Trim(s) != "" && Trim(stub[s]) != "" ==> Trim(s) in out
      decreases |rest|
    {
      var s :| s in rest;
      var k, v := Trim(s), Trim(stub[s]);
      rest := rest - {s};
      if k != "" && v != "" {
        assert Comes(stub, k, v);
        out := out[k := v];
      }
    }
  }

  /** What the environment answers next: anything. */
  method Environment() returns (o: Outcome)
  {
    o := *;
  }

  class Host {
    const cfg: Config

    // the world
    var web: N.Web
    var places: G.Places
    var ledger: Ledger
    var file: map<string, string>

    // the program
    var echo: map<string, string>

    ghost var leg: Leg
    ghost var unsaved: bool
    ghost var gitQueue: seq<GitIntent>
    ghost var applyQueue: seq<ApplyIntent>
    ghost const start: State
    ghost const reachable: iset<State>

    ghost var sent: seq<Row>
    ghost var answers: seq<Outcome>
    ghost const logs: iset<Log>
    ghost const handled: iset<ApplyIntent>

    ghost function Abs(): State
      reads this
    {
      State(web, places, ledger, file, echo, unsaved, leg, gitQueue, applyQueue)
    }

    ghost predicate Valid()
      reads this
    {
      && Abs() in reachable && CallsClosed(cfg, reachable)
      && Log(ledger, sent, answers) in logs && LogsClosed(start.ledger, logs)
    }

    /** The fixed set is closed under starting runs, and under pings; it holds exactly the states the event
        machine reaches from `start`. */
    ghost predicate Starts() {
      StartsClosed(cfg, reachable)
    }

    ghost predicate Pings() {
      PingsClosed(cfg, reachable) && AllHandled(handled)
    }

    ghost predicate Law() {
      Closed(cfg, start, reachable)
    }

    /** Exactly these rows have been sent since. */
    twostate predicate Sends(rows: seq<Row>)
      reads this
    {
      sent == old(sent) + rows && old(answers) <= answers
    }

    /** The ledger is the old one with the received rows among those sent since recorded in order. */
    twostate predicate LedgerFollows()
      reads this
    {
      && |old(sent)| <= |sent| && |old(answers)| <= |answers| && |sent| - |old(sent)| == |answers| - |old(answers)|
      && ledger == Replay(old(ledger), sent[|old(sent)|..], answers[|old(answers)|..])
    }

    twostate lemma Follows()
      requires old(Valid()) && Valid() && old(sent) <= sent && old(answers) <= answers
      ensures LedgerFollows()
    {
      assert Replays(start.ledger, Log(ledger, sent, answers));
      assert Replays(start.ledger, Log(old(ledger), old(sent), old(answers)));
      ReplaySplit(start.ledger, sent, answers, |old(sent)|);
      assert sent[..|old(sent)|] == old(sent) && answers[..|old(sent)|] == old(answers);
    }

    constructor (cfg: Config, web: N.Web, places: G.Places, ledger: Ledger, file: map<string, string>)
      requires ConfigLoaded(cfg) && cfg.accepts(web.loaded) && Ordered(ledger)
      ensures Valid() && Starts() && Pings() && Law() && Free(Abs()) && gitQueue == [] && applyQueue == [] && sent == []
      ensures this.cfg == cfg && this.web == web && this.places == places && this.ledger == ledger && this.file == file
    {
      this.cfg := cfg;
      this.web := web;
      this.places := places;
      this.ledger := ledger;
      this.file := file;
      this.echo := map[];
      leg := NoLeg;
      unsaved := false;
      gitQueue := [];
      applyQueue := [];
      var first := State(web, places, ledger, file, map[], false, NoLeg, [], []);
      start := first;
      reachable := Reachable(cfg, first);
      ReachableClosed(cfg, first);
      ClosedCalls(cfg, first, Reachable(cfg, first));
      ClosedStarts(cfg, first, Reachable(cfg, first));
      sent := [];
      answers := [];
      logs := LogsFrom(ledger);
      LogsFromClosed(ledger);
      handled := iset i: ApplyIntent | Handled(i);
    }

    // -------------------------------------------------------------- one call

    /** A call of the nginx run other than a post. */
    method Syscall(a: N.Action) returns (reply: N.Reply)
      requires Valid() && !unsaved && leg.OnNginx? && !leg.nginx.stage.Done? && N.Next(leg.nginx) == a && !a.Post?
      modifies this`web, this`leg
      ensures Valid() && leg == OnNginx(N.Resume(old(leg.nginx), reply))
      ensures a.Look? ==> reply.Seen?
      ensures Unchanged(old(leg.nginx.plan), a, reply, old(web.disk), web.disk)
      ensures a.MakeAll? ==> (reply.Good? ==> DirsAt(web.disk, a.path)) && Keeps(old(web.disk), web.disk)
    {
      var o := Environment();
      ghost var run := leg.nginx;
      ghost var before := Abs();
      var after := N.Perform(cfg, web, a, o);
      NginxCallIs(cfg, before, run, o, after);
      assert CallTo(cfg, before, o) in reachable && Facts(cfg, before);
      LookSees(cfg, web, a, o);
      if a.MakeAll? {
        MkdirMakes(cfg, web, a.path, o);
      }
      CallUnchanged(cfg, web, run, o);
      web := after.0;
      reply := after.1;
      leg := OnNginx(N.Resume(run, reply));
    }

    /** A call of the git run other than a post. */
    method GitCall(a: G.Action, place: string) returns (reply: G.Reply, ghost o: Outcome)
      requires Valid() && !unsaved && leg.OnGit? && !leg.git.stage.Done? && G.Next(leg.git) == a && !a.Post?
      requires place == leg.git.plan.place
      modifies this`places, this`leg
      ensures Valid() && leg == OnGit(G.Resume(old(leg.git), reply))
      ensures (places, reply) == G.Perform(old(places), place, a, o)
    {
      var answer := Environment();
      o := answer;
      ghost var run := leg.git;
      ghost var before := Abs();
      var after := G.Perform(places, place, a, answer);
      GitCallIs(cfg, before, run, o, after);
      assert CallTo(cfg, before, o) in reachable;
      places := after.0;
      reply := after.1;
      leg := OnGit(G.Resume(run, reply));
    }

    lemma PostReaches(row: Row, o: Outcome, l: Ledger, e: map<string, string>, g: Leg)
      requires Valid() && !unsaved && !Finished(leg) && NextReceipt(leg) == Some(row)
      requires l == if Received(o) then Record(ledger, row) else ledger
      requires e == if o.Acked? then echo[row.site := row.tls] else echo
      requires g == Answered(leg, o.Acked?)
      ensures State(web, places, l, file, e, o.Acked?, g, gitQueue, applyQueue) in reachable
      ensures Log(l, sent + [row], answers + [o]) in logs
    {
      PostIs(cfg, Abs(), row, o);
      assert CallTo(cfg, Abs(), o) in reachable;
      assert More(Log(ledger, sent, answers), row, o) in logs;
    }

    method Move(l: Ledger, e: map<string, string>, ghost g: Leg, ghost due: bool, ghost row: Row, ghost o: Outcome)
      requires Valid() && Log(l, sent + [row], answers + [o]) in logs
      requires State(web, places, l, file, e, due, g, gitQueue, applyQueue) in reachable
      modifies this`ledger, this`leg, this`echo, this`unsaved, this`sent, this`answers
      ensures Valid() && ledger == l && echo == e && leg == g && unsaved == due
      ensures sent == old(sent) + [row] && answers == old(answers) + [o]
    {
      ledger, echo, leg, unsaved := l, e, g, due;
      sent, answers := sent + [row], answers + [o];
    }

    /** `PostPing` with one row: the request or the reply may be lost. The ledger records the row exactly when
        the request arrives, the echo exactly when the reply does. */
    method PostPing(row: Row) returns (acked: bool, ghost o: Outcome)
      requires Valid() && !unsaved && !Finished(leg) && NextReceipt(leg) == Some(row)
      modifies this`ledger, this`leg, this`echo, this`unsaved, this`sent, this`answers
      ensures Valid() && leg == Answered(old(leg), acked) && unsaved == acked && acked == o.Acked?
      ensures ledger == if Received(o) then Record(old(ledger), row) else old(ledger)
      ensures echo == if acked then old(echo)[row.site := row.tls] else old(echo)
      ensures Sends([row]) && answers == old(answers) + [o]
    {
      var answer := Environment();
      o := answer;
      acked := answer.Acked?;
      var recorded := if Received(answer) then Record(ledger, row) else ledger;
      var echoed := if acked then echo[row.site := row.tls] else echo;
      ghost var next := Answered(leg, acked);
      PostReaches(row, o, recorded, echoed, next);
      Move(recorded, echoed, next, acked, row, o);
    }

    /** `saveTlsEchoMap`: the whole new file, or the old one. */
    method SaveTlsEchoMap()
      requires Valid() && unsaved
      modifies this`file, this`unsaved
      ensures Valid() && !unsaved && (file == echo || file == old(file))
    {
      var ok: bool := *;
      ghost var before := Abs();
      assert SaveTo(before, ok) in reachable;
      if ok {
        file := echo;
      }
      unsaved := false;
    }

    /** The reporter both loops hand to their runs; a failed save is only logged. */
    method Report(row: Row) returns (ok: bool, ghost o: Outcome)
      requires Valid() && !unsaved && !Finished(leg) && NextReceipt(leg) == Some(row)
      modifies this`ledger, this`leg, this`echo, this`unsaved, this`file, this`sent, this`answers
      ensures Valid() && !unsaved && leg == Answered(old(leg), ok) && ok == o.Acked?
      ensures echo == if ok then old(echo)[row.site := row.tls] else old(echo)
      ensures file == echo || file == old(file)
      ensures ledger == if Received(o) then Record(old(ledger), row) else old(ledger)
      ensures Sends([row]) && answers == old(answers) + [o]
    {
      ok, o := PostPing(row);
      if ok {
        SaveTlsEchoMap();
      }
    }

    // -------------------------------------------------------------- nginx

    ghost predicate At(plan: N.Plan, s: N.Stage)
      reads this
    {
      !unsaved && leg.OnNginx? && leg.nginx.plan == plan && leg.nginx.stage == s
    }

    /** The same, with the temporary file's name. */
    ghost predicate With(plan: N.Plan, s: N.Stage, tmpPath: string)
      reads this
    {
      At(plan, s) && leg.nginx.temp == tmpPath
    }

    /** A call that leaves the available file alone. */
    twostate predicate LeavesFile(plan: N.Plan)
      reads this
    {
      N.Ready(plan) && Apart(plan) ==> SameAt(old(web.disk), web.disk, plan.paths.value.available)
    }

    method MkdirAll(ghost plan: N.Plan, ghost s: N.Stage, path: string) returns (ok: bool)
      requires Valid() && At(plan, s) && MkdirOf(plan, s) == Some(path) && (s.MkdirForFile? ==> N.Ready(plan))
      modifies this`web, this`leg
      ensures Valid() && At(plan, MkdirAnswered(plan, s, ok)) && LeavesFile(plan)
      ensures (ok ==> DirsAt(web.disk, path)) && Keeps(old(web.disk), web.disk)
    {
      var reply := Syscall(N.MakeAll(path));
      ok := reply.Good?;
    }

    method CreateTemp(ghost plan: N.Plan, dir: string) returns (tmp: Option<string>)
      requires Valid() && At(plan, N.MakeTemp) && N.Ready(plan) && dir == plan.fileDir
      modifies this`web, this`leg
      ensures Valid() && LeavesFile(plan)
      ensures if tmp.Some? then With(plan, N.WriteTemp, tmp.value) else At(plan, N.PostLast(N.FailedRow(plan, WriteFailed)))
    {
      var reply := Syscall(N.NewTemp(dir));
      tmp := if reply.Named? then Some(reply.path) else None;
    }

    method WriteString(ghost plan: N.Plan, tmpPath: string, content: string) returns (ok: bool)
      requires Valid() && With(plan, N.WriteTemp, tmpPath) && N.Ready(plan) && content == plan.conf.value
      modifies this`web, this`leg
      ensures Valid() && With(plan, if ok then N.SealTemp else N.DropTemp(false), tmpPath) && LeavesFile(plan)
    {
      var reply := Syscall(N.Write(tmpPath, content));
      ok := reply.Good?;
    }

    /** Sync, close and chmod. */
    method SealTemp(ghost plan: N.Plan, tmpPath: string) returns (ok: bool)
      requires Valid() && With(plan, N.SealTemp, tmpPath) && N.Ready(plan)
      modifies this`web, this`leg
      ensures Valid() && With(plan, if ok then N.RenameTemp else N.DropTemp(false), tmpPath) && LeavesFile(plan)
    {
      var reply := Syscall(N.SyncAndClose(tmpPath));
      ok := reply.Good?;
    }

    method Rename(ghost plan: N.Plan, tmpPath: string, path: string) returns (ok: bool)
      requires Valid() && With(plan, N.RenameTemp, tmpPath) && N.Ready(plan) && path == plan.paths.value.available
      modifies this`web, this`leg
      ensures Valid() && With(plan, N.DropTemp(ok), tmpPath) && (!ok ==> LeavesFile(plan))
    {
      var reply := Syscall(N.Move(tmpPath, path));
      ok := reply.Good?;
    }

    /** The deferred removal; its result is ignored. */
    method RemoveTemp(ghost plan: N.Plan, ghost written: bool, tmpPath: string)
      requires Valid() && With(plan, N.DropTemp(written), tmpPath) && N.Ready(plan)
      modifies this`web, this`leg
      ensures Valid() && At(plan, if written then N.InspectLink else N.PostLast(N.FailedRow(plan, WriteFailed)))
      ensures LeavesFile(plan)
    {
      var reply := Syscall(N.Unlink(tmpPath));
    }

    /** `WriteAtomicFile`: on success the whole text is in place; otherwise the path is as it was. */
    method WriteAtomicFile(ghost plan: N.Plan, path: string, content: string) returns (ok: bool)
      requires Valid() && At(plan, N.MkdirForFile) && N.Ready(plan)
      requires path == plan.paths.value.available && content == plan.conf.value
      modifies this`web, this`leg
      ensures Valid() && At(plan, if ok then N.InspectLink else N.PostLast(N.FailedRow(plan, WriteFailed)))
      ensures ok ==> FileAt(web.disk, path, content)
      ensures !ok && Apart(plan) ==> SameAt(old(web.disk), web.disk, path)
    {
      var dir := Dir(path);
      PlannedDir(plan);
      ok := MkdirAll(plan, N.MkdirForFile, dir);
      if !ok {
        return;
      }
      var tmp := CreateTemp(plan, dir);
      if tmp.None? {
        return false;
      }
      ok := WriteString(plan, tmp.value, content);
      if ok {
        ok := SealTemp(plan, tmp.value);
      }
      if ok {
        ok := Rename(plan, tmp.value, path);
      }
      RemoveTemp(plan, ok, tmp.value);
      if ok {
        FileInPlace(plan);
      }
    }

    lemma PlannedDir(plan: N.Plan)
      requires Valid() && At(plan, N.MkdirForFile) && plan.paths.Success?
      ensures Dir(plan.paths.value.available) == plan.fileDir
    {
      assert Facts(cfg, Abs());
    }

    lemma FileInPlace(plan: N.Plan)
      requires Valid() && At(plan, N.InspectLink)
      ensures N.Ready(plan) && FileAt(web.disk, plan.paths.value.available, plan.conf.value)
    {
      assert Facts(cfg, Abs());
    }

    /** The whole rendered text is in the available file and the enabled link points at it. */
    ghost predicate InPlace(plan: N.Plan)
      reads this
    {
      && N.Ready(plan) && FileAt(web.disk, plan.paths.value.available, plan.conf.value)
      && LinkAt(web.disk, plan.paths.value.enabled, plan.paths.value.available)
    }

    lemma LinkInPlace(plan: N.Plan)
      requires Valid() && leg.OnNginx? && leg.nginx.plan == plan && LinkMade(leg.nginx.stage)
      ensures InPlace(plan)
    {
      assert Facts(cfg, Abs());
    }

    /** `EnsureSymlink`: on success the link points at the target; anything but a link is left in place. */
    method EnsureSymlink(ghost plan: N.Plan, linkpath: string, target: string) returns (ok: bool)
      requires Valid() && At(plan, N.InspectLink) && N.Ready(plan)
      requires linkpath == plan.paths.value.enabled && target == plan.paths.value.available
      modifies this`web, this`leg
      ensures Valid() && At(plan, if ok then N.Test else N.PostLast(N.FailedRow(plan, SymlinkFailed)))
      ensures ok ==> LinkAt(web.disk, linkpath, target)
    {
      var seen := Syscall(N.Look(linkpath));
      match seen.link {
        case Absent =>
          ok := Symlink(plan, linkpath, target);
        case LinkTo(cur) =>
          if cur == target {
            LinkInPlace(plan);
            return true;
          }
          ok := Relink(plan, linkpath, target);
        case _ =>
          ok := false;
      }
    }

    method Symlink(ghost plan: N.Plan, linkpath: string, target: string) returns (ok: bool)
      requires Valid() && At(plan, N.MakeLink) && N.Ready(plan)
      requires linkpath == plan.paths.value.enabled && target == plan.paths.value.available
      modifies this`web, this`leg
      ensures Valid() && At(plan, if ok then N.Test else N.PostLast(N.FailedRow(plan, SymlinkFailed)))
      ensures ok ==> LinkAt(web.disk, linkpath, target)
    {
      var reply := Syscall(N.Link(target, linkpath));
      ok := reply.Good?;
      if ok {
        LinkInPlace(plan);
      }
    }

    /** A stale link is removed before the new one is made; between the two calls the path is free. */
    method Relink(ghost plan: N.Plan, linkpath: string, target: string) returns (ok: bool)
      requires Valid() && At(plan, N.RemoveLink) && N.Ready(plan)
      requires linkpath == plan.paths.value.enabled && target == plan.paths.value.available
      modifies this`web, this`leg
      ensures Valid() && At(plan, if ok then N.Test else N.PostLast(N.FailedRow(plan, SymlinkFailed)))
      ensures ok ==> LinkAt(web.disk, linkpath, target)
    {
      var reply := Syscall(N.Unlink(linkpath));
      if !reply.Good? {
        return false;
      }
      ok := Symlink(plan, linkpath, target);
    }

    method ReportLast(plan: N.Plan, row: Row)
      requires Valid() && At(plan, N.PostLast(row))
      modifies this`leg, this`ledger, this`echo, this`unsaved, this`file, this`sent, this`answers
      ensures Valid() && Free(Abs()) && Sends([row])
    {
      var acked, _ := Report(row);
    }

    /** The failure receipt that ends a run. */
    method Fail(plan: N.Plan, reason: Reason)
      requires Valid() && At(plan, N.PostLast(N.FailedRow(plan, reason)))
      modifies this`leg, this`ledger, this`echo, this`unsaved, this`file, this`sent, this`answers
      ensures Valid() && Free(Abs()) && Sends([N.FailedRow(plan, reason)])
    {
      ReportLast(plan, N.FailedRow(plan, reason));
    }

    method ReportApplying(plan: N.Plan) returns (ok: bool)
      requires Valid() && At(plan, N.PostApplying)
      modifies this`leg, this`ledger, this`echo, this`unsaved, this`file, this`sent, this`answers
      ensures Valid() && (ok ==> At(plan, N.Materialize(plan))) && (!ok ==> Free(Abs()) && !Heard(answers))
      ensures Sends([N.PhaseRow(plan, Applying)])
    {
      var acked, _ := Report(N.PhaseRow(plan, Applying));
      ok := acked;
    }

    /** Both roots exist afterwards, or the failure is reported. */
    method PrepareNginxDirs(plan: N.Plan) returns (ok: bool)
      requires Valid() && At(plan, N.MkdirAvailable)
      modifies this`web, this`leg, this`ledger, this`echo, this`unsaved, this`file, this`sent, this`answers
      ensures Valid() && (ok ==> At(plan, if plan.reload || plan.resumed then N.Materialize(plan) else N.PostApplying))
      ensures ok ==> DirsAt(web.disk, plan.availableDir) && DirsAt(web.disk, plan.enabledDir)
      ensures !ok ==> Free(Abs())
      ensures Sends(if ok then [] else [N.FailedRow(plan, MkdirFailed)]) && Keeps(old(web.disk), web.disk)
    {
      ok := MkdirAll(plan, N.MkdirAvailable, plan.availableDir);
      if ok {
        ok := MkdirAll(plan, N.MkdirEnabled, plan.enabledDir);
      }
      if !ok {
        Fail(plan, MkdirFailed);
      }
    }

    /** The rendered text behind the link, both in place; or the failure reported, and which. */
    method PlaceConfig(plan: N.Plan) returns (failure: Option<Reason>)
      requires Valid() && At(plan, N.Materialize(plan))
      modifies this`web, this`leg, this`ledger, this`echo, this`unsaved, this`file, this`sent, this`answers
      ensures Valid() && Explains(plan, failure)
      ensures if failure.None? then At(plan, N.Test) && InPlace(plan) else Free(Abs())
      ensures Sends(if failure.None? then [] else [N.FailedRow(plan, failure.value)])
    {
      if plan.conf.Failure? {
        Fail(plan, RenderFailed(plan.conf.error));
        return Some(RenderFailed(plan.conf.error));
      }
      if plan.paths.Failure? {
        Fail(plan, BadSitePaths(plan.paths.error));
        return Some(BadSitePaths(plan.paths.error));
      }
      failure := WriteAndLink(plan);
    }

    method WriteAndLink(plan: N.Plan) returns (failure: Option<Reason>)
      requires Valid() && At(plan, N.MkdirForFile) && N.Ready(plan)
      modifies this`web, this`leg, this`ledger, this`echo, this`unsaved, this`file, this`sent, this`answers
      ensures Valid() && failure in {None, Some(WriteFailed), Some(SymlinkFailed)}
      ensures if failure.None? then At(plan, N.Test) && InPlace(plan) else Free(Abs())
      ensures Sends(if failure.None? then [] else [N.FailedRow(plan, failure.value)])
    {
      var availPath, enabledPath := plan.paths.value.available, plan.paths.value.enabled;
      var ok := WriteAtomicFile(plan, availPath, plan.conf.value);
      if !ok {
        Fail(plan, WriteFailed);
        return Some(WriteFailed);
      }
      ok := EnsureSymlink(plan, enabledPath, availPath);
      if !ok {
        Fail(plan, SymlinkFailed);
        return Some(SymlinkFailed);
      }
      LinkInPlace(plan);
      failure := None;
    }

    /** `nginx -t`. */
    method TestNginx(plan: N.Plan) returns (ok: bool)
      requires Valid() && At(plan, N.Test)
      modifies this`web, this`leg
      ensures Valid() && At(plan, if !ok then N.PostLast(N.FailedRow(plan, ValidationFailed))
                                  else if plan.reload then N.Reload else N.PostLast(N.PhaseRow(plan, Applied)))
    {
      var reply := Syscall(N.TestConfig);
      ok := reply.Good?;
    }

    method ReloadNginx(plan: N.Plan) returns (ok: bool)
      requires Valid() && At(plan, N.Reload)
      modifies this`web, this`leg
      ensures Valid() && At(plan, N.PostLast(if ok then N.ReloadRow(plan) else N.FailedRow(plan, ReloadFailed)))
    {
      var reply := Syscall(N.ReloadConfig);
      ok := reply.Good?;
    }

    /** The test and the last receipt of the apply leg. */
    method TestAndReport(plan: N.Plan) returns (last: Row)
      requires Valid() && At(plan, N.Test) && !plan.reload
      modifies this`web, this`leg, this`ledger, this`echo, this`unsaved, this`file, this`sent, this`answers
      ensures Valid() && Free(Abs()) && Sends([last]) && (last == N.PhaseRow(plan, Applied) ==> InPlace(plan))
      ensures last == N.PhaseRow(plan, Applied) || last == N.FailedRow(plan, ValidationFailed)
    {
      var ok := TestNginx(plan);
      if ok {
        LinkInPlace(plan);
      }
      last := if ok then N.PhaseRow(plan, Applied) else N.FailedRow(plan, ValidationFailed);
      ReportLast(plan, last);
    }

    /** Test, reload and the last receipt of the reload leg. */
    method ReloadAndReport(plan: N.Plan) returns (last: Row)
      requires Valid() && At(plan, N.Test) && plan.reload
      modifies this`web, this`leg, this`ledger, this`echo, this`unsaved, this`file, this`sent, this`answers
      ensures Valid() && Free(Abs()) && Sends([last])
      ensures last == N.ReloadRow(plan) || last == N.FailedRow(plan, ValidationFailed) || last == N.FailedRow(plan, ReloadFailed)
      ensures last == N.ReloadRow(plan) ==> InPlace(plan) && Serving(plan, web.loaded) && cfg.accepts(web.loaded)
    {
      var ok := TestNginx(plan);
      if ok {
        last := ReloadAfterTest(plan);
      } else {
        last := N.FailedRow(plan, ValidationFailed);
        ReportLast(plan, last);
      }
    }

    method ReloadAfterTest(plan: N.Plan) returns (last: Row)
      requires Valid() && At(plan, N.Reload)
      modifies this`web, this`leg, this`ledger, this`echo, this`unsaved, this`file, this`sent, this`answers
      ensures Valid() && Free(Abs()) && Sends([last])
      ensures last == N.ReloadRow(plan) || last == N.FailedRow(plan, ReloadFailed)
      ensures last == N.ReloadRow(plan) ==> InPlace(plan) && Serving(plan, web.loaded) && cfg.accepts(web.loaded)
    {
      var ok := ReloadNginx(plan);
      if ok {
        LinkInPlace(plan);
        Reloaded(plan);
      }
      last := if ok then N.ReloadRow(plan) else N.FailedRow(plan, ReloadFailed);
      ReportLast(plan, last);
    }

    lemma Reloaded(plan: N.Plan)
      requires Valid() && At(plan, N.PostLast(N.ReloadRow(plan)))
      ensures Serving(plan, web.loaded) && cfg.accepts(web.loaded)
    {
      assert Facts(cfg, Abs());
    }

    /** The apply leg. The result is the last receipt it posted after the applying one. */
    method RunApplyLeg(plan: N.Plan, check: Option<Reason>) returns (last: Option<Row>, ghost rows: seq<Row>)
      requires Valid() && !plan.reload
      requires At(plan, if check.Some? then N.PostLast(N.FailedRow(plan, check.value)) else N.MkdirAvailable)
      modifies this`web, this`leg, this`ledger, this`echo, this`unsaved, this`file, this`sent, this`answers
      ensures Valid() && Free(Abs()) && Sends(rows) && ApplyRows(plan, check, rows, last, Heard(answers))
      ensures last == Some(N.PhaseRow(plan, Applied)) ==> InPlace(plan)
      ensures (last.Some? ==> EndsApply(plan, last.value)) && (check.Some? ==> web == old(web))
    {
      if check.Some? {
        Fail(plan, check.value);
        last := Some(N.FailedRow(plan, check.value));
        rows := [last.value];
        return;
      }
      last, rows := ApplyFromDirs(plan);
    }

    method ApplyFromDirs(plan: N.Plan) returns (last: Option<Row>, ghost rows: seq<Row>)
      requires Valid() && At(plan, N.MkdirAvailable) && !plan.reload
      modifies this`web, this`leg, this`ledger, this`echo, this`unsaved, this`file, this`sent, this`answers
      ensures Valid() && Free(Abs()) && Sends(rows) && ApplyRows(plan, None, rows, last, Heard(answers))
      ensures last == Some(N.PhaseRow(plan, Applied)) ==> InPlace(plan)
      ensures last.Some? ==> EndsApply(plan, last.value)
    {
      var ok := PrepareNginxDirs(plan);
      if !ok {
        return Some(N.FailedRow(plan, MkdirFailed)), [N.FailedRow(plan, MkdirFailed)];
      }
      last, rows := ApplyInDirs(plan);
    }

    /** The applying receipt, unless the ledger is past it, and the rest. */
    method ApplyInDirs(plan: N.Plan) returns (last: Option<Row>, ghost rows: seq<Row>)
      requires Valid() && At(plan, if plan.resumed then N.Materialize(plan) else N.PostApplying) && !plan.reload
      modifies this`web, this`leg, this`ledger, this`echo, this`unsaved, this`file, this`sent, this`answers
      ensures Valid() && Free(Abs()) && Sends(rows)
      ensures last.None? ==> !plan.resumed && rows == [N.PhaseRow(plan, Applying)] && !Heard(answers)
      ensures last.Some? ==> rows == (if plan.resumed then [] else [N.PhaseRow(plan, Applying)]) + [last.value]
      ensures last == Some(N.PhaseRow(plan, Applied)) ==> InPlace(plan)
      ensures last.Some? ==> EndsApply(plan, last.value) && last.value != N.FailedRow(plan, MkdirFailed)
    {
      var ok := true;
      rows := [];
      if !plan.resumed {
        ok := ReportApplying(plan);
        rows := [N.PhaseRow(plan, Applying)];
      }
      if !ok {
        return None, rows;
      }
      var row := PlaceAndTest(plan);
      last := Some(row);
      rows := rows + [row];
    }

    /** From the first write to the last receipt of the apply leg. */
    method PlaceAndTest(plan: N.Plan) returns (last: Row)
      requires Valid() && At(plan, N.Materialize(plan)) && !plan.reload
      modifies this`web, this`leg, this`ledger, this`echo, this`unsaved, this`file, this`sent, this`answers
      ensures Valid() && Free(Abs()) && Sends([last]) && last != N.FailedRow(plan, MkdirFailed)
      ensures last == N.PhaseRow(plan, Applied) ==> InPlace(plan)
      ensures EndsApply(plan, last)
    {
      var failure := PlaceConfig(plan);
      if failure.Some? {
        last := N.FailedRow(plan, failure.value);
      } else {
        last := TestAndReport(plan);
      }
    }

    /** The reload leg: no applying receipt, and the reload after the test. It always posts one receipt. */
    method RunReloadLeg(plan: N.Plan, check: Option<Reason>) returns (last: Row)
      requires Valid() && plan.reload
      requires At(plan, if check.Some? then N.PostLast(N.FailedRow(plan, check.value)) else N.MkdirAvailable)
      modifies this`web, this`leg, this`ledger, this`echo, this`unsaved, this`file, this`sent, this`answers
      ensures Valid() && Free(Abs()) && Sends([last]) && (check.Some? ==> last == N.FailedRow(plan, check.value))
      ensures last == N.ReloadRow(plan) ==> InPlace(plan) && Serving(plan, web.loaded) && cfg.accepts(web.loaded)
      ensures (last == N.ReloadRow(plan) || FailsRun(plan, last)) && (check.Some? ==> web == old(web))
    {
      if check.Some? {
        last := N.FailedRow(plan, check.value);
        Fail(plan, check.value);
        return;
      }
      var ok := PrepareNginxDirs(plan);
      if !ok {
        return N.FailedRow(plan, MkdirFailed);
      }
      last := PlaceAndReload(plan);
    }

    method PlaceAndReload(plan: N.Plan) returns (last: Row)
      requires Valid() && At(plan, N.Materialize(plan)) && plan.reload
      modifies this`web, this`leg, this`ledger, this`echo, this`unsaved, this`file, this`sent, this`answers
      ensures Valid() && Free(Abs()) && Sends([last])
      ensures last == N.ReloadRow(plan) ==> InPlace(plan) && Serving(plan, web.loaded) && cfg.accepts(web.loaded)
      ensures last == N.ReloadRow(plan) || FailsRun(plan, last)
    {
      var failure := PlaceConfig(plan);
      if failure.Some? {
        last := N.FailedRow(plan, failure.value);
      } else {
        last := ReloadAndReport(plan);
      }
    }

    /** The queue's first nginx intent becomes the run in progress. */
    method StartNginx(intent: ApplyIntent, certOk: bool, seen: string) returns (kind: Kind, plan: N.Plan, check: Option<Reason>)
      requires Starts() && Valid() && Free(Abs()) && gitQueue == [] && applyQueue != [] && applyQueue[0] == intent
      requires seen == EchoOf(Abs(), intent.site)
      modifies this`leg, this`applyQueue
      ensures Valid() && applyQueue == old(applyQueue)[1..] && At(plan, FirstStage(kind, plan, check))
      ensures kind == KindOf(intent) && plan == N.PlanFor(cfg, intent, seen) && check == N.Precheck(cfg, intent, certOk)
      ensures plan.reload <==> kind.ReloadLeg?
    {
      ghost var before, e := Abs(), Start(true, true, certOk);
      StartNginxIs(cfg, before, e);
      assert StartTo(cfg, before, e) in reachable;
      kind, plan, check := KindOf(intent), N.PlanFor(cfg, intent, seen), N.Precheck(cfg, intent, certOk);
      BeginsAt(cfg, intent, seen, certOk);
      leg := OnNginx(N.Begin(cfg, intent, seen, certOk));
      applyQueue := applyQueue[1..];
    }

    /** One nginx intent, with the tls_state the echo holds for its site. The rows sent, what is on disk and what
        nginx has read are said of the intent itself. */
    method RunNginx(intent: ApplyIntent, certOk: bool) returns (last: Option<Row>, ghost rows: seq<Row>)
      requires Starts() && Valid() && Free(Abs()) && gitQueue == [] && applyQueue != [] && applyQueue[0] == intent
      modifies this`web, this`leg, this`ledger, this`echo, this`unsaved, this`file, this`sent, this`answers, this`applyQueue
      ensures Valid() && Free(Abs()) && applyQueue == old(applyQueue)[1..] && Sends(rows) && LedgerFollows()
      ensures I.NginxSendsAsAsked(cfg, intent, EchoOf(old(Abs()), intent.site), certOk, rows, last, Heard(answers))
      ensures I.NginxDoneAsAsked(cfg, intent, certOk, last, old(web), web)
    {
      var seen := if intent.site in echo then echo[intent.site] else "";
      last, rows := TakeNginx(intent, certOk, seen);
      NginxSentAsAsked(cfg, intent, seen, certOk, rows, last, Heard(answers));
      NginxDoneAsPlanned(cfg, intent, seen, certOk, rows, last, Heard(answers), old(web), web);
      Follows();
    }

    method TakeNginx(intent: ApplyIntent, certOk: bool, seen: string) returns (last: Option<Row>, ghost rows: seq<Row>)
      requires Starts() && Valid() && Free(Abs()) && gitQueue == [] && applyQueue != [] && applyQueue[0] == intent
      requires seen == EchoOf(Abs(), intent.site)
      modifies this`web, this`leg, this`ledger, this`echo, this`unsaved, this`file, this`sent, this`answers, this`applyQueue
      ensures Valid() && Free(Abs()) && applyQueue == old(applyQueue)[1..] && Sends(rows)
      ensures var plan, check := N.PlanFor(cfg, intent, seen), N.Precheck(cfg, intent, certOk);
        && NginxSends(KindOf(intent), plan, check, rows, last, Heard(answers)) && NginxMeans(cfg, plan, last, web)
        && (KindOf(intent).NotOurs? || check.Some? ==> web == old(web))
    {
      var kind, plan, check := StartNginx(intent, certOk, seen);
      last, rows := RunLeg(kind, plan, check);
    }

    method RunLeg(kind: Kind, plan: N.Plan, check: Option<Reason>) returns (last: Option<Row>, ghost rows: seq<Row>)
      requires Valid() && At(plan, FirstStage(kind, plan, check)) && (plan.reload <==> kind.ReloadLeg?)
      modifies this`web, this`leg, this`ledger, this`echo, this`unsaved, this`file, this`sent, this`answers
      ensures Valid() && Free(Abs()) && Sends(rows) && NginxSends(kind, plan, check, rows, last, Heard(answers))
      ensures (kind.NotOurs? || check.Some? ==> web == old(web)) && NginxMeans(cfg, plan, last, web)
    {
      match kind {
        case NotOurs =>
          last, rows := None, [];
        case ReloadLeg =>
          var row := RunReloadLeg(plan, check);
          last, rows := Some(row), [row];
        case ApplyLeg =>
          last, rows := RunApplyLeg(plan, check);
      }
    }

    // -------------------------------------------------------------- git

    ghost predicate AtGit(plan: G.Plan, s: G.Stage)
      reads this
    {
      !unsaved && leg.OnGit? && leg.git.plan == plan && leg.git.stage == s
    }

    /** The failure receipt that ends a git run. */
    method FailGit(plan: G.Plan, reason: Reason)
      requires Valid() && AtGit(plan, GitFailure(plan, reason))
      modifies this`leg, this`ledger, this`echo, this`unsaved, this`file, this`sent, this`answers
      ensures Valid() && Free(Abs()) && Sends([G.FailedRow(plan, reason)])
    {
      var acked, _ := Report(G.FailedRow(plan, reason));
    }

    method ReportPhase(plan: G.Plan, phase: GitPhase) returns (ok: bool)
      requires Valid() && PhaseStage(phase).Some? && AtGit(plan, PhaseStage(phase).value)
      modifies this`leg, this`ledger, this`echo, this`unsaved, this`file, this`sent, this`answers
      ensures Valid() && (ok ==> AtGit(plan, AfterPhase(plan, phase))) && (!ok ==> Free(Abs()) && !Heard(answers))
      ensures Sends([G.PhaseRow(plan, phase)])
    {
      var acked, _ := Report(G.PhaseRow(plan, phase));
      ok := acked;
    }

    /** Whether there is a repository, or anything at all, at the deploy path. */
    method Lookup(plan: G.Plan, s: G.Stage) returns (found: Option<bool>)
      requires Valid() && AtGit(plan, s) && (s.ProbeRepo? || s.ProbePath?)
      modifies this`places, this`leg
      ensures Valid() && AtGit(plan, AfterLookup(plan, s, found)) && places == old(places)
      ensures Sees(places, plan.place, s, found)
    {
      var reply, o := GitCall(G.LookUp(s), plan.place);
      LookupSees(places, plan.place, s, o);
      found := if reply.Found? then Some(reply.exists_) else None;
    }

    /** One git command, or the parent check. */
    method RunCommand(plan: G.Plan, s: G.Stage, a: G.Action) returns (ok: bool, ghost o: Outcome)
      requires Valid() && AtGit(plan, s) && AfterSuccess(plan, s).Some? && G.Next(G.Run(plan, s)) == a
      modifies this`places, this`leg
      ensures Valid() && AtGit(plan, if ok then AfterSuccess(plan, s).value else GitFailure(plan, FailureAt(s)))
      ensures places == G.Perform(old(places), plan.place, a, o).0 && ok == G.Perform(old(places), plan.place, a, o).1.Good?
    {
      var reply, answer := GitCall(a, plan.place);
      ok := reply.Good?;
      o := answer;
    }

    /** The same, reporting a failure. */
    method Try(plan: G.Plan, s: G.Stage, a: G.Action) returns (ok: bool, ghost o: Outcome)
      requires Valid() && AtGit(plan, s) && AfterSuccess(plan, s).Some? && G.Next(G.Run(plan, s)) == a
      modifies this`places, this`leg, this`ledger, this`echo, this`unsaved, this`file, this`sent, this`answers
      ensures Valid() && (ok ==> AtGit(plan, AfterSuccess(plan, s).value)) && (!ok ==> Free(Abs()))
      ensures places == G.Perform(old(places), plan.place, a, o).0 && ok == G.Perform(old(places), plan.place, a, o).1.Good?
      ensures Sends(if ok then [] else [G.FailedRow(plan, FailureAt(s))])
    {
      ok, o := RunCommand(plan, s, a);
      if !ok {
        FailGit(plan, FailureAt(s));
      }
    }

    /** A fetch: branches are added or moved, none is pruned, HEAD and tree stay. */
    method FetchRepository(plan: G.Plan) returns (failure: Option<Reason>)
      requires Valid() && AtGit(plan, G.FetchOrigin) && GitRuns.RepoAt(places, plan.place)
      modifies this`places, this`leg, this`ledger, this`echo, this`unsaved, this`file, this`sent, this`answers
      ensures Valid() && (if failure.None? then AtGit(plan, G.AfterUpdate(plan)) else failure == Some(FetchFailed) && Free(Abs()))
      ensures Fetched(old(places), places, plan.place)
      ensures Sends(if failure.None? then [] else [G.FailedRow(plan, failure.value)])
    {
      var ok, o := Try(plan, G.FetchOrigin, G.Fetch);
      failure := if ok then None else Some(FetchFailed);
      FetchKeeps(old(places), plan.place, o);
    }

    method CloneBranch(plan: G.Plan) returns (failure: Option<Reason>)
      requires Valid() && AtGit(plan, G.CloneNew) && plan.place !in places
      modifies this`places, this`leg, this`ledger, this`echo, this`unsaved, this`file, this`sent, this`answers
      ensures Valid() && (if failure.None? then AtGit(plan, G.AfterUpdate(plan)) else failure == Some(CloneFailed) && Free(Abs()))
      ensures if failure.None? then Cloned(places, plan.place, plan.branch) else places == old(places)
      ensures Sends(if failure.None? then [] else [G.FailedRow(plan, failure.value)])
    {
      var ok, o := Try(plan, G.CloneNew, G.CloneBranch(plan.branch));
      failure := if ok then None else Some(CloneFailed);
      CloneMakes(old(places), plan.place, plan.branch, o);
    }

    /** No repository at the deploy path: clone, unless something else is there. */
    method CloneRepository(plan: G.Plan) returns (failure: Option<Reason>)
      requires Valid() && AtGit(plan, G.ProbePath) && NoRepository(places, plan.place)
      modifies this`places, this`leg, this`ledger, this`echo, this`unsaved, this`file, this`sent, this`answers
      ensures Valid() && (if failure.None? then AtGit(plan, G.AfterUpdate(plan)) else Free(Abs()))
      ensures Updated(old(places), places, plan, failure) && failure != Some(FetchFailed)
      ensures Sends(if failure.None? then [] else [G.FailedRow(plan, failure.value)])
    {
      var found := Lookup(plan, G.ProbePath);
      if found.None? {
        FailGit(plan, PathStatFailed);
        return Some(PathStatFailed);
      }
      if found.value {
        FailGit(plan, NotARepository);
        return Some(NotARepository);
      }
      failure := CloneBranch(plan);
    }

    /** Clone or fetch, whichever the deploy path calls for; or the failure reported, and what was found. A
        repository that was there is fetched and keeps HEAD and tree; only an absent path is cloned into. */
    method UpdateRepository(plan: G.Plan) returns (failure: Option<Reason>)
      requires Valid() && AtGit(plan, G.StatParent)
      modifies this`places, this`leg, this`ledger, this`echo, this`unsaved, this`file, this`sent, this`answers
      ensures Valid() && (if failure.None? then AtGit(plan, G.AfterUpdate(plan)) else Free(Abs()))
      ensures Updated(old(places), places, plan, failure)
      ensures Sends(if failure.None? then [] else [G.FailedRow(plan, failure.value)])
    {
      var ok, _ := Try(plan, G.StatParent, G.LookUp(G.StatParent));
      if !ok {
        return Some(ParentMissing);
      }
      failure := FetchOrClone(plan);
    }

    method FetchOrClone(plan: G.Plan) returns (failure: Option<Reason>)
      requires Valid() && AtGit(plan, G.ProbeRepo)
      modifies this`places, this`leg, this`ledger, this`echo, this`unsaved, this`file, this`sent, this`answers
      ensures Valid() && (if failure.None? then AtGit(plan, G.AfterUpdate(plan)) else Free(Abs()))
      ensures Updated(old(places), places, plan, failure)
      ensures Sends(if failure.None? then [] else [G.FailedRow(plan, failure.value)])
    {
      var found := Lookup(plan, G.ProbeRepo);
      if found.None? {
        FailGit(plan, RepoCheckFailed);
        return Some(RepoCheckFailed);
      }
      if found.value {
        failure := FetchRepository(plan);
      } else {
        failure := CloneRepository(plan);
      }
    }

    /** The desired commit, when there is one, must exist before the reset. */
    method VerifyCommit(plan: G.Plan) returns (ok: bool)
      requires Valid() && AtGit(plan, if plan.desired != "" then G.VerifyCommit else G.ResetHard)
      modifies this`places, this`leg, this`ledger, this`echo, this`unsaved, this`file, this`sent, this`answers
      ensures Valid() && (ok ==> AtGit(plan, G.ResetHard)) && (!ok ==> Free(Abs())) && places == old(places)
      ensures Sends(if ok then [] else [G.FailedRow(plan, CommitNotFound)])
    {
      ok := true;
      if plan.desired != "" {
        var found, o := Try(plan, G.VerifyCommit, G.CheckCommit(plan.desired));
        NotReset(old(places), plan.place, G.CheckCommit(plan.desired), o);
        ok := found;
      }
    }

    /** HEAD and its log record after the reset. */
    method ReadCommitObservation(plan: G.Plan) returns (commit: Option<Commit>)
      requires Valid() && AtGit(plan, G.ReadHead)
      modifies this`places, this`leg
      ensures Valid()
      ensures AtGit(plan, if commit.Some? then G.PostLast(G.AppliedRow(plan, commit.value)) else GitFailure(plan, ReadCommitFailed))
    {
      var ok, _ := RunCommand(plan, G.ReadHead, G.RevParse);
      commit := None;
      if ok {
        commit := ShowLog(plan);
      }
    }

    method ShowLog(plan: G.Plan) returns (commit: Option<Commit>)
      requires Valid() && AtGit(plan, G.ReadLog)
      modifies this`places, this`leg
      ensures Valid()
      ensures AtGit(plan, if commit.Some? then G.PostLast(G.AppliedRow(plan, commit.value)) else GitFailure(plan, ReadCommitFailed))
    {
      var reply, _ := GitCall(G.ShowLog, plan.place);
      commit := if reply.Observed? then reply.record else None;
    }

    /** Reset to the target and report the commit observed there, or the failure. */
    method ResetAndReport(plan: G.Plan) returns (commit: Option<Commit>, ghost failure: Option<Reason>)
      requires Valid() && AtGit(plan, if plan.desired != "" then G.VerifyCommit else G.ResetHard)
      modifies this`places, this`leg, this`ledger, this`echo, this`unsaved, this`file, this`sent, this`answers
      ensures Valid() && Free(Abs()) && (commit.Some? ==> CheckedOut(plan, commit.value.sha))
      ensures Sends(LastRow(plan, commit, failure)) && (commit.Some? <==> failure.None?)
      ensures failure in {None, Some(CommitNotFound), Some(ResetFailed), Some(ReadCommitFailed)}
      ensures Spared(old(places), places, plan.place, commit, failure)
    {
      var ok := VerifyCommit(plan);
      if !ok {
        return None, Some(CommitNotFound);
      }
      commit, failure := ResetHard(plan);
    }

    method ResetHard(plan: G.Plan) returns (commit: Option<Commit>, ghost failure: Option<Reason>)
      requires Valid() && AtGit(plan, G.ResetHard)
      modifies this`places, this`leg, this`ledger, this`echo, this`unsaved, this`file, this`sent, this`answers
      ensures Valid() && Free(Abs()) && (commit.Some? ==> CheckedOut(plan, commit.value.sha))
      ensures Sends(LastRow(plan, commit, failure)) && (commit.Some? <==> failure.None?)
      ensures failure in {None, Some(ResetFailed), Some(ReadCommitFailed)}
      ensures Spared(old(places), places, plan.place, commit, failure)
    {
      var reset, o := Try(plan, G.ResetHard, G.ResetTo(G.TargetOf(plan)));
      if !reset {
        NotReset(old(places), plan.place, G.ResetTo(G.TargetOf(plan)), o);
        return None, Some(ResetFailed);
      }
      commit := ObserveAndReport(plan);
      failure := if commit.Some? then None else Some(ReadCommitFailed);
    }

    method ObserveAndReport(plan: G.Plan) returns (commit: Option<Commit>)
      requires Valid() && AtGit(plan, G.ReadHead)
      modifies this`places, this`leg, this`ledger, this`echo, this`unsaved, this`file, this`sent, this`answers
      ensures Valid() && Free(Abs()) && (commit.Some? ==> CheckedOut(plan, commit.value.sha))
      ensures Sends([if commit.Some? then G.AppliedRow(plan, commit.value) else G.FailedRow(plan, ReadCommitFailed)])
    {
      commit := ReadCommitObservation(plan);
      if commit.None? {
        FailGit(plan, ReadCommitFailed);
      } else {
        Truth(plan, commit.value);
        ReportApplied(plan, commit.value);
      }
    }

    method ReportApplied(plan: G.Plan, c: Commit)
      requires Valid() && AtGit(plan, G.PostLast(G.AppliedRow(plan, c)))
      modifies this`leg, this`ledger, this`echo, this`unsaved, this`file, this`sent, this`answers
      ensures Valid() && Free(Abs()) && Sends([G.AppliedRow(plan, c)])
    {
      var acked, _ := Report(G.AppliedRow(plan, c));
    }

    /** HEAD and tree are at the commit, and it is the one the plan's intent asks for. */
    ghost predicate CheckedOut(plan: G.Plan, sha: seq<byte>)
      reads this
    {
      Deployed(plan.intent, places, Some(sha))
    }

    lemma Truth(plan: G.Plan, c: Commit)
      requires Valid() && AtGit(plan, G.PostLast(G.AppliedRow(plan, c)))
      ensures CheckedOut(plan, c.sha)
    {
      assert Facts(cfg, Abs());
      TruthDeploys(leg.git, places);
    }

    /** The queue's first git intent becomes the run in progress. */
    method StartGit(intent: GitIntent, gitFound: bool, keyUsable: bool, seen: string)
        returns (plan: G.Plan, check: Option<Reason>)
      requires Starts() && Valid() && Free(Abs()) && gitQueue != [] && gitQueue[0] == intent && seen == EchoOf(Abs(), intent.site)
      modifies this`leg, this`gitQueue
      ensures Valid() && gitQueue == old(gitQueue)[1..] && AtGit(plan, FirstGitStage(plan, check))
      ensures plan == G.PlanFor(cfg, intent, seen) && check == G.Precheck(cfg, intent, gitFound, keyUsable)
      ensures (plan.skipFetched ==> plan.skipFetching) && plan.place == GitRuns.PlaceOf(intent)
    {
      ghost var before, e := Abs(), Start(gitFound, keyUsable, true);
      StartGitIs(cfg, before, e);
      assert StartTo(cfg, before, e) in reachable;
      plan, check := G.PlanFor(cfg, intent, seen), G.Precheck(cfg, intent, gitFound, keyUsable);
      GitBeginsAt(cfg, intent, seen, gitFound, keyUsable);
      leg := OnGit(G.Begin(cfg, intent, seen, gitFound, keyUsable));
      gitQueue := gitQueue[1..];
    }

    /** From the first receipt on. */
    method Converge(plan: G.Plan) returns (commit: Option<Commit>, ghost rows: seq<Row>, ghost phases: nat, ghost failure: Option<Reason>)
      requires Valid() && AtGit(plan, if plan.skipFetching then G.AfterFetching(plan) else G.PostFetching)
      requires plan.skipFetched ==> plan.skipFetching
      modifies this`places, this`leg, this`ledger, this`echo, this`unsaved, this`file, this`sent, this`answers
      ensures Valid() && Free(Abs()) && (commit.Some? ==> CheckedOut(plan, commit.value.sha))
      ensures Sends(rows) && GitSequence(plan, rows, commit, phases, failure, Heard(answers))
      ensures Spared(old(places), places, plan.place, commit, failure)
      ensures plan.parent.Some? ==> places == old(places) && commit.None?
    {
      var ok;
      ok, rows := FetchingPhase(plan);
      if !ok {
        OnlyFetching(plan);
        return None, rows, 1, None;
      }
      ghost var later;
      commit, later, failure := AfterFetching(plan);
      phases := |rows| + |later.0|;
      AllRows(plan, later.0, later.1, commit, failure, Heard(answers));
      Appended(old(sent), rows, later.0 + later.1);
      rows := rows + (later.0 + later.1);
    }

    /** The fetching receipt, unless the ledger is past it. */
    method FetchingPhase(plan: G.Plan) returns (ok: bool, ghost rows: seq<Row>)
      requires Valid() && AtGit(plan, if plan.skipFetching then G.AfterFetching(plan) else G.PostFetching)
      modifies this`leg, this`ledger, this`echo, this`unsaved, this`file, this`sent, this`answers
      ensures Valid() && (if ok then AtGit(plan, G.AfterFetching(plan)) else !plan.skipFetching && Free(Abs()) && !Heard(answers))
      ensures Sends(rows) && rows == if plan.skipFetching then [] else [G.PhaseRow(plan, GitFetching)]
    {
      ok, rows := true, [];
      if !plan.skipFetching {
        ok := ReportPhase(plan, GitFetching);
        rows := [G.PhaseRow(plan, GitFetching)];
      }
    }

    method AfterFetching(plan: G.Plan) returns (commit: Option<Commit>, ghost rows: (seq<Row>, seq<Row>), ghost failure: Option<Reason>)
      requires Valid() && AtGit(plan, G.AfterFetching(plan))
      modifies this`places, this`leg, this`ledger, this`echo, this`unsaved, this`file, this`sent, this`answers
      ensures Valid() && Free(Abs()) && (commit.Some? ==> CheckedOut(plan, commit.value.sha))
      ensures Sends(rows.0 + rows.1) && LaterRows(plan, rows.0, rows.1, commit, failure, Heard(answers))
      ensures Spared(old(places), places, plan.place, commit, failure)
      ensures plan.parent.Some? ==> places == old(places) && commit.None?
    {
      if plan.parent.Some? {
        var reason := InvalidParent(plan.parent.value);
        FailGit(plan, reason);
        FailsLater(plan, reason, Heard(answers));
        return None, ([], [G.FailedRow(plan, reason)]), Some(reason);
      }
      commit, rows, failure := UpdateAndApply(plan);
    }

    method UpdateAndApply(plan: G.Plan) returns (commit: Option<Commit>, ghost rows: (seq<Row>, seq<Row>), ghost failure: Option<Reason>)
      requires Valid() && AtGit(plan, G.StatParent)
      modifies this`places, this`leg, this`ledger, this`echo, this`unsaved, this`file, this`sent, this`answers
      ensures Valid() && Free(Abs()) && (commit.Some? ==> CheckedOut(plan, commit.value.sha))
      ensures Sends(rows.0 + rows.1) && LaterRows(plan, rows.0, rows.1, commit, failure, Heard(answers))
      ensures Spared(old(places), places, plan.place, commit, failure)
    {
      var failed := UpdateRepository(plan);
      UpdateSpares(old(places), places, plan, failed);
      if failed.Some? {
        FailsLater(plan, failed.value, Heard(answers));
        return None, ([], [G.FailedRow(plan, failed.value)]), failed;
      }
      ghost var left := places;
      commit, rows, failure := AfterUpdate(plan);
      SparedAfter(old(places), left, places, plan.place, commit, failure);
    }

    /** The fetched receipt, unless the ledger is past it, and the rest. */
    method AfterUpdate(plan: G.Plan) returns (commit: Option<Commit>, ghost rows: (seq<Row>, seq<Row>), ghost failure: Option<Reason>)
      requires Valid() && AtGit(plan, G.AfterUpdate(plan))
      modifies this`places, this`leg, this`ledger, this`echo, this`unsaved, this`file, this`sent, this`answers
      ensures Valid() && Free(Abs()) && (commit.Some? ==> CheckedOut(plan, commit.value.sha))
      ensures Sends(rows.0 + rows.1) && LaterRows(plan, rows.0, rows.1, commit, failure, Heard(answers))
      ensures Spared(old(places), places, plan.place, commit, failure)
    {
      commit, rows, failure := None, ([], []), None;
      if !plan.skipFetched {
        var ok := ReportPhase(plan, GitFetched);
        rows := ([G.PhaseRow(plan, GitFetched)], []);
        if !ok {
          OnlyFetched(plan);
          return;
        }
      }
      ghost var last;
      commit, last, failure := ApplyAndReport(plan);
      FetchedAndApplying(plan, last, commit, failure, Heard(answers));
      Appended(old(sent), rows.0, [G.PhaseRow(plan, GitApplying)] + last);
      rows := (rows.0 + [G.PhaseRow(plan, GitApplying)], last);
    }

    /** The applying receipt and, once it is acknowledged, the reset and the last receipt. */
    method ApplyAndReport(plan: G.Plan) returns (commit: Option<Commit>, ghost last: seq<Row>, ghost failure: Option<Reason>)
      requires Valid() && AtGit(plan, G.PostApplying)
      modifies this`places, this`leg, this`ledger, this`echo, this`unsaved, this`file, this`sent, this`answers
      ensures Valid() && Free(Abs()) && (commit.Some? ==> CheckedOut(plan, commit.value.sha) && failure.None?)
      ensures Sends([G.PhaseRow(plan, GitApplying)] + last) && last == LastRow(plan, commit, failure)
      ensures (commit.None? && failure.None? ==> !Heard(answers)) && Spared(old(places), places, plan.place, commit, failure)
    {
      commit, last, failure := None, [], None;
      var ok := ReportPhase(plan, GitApplying);
      if !ok {
        return;
      }
      commit, failure := ResetAndReport(plan);
      last := LastRow(plan, commit, failure);
    }

    /** One git intent: the result is the commit it reported as applied, if any. The rows sent, and where and at which
        commit the site then is, are said of the intent itself. HEAD and tree have moved only if a commit was
        reported, or could not be read back. */
    method RunGit(intent: GitIntent, gitFound: bool, keyUsable: bool)
        returns (commit: Option<Commit>, ghost rows: seq<Row>, ghost failure: Option<Reason>)
      requires Starts() && Valid() && Free(Abs()) && gitQueue != [] && gitQueue[0] == intent
      modifies this`places, this`leg, this`ledger, this`echo, this`unsaved, this`file, this`sent, this`answers, this`gitQueue
      ensures Valid() && Free(Abs()) && gitQueue == old(gitQueue)[1..] && Sends(rows) && LedgerFollows()
      ensures SendsAsAsked(cfg, intent, EchoOf(old(Abs()), intent.site), gitFound, keyUsable, rows, commit, failure, Heard(answers))
      ensures DoneAsAsked(cfg, intent, gitFound, keyUsable, old(places), places, commit)
      ensures Spared(old(places), places, GitRuns.PlaceOf(intent), commit, failure)
    {
      var seen := if intent.site in echo then echo[intent.site] else "";
      commit, rows, failure := TakeGit(intent, gitFound, keyUsable, seen);
      SentAsAsked(cfg, intent, seen, gitFound, keyUsable, rows, commit, failure, Heard(answers));
      DoneAsPlanned(cfg, intent, seen, gitFound, keyUsable, old(places), places, commit);
      Follows();
    }

    method TakeGit(intent: GitIntent, gitFound: bool, keyUsable: bool, seen: string)
        returns (commit: Option<Commit>, ghost rows: seq<Row>, ghost failure: Option<Reason>)
      requires Starts() && Valid() && Free(Abs()) && gitQueue != [] && gitQueue[0] == intent && seen == EchoOf(Abs(), intent.site)
      modifies this`places, this`leg, this`ledger, this`echo, this`unsaved, this`file, this`sent, this`answers, this`gitQueue
      ensures Valid() && Free(Abs()) && gitQueue == old(gitQueue)[1..] && Sends(rows)
      ensures var plan, check := G.PlanFor(cfg, intent, seen), G.Precheck(cfg, intent, gitFound, keyUsable);
        && plan.place == GitRuns.PlaceOf(intent) && GitSends(plan, check, rows, commit, failure, Heard(answers))
        && (commit.Some? ==> CheckedOut(plan, commit.value.sha)) && Spared(old(places), places, plan.place, commit, failure)
        && (check.Some? || plan.parent.Some? ==> places == old(places) && commit.None?)
    {
      var plan, check := StartGit(intent, gitFound, keyUsable, seen);
      commit, rows, failure := RunGitLeg(plan, check);
    }

    method RunGitLeg(plan: G.Plan, check: Option<Reason>)
        returns (commit: Option<Commit>, ghost rows: seq<Row>, ghost failure: Option<Reason>)
      requires Valid() && AtGit(plan, FirstGitStage(plan, check)) && (plan.skipFetched ==> plan.skipFetching)
      modifies this`places, this`leg, this`ledger, this`echo, this`unsaved, this`file, this`sent, this`answers
      ensures Valid() && Free(Abs()) && Sends(rows) && GitSends(plan, check, rows, commit, failure, Heard(answers))
      ensures (commit.Some? ==> CheckedOut(plan, commit.value.sha)) && Spared(old(places), places, plan.place, commit, failure)
      ensures check.Some? || plan.parent.Some? ==> places == old(places) && commit.None?
    {
      if check.Some? {
        FailGit(plan, check.value);
        return None, [G.FailedRow(plan, check.value)], check;
      }
      ghost var phases;
      commit, rows, phases, failure := Converge(plan);
    }

    // -------------------------------------------------------------- one cycle

    /** A ping answered with the ledger's snapshot: the echo is reloaded, then every git intent and after them
        every nginx intent is run once, in order. The rows sent are those of the runs, one run per intent. */
    method Cycle(git: seq<GitIntent>, apply: seq<ApplyIntent>, readable: bool)
        returns (ghost gitRuns: seq<seq<Row>>, ghost applyRuns: seq<seq<Row>>)
      requires Starts() && Pings() && Valid() && Free(Abs()) && gitQueue == [] && applyQueue == []
      requires GitSnapshot(ledger, git) && ApplySnapshot(ledger, apply)
      modifies this
      ensures Valid() && Free(Abs()) && gitQueue == [] && applyQueue == []
      ensures Sends(Concat(gitRuns) + Concat(applyRuns)) && LedgerFollows()
      ensures GitRunsOf(git, gitRuns) && ApplyRunsOf(if I.RootsGiven(cfg) then apply else [], applyRuns)
    {
      RootsConfigured(cfg);
      Shown(apply);
      Observe(git, apply, readable);
      gitRuns, applyRuns := Serve(git, applyQueue, apply);
      Follows();
    }

    lemma Shown(apply: seq<ApplyIntent>)
      requires Pings() && Valid() && ApplySnapshot(ledger, apply)
      ensures forall i :: 0 <= i < |apply| ==> apply[i] in handled
    {
      forall i | 0 <= i < |apply| ensures apply[i] in handled {
        ShownAreHandled(ledger, apply, i);
      }
    }

    method Serve(git: seq<GitIntent>, ghost queued: seq<ApplyIntent>, apply: seq<ApplyIntent>)
        returns (ghost gitRuns: seq<seq<Row>>, ghost applyRuns: seq<seq<Row>>)
      requires Starts() && Pings() && Valid() && Free(Abs()) && forall i :: 0 <= i < |apply| ==> apply[i] in handled
      requires gitQueue == git && applyQueue == queued && queued == if NginxConfigured(cfg) then apply else []
      modifies this`web, this`places, this`leg, this`ledger, this`echo, this`unsaved, this`file, this`sent, this`answers, this`gitQueue, this`applyQueue
      ensures Valid() && Free(Abs()) && gitQueue == [] && applyQueue == []
      ensures Sends(Concat(gitRuns) + Concat(applyRuns)) && GitRunsOf(git, gitRuns) && ApplyRunsOf(queued, applyRuns)
    {
      gitRuns := RunGitIntents(git);
      applyRuns := ServeNginx(queued, apply);
      Appended(old(sent), Concat(gitRuns), Concat(applyRuns));
    }

    /** Without both roots the nginx loop does not run. */
    method ServeNginx(ghost queued: seq<ApplyIntent>, apply: seq<ApplyIntent>) returns (ghost runs: seq<seq<Row>>)
      requires Starts() && Pings() && Valid() && Free(Abs()) && forall i :: 0 <= i < |apply| ==> apply[i] in handled
      requires gitQueue == [] && applyQueue == queued && queued == if NginxConfigured(cfg) then apply else []
      modifies this`web, this`leg, this`ledger, this`echo, this`unsaved, this`file, this`sent, this`answers, this`applyQueue
      ensures Valid() && Free(Abs()) && applyQueue == [] && Sends(Concat(runs)) && ApplyRunsOf(queued, runs)
    {
      runs := [];
      if NginxConfigured(cfg) {
        runs := RunNginxIntents(apply);
      }
    }

    method RunGitIntents(git: seq<GitIntent>) returns (ghost runs: seq<seq<Row>>)
      requires Starts() && Valid() && Free(Abs()) && gitQueue == git
      modifies this`places, this`leg, this`ledger, this`echo, this`unsaved, this`file, this`sent, this`answers, this`gitQueue
      ensures Valid() && Free(Abs()) && gitQueue == [] && Sends(Concat(runs)) && GitRunsOf(git, runs)
    {
      runs := [];
      for i := 0 to |git|
        invariant Valid() && Free(Abs()) && gitQueue == git[i..]
        invariant Sends(Concat(runs)) && GitRunsOf(git[..i], runs)
      {
        var gitFound := Oracle();
        var keyUsable := Oracle();
        var rows := NextGit(git[i], gitFound, keyUsable);
        GitRunsMore(git, i, runs, rows);
        Appended(old(sent), Concat(runs), rows);
        runs := runs + [rows];
      }
    }

    method NextGit(intent: GitIntent, gitFound: bool, keyUsable: bool) returns (ghost rows: seq<Row>)
      requires Starts() && Valid() && Free(Abs()) && gitQueue != [] && gitQueue[0] == intent
      modifies this`places, this`leg, this`ledger, this`echo, this`unsaved, this`file, this`sent, this`answers, this`gitQueue
      ensures Valid() && Free(Abs()) && gitQueue == old(gitQueue)[1..] && Sends(rows) && GitRun(intent.site, rows)
    {
      ghost var seen := EchoOf(Abs(), intent.site);
      var commit; ghost var failure;
      commit, rows, failure := RunGit(intent, gitFound, keyUsable);
      GitRowsAreRun(cfg, intent, seen, gitFound, keyUsable, rows, commit, failure, Heard(answers));
    }

    method RunNginxIntents(apply: seq<ApplyIntent>) returns (ghost runs: seq<seq<Row>>)
      requires Starts() && Pings() && Valid() && Free(Abs()) && gitQueue == [] && applyQueue == apply
      requires forall i :: 0 <= i < |apply| ==> apply[i] in handled
      modifies this`web, this`leg, this`ledger, this`echo, this`unsaved, this`file, this`sent, this`answers, this`applyQueue
      ensures Valid() && Free(Abs()) && applyQueue == [] && Sends(Concat(runs)) && ApplyRunsOf(apply, runs)
    {
      runs := [];
      for i := 0 to |apply|
        invariant Valid() && Free(Abs()) && applyQueue == apply[i..]
        invariant Sends(Concat(runs)) && ApplyRunsOf(apply[..i], runs)
      {
        var certOk := Oracle();
        var rows := NextNginx(apply[i], certOk);
        ApplyRunsMore(apply, i, runs, rows);
        Appended(old(sent), Concat(runs), rows);
        runs := runs + [rows];
      }
    }

    method NextNginx(intent: ApplyIntent, certOk: bool) returns (ghost rows: seq<Row>)
      requires Starts() && Pings() && Valid() && Free(Abs())
      requires gitQueue == [] && applyQueue != [] && applyQueue[0] == intent && intent in handled
      modifies this`web, this`leg, this`ledger, this`echo, this`unsaved, this`file, this`sent, this`answers, this`applyQueue
      ensures Valid() && Free(Abs()) && applyQueue == old(applyQueue)[1..] && Sends(rows) && ApplyRun(intent.site, rows)
    {
      ghost var seen := EchoOf(Abs(), intent.site);
      assert Handled(intent);
      var last;
      last, rows := RunNginx(intent, certOk);
      NginxRowsAreRun(cfg, intent, seen, certOk, rows, last, Heard(answers));
    }

    /** The ping and the echo map it is served with. */
    method Observe(git: seq<GitIntent>, apply: seq<ApplyIntent>, readable: bool)
      requires Pings() && Valid() && Free(Abs()) && gitQueue == [] && applyQueue == []
      requires GitSnapshot(ledger, git) && ApplySnapshot(ledger, apply)
      modifies this`echo, this`leg, this`gitQueue, this`applyQueue
      ensures Valid() && Free(Abs()) && gitQueue == git && applyQueue == if NginxConfigured(cfg) then apply else []
    {
      var loaded := LoadTlsEchoMap(file, readable);
      ghost var before, e := Abs(), Ping(git, apply, loaded, readable);
      assert Possible(cfg, before, e) && PingTo(cfg, before, e) in reachable;
      echo := loaded;
      leg := NoLeg;
      gitQueue := git;
      applyQueue := if NginxConfigured(cfg) then apply else [];
    }

    method Oracle() returns (b: bool)
    {
      b := *;
    }

    /** At every point of the program: receipts in order, a configuration the test accepted, truthful git
        receipts, a tls_state in every row, and a ledger that is the replay of the rows received. */
    lemma Holds()
      requires Law() && Valid()
      ensures Ordered(ledger) && cfg.accepts(web.loaded) && Honest(Abs()) && LegRows(leg)
      ensures Replays(start.ledger, Log(ledger, sent, answers))
    {
      assert Reached(cfg, start, Abs());
      ReachedHolds(cfg, start, Abs());
    }
  }
}
