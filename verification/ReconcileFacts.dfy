/** What the reconcile protocol guarantees in every interleaving. */
module ReconcileFacts {
  import opened Text
  import opened Reconcile

  /** No process yet; the state file absent or one an earlier run wrote. */
  predicate Initial(s: System) {
    && s.procs == map[] && (s.lock.Some? ==> s.lock.value < s.next)
    && (s.file.Some? ==> GoodContent(s, s.file.value))
  }

  /** In every interleaving of any number of processes, with crashes, restarts, failed writes and lost replies:
      a fingerprint some memory or the state file calls reported was accepted by Central, the state file is
      one complete written value with desired equal to applied, and at most one process is in the locked
      region, the one that created the lock file. */
  lemma EveryInterleaving(s: System, es: seq<Event>)
    requires Initial(s)
    ensures var t := Exec(s, es);
      && (forall pid :: pid in t.procs && t.procs[pid].mem.reported != "" ==> Accepted(t, t.procs[pid].mem.reported))
      && (t.file.Some? ==> (
          && t.file.value.Whole? && Settled(t.file.value.record)
          && (t.file.value.record.reported != "" ==> Accepted(t, t.file.value.record.reported))))
      && (forall p, q :: p in t.procs && q in t.procs && Inside(t.procs[p].at) && Inside(t.procs[q].at) ==> p == q)
      && (forall p :: p in t.procs && Inside(t.procs[p].at) ==> t.lock == Some(p))
  {
    ExecInv(s, es);
    var t := Exec(s, es);
    forall p | p in t.procs ensures GoodProc(t, p) {
    }
  }

  /** The manifest asks for `f`, in its header or, for want of one there, in its payload. */
  predicate Wants(o: Outcome, f: string) {
    o.Fetched? && f != "" && (o.fingerprint == f || (o.fingerprint == "" && o.payload == Some(f)))
  }

  /** Neither a payload nor a fingerprint. */
  predicate Nothing(o: Outcome) {
    o.Fetched? && o.payload.None? && o.fingerprint == ""
  }

  /** The fast path skips exactly the fingerprints whose report Central has accepted from this record. */
  lemma SkipIsSound(s: System, pid: nat, o: Outcome)
    requires Inv(s) && pid in s.procs && s.procs[pid].at.Fetching? && o.Fetched? && !Nothing(o)
    ensures var mem := s.procs[pid].mem;
      Step(s, pid, o).procs[pid].at.Releasing? <==> mem.applied == mem.reported && Wants(o, mem.applied)
    ensures Step(s, pid, o).procs[pid].at.Releasing? ==> Accepted(s, s.procs[pid].mem.applied)
  {
    assert GoodProc(s, pid);
  }

  // ---------------------------------------------------------------- the lock file

  /** Only the process that created the lock file removes it, on leaving the locked region. */
  lemma OnlyCreatorReleases(s: System, e: Event)
    requires Inv(s) && s.lock.Some? && Happens(s, e).lock != s.lock
    ensures e == Move(s.lock.value, Ok) && Happens(s, e).lock == None
    ensures s.lock.value in s.procs && s.procs[s.lock.value].at.Releasing?
  {
    match e
    case Move(pid, o) =>
      assert GoodProc(s, pid);
      StepFrame(s, pid, o);
    case _ =>
  }

  /** The creator has crashed, or left without managing to remove the file. */
  predicate Stale(s: System) {
    && s.lock.Some? && s.lock.value < s.next
    && (s.lock.value in s.procs ==> s.procs[s.lock.value].at.Outside?)
  }

  lemma StaleStep(s: System, e: Event)
    requires Inv(s) && Stale(s)
    ensures Stale(Happens(s, e)) && Happens(s, e).lock == s.lock
  {
    if Happens(s, e).lock != s.lock {
      OnlyCreatorReleases(s, e);
    }
    if e.Move? && e.pid in s.procs {
      StepFrame(s, e.pid, e.outcome);
    }
  }

  /** A stale lock is never broken: no process gets into the locked region again. */
  lemma {:induction false} StaleForever(s: System, es: seq<Event>)
    requires Inv(s) && Stale(s)
    ensures var t := Exec(s, es);
      Stale(t) && t.lock == s.lock && t.sent == s.sent && t.file == s.file
      && forall p :: p in t.procs ==> t.procs[p].at.Outside?
    decreases |es|
  {
    forall p | p in s.procs ensures s.procs[p].at.Outside? {
      assert GoodProc(s, p);
    }
    if es != [] {
      StaleStep(s, es[0]);
      EventInv(s, es[0]);
      StaleForever(Happens(s, es[0]), es[1..]);
    }
  }

  // ---------------------------------------------------------------- quiescence

  predicate FinalSave(at: Place) {
    Writing(at) && at.final
  }

  /** The process has `f` applied and reported, and is not on its way to a report. */
  predicate Quiet(s: System, pid: nat, f: string) {
    pid in s.procs ==> (
      var Proc(mem, at) := s.procs[pid];
      mem.applied == f && mem.reported == f && (at.Outside? || at.Fetching? || at.Releasing? || FinalSave(at)))
  }

  /** What the process fetches, if anything, is `f` again. */
  predicate StaysDesired(e: Event, pid: nat, f: string) {
    e.Move? && e.pid == pid && e.outcome.Fetched? ==> Nothing(e.outcome) || Wants(e.outcome, f)
  }

  predicate NoReportBy(s: System, t: System, pid: nat) {
    s.sent <= t.sent && forall i :: |s.sent| <= i < |t.sent| ==> t.sent[i].pid != pid
  }

  lemma QuietOwn(s: System, pid: nat, f: string, o: Outcome)
    requires f != "" && pid in s.procs && Quiet(s, pid, f) && StaysDesired(Move(pid, o), pid, f)
    ensures Quiet(Step(s, pid, o), pid, f) && Step(s, pid, o).sent == s.sent
  {
    var Proc(mem, at) := s.procs[pid];
    if Writing(at) {
      QuietWrite(s, pid, mem, at, o);
    }
  }

  lemma QuietWrite(s: System, pid: nat, mem: Record, at: Place, o: Outcome)
    requires FinalSave(at)
    ensures var t := Write(s, pid, mem, at, o);
      t.sent == s.sent && t.procs[pid].mem == mem && (t.procs[pid].at.Releasing? || FinalSave(t.procs[pid].at))
  {
  }

  lemma SentByMover(s: System, pid: nat, o: Outcome)
    requires pid in s.procs
    ensures var t := Step(s, pid, o); t.sent == s.sent || (|t.sent| == |s.sent| + 1 && t.sent[|s.sent|].pid == pid)
  {
    var Proc(mem, at) := s.procs[pid];
    if Writing(at) {
      WriteFrame(s, pid, mem, at, o);
    }
  }

  lemma QuietStep(s: System, e: Event, pid: nat, f: string)
    requires f != "" && pid < s.next && Quiet(s, pid, f) && StaysDesired(e, pid, f)
    ensures pid < Happens(s, e).next && Quiet(Happens(s, e), pid, f) && NoReportBy(s, Happens(s, e), pid)
  {
    if e.Move? && e.pid in s.procs {
      StepFrame(s, e.pid, e.outcome);
      if e.pid == pid {
        QuietOwn(s, pid, f, e.outcome);
      } else {
        SentByMover(s, e.pid, e.outcome);
      }
    }
  }

  /** From then on, whatever the other processes do and whatever fails, the process reports nothing while what
      it fetches stays the same. */
  lemma {:induction false} StaysQuiet(s: System, es: seq<Event>, pid: nat, f: string)
    requires f != "" && pid < s.next && Quiet(s, pid, f) && forall e :: e in es ==> StaysDesired(e, pid, f)
    ensures Quiet(Exec(s, es), pid, f) && NoReportBy(s, Exec(s, es), pid)
    decreases |es|
  {
    if es != [] {
      QuietStep(s, es[0], pid, f);
      StaysQuiet(Happens(s, es[0]), es[1..], pid, f);
    }
  }

  /** An acknowledged report of `f` is the last of its process while the desired fingerprint stays `f`, also
      when the save that follows it fails. */
  lemma AcknowledgedThenQuiet(s: System, pid: nat, es: seq<Event>)
    requires Inv(s) && pid in s.procs && s.procs[pid].at.Posting? && s.procs[pid].mem.applied != ""
    requires forall e :: e in es ==> StaysDesired(e, pid, s.procs[pid].mem.applied)
    ensures var told := Step(s, pid, Acked); NoReportBy(told, Exec(told, es), pid)
  {
    assert GoodProc(s, pid);
    StaysQuiet(Step(s, pid, Acked), es, pid, s.procs[pid].mem.applied);
  }

  // ---------------------------------------------------------------- progress

  function Remaining(at: Place): nat {
    match at
    case Outside => 0
    case Releasing => 1
    case Dropping(final, _, _) => if final then 2 else 8
    case Renaming(final, _) => if final then 3 else 9
    case Sealing(final, _) => if final then 4 else 10
    case Encoding(final, _) => if final then 5 else 11
    case Creating(final) => if final then 6 else 12
    case Posting => 7
    case Staging => 13
    case Fetching => 14
  }

  /** The answer that is not a failure. */
  function Good(at: Place, fetched: Outcome, temp: nat): Outcome {
    if at.Fetching? then fetched else if at.Creating? then Named(temp) else if at.Posting? then Acked else Ok
  }

  lemma PlacesAdvance(s: System, pid: nat, o: Outcome)
    requires pid in s.procs && Inside(s.procs[pid].at)
    ensures pid in Step(s, pid, o).procs && Remaining(Step(s, pid, o).procs[pid].at) < Remaining(s.procs[pid].at)
  {
    var Proc(mem, at) := s.procs[pid];
    if Writing(at) {
      WritesAdvance(s, pid, mem, at, o);
    }
  }

  lemma WritesAdvance(s: System, pid: nat, mem: Record, at: Place, o: Outcome)
    requires Writing(at)
    ensures var t := Write(s, pid, mem, at, o); pid in t.procs && Remaining(t.procs[pid].at) < Remaining(at)
  {
  }

  /** The rest of a call in which nothing fails. */
  function Finish(s: System, pid: nat, fetched: Outcome, temp: nat): System
    requires pid in s.procs
    decreases Remaining(s.procs[pid].at)
  {
    if s.procs[pid].at.Outside? then s
    else
      var o := Good(s.procs[pid].at, fetched, temp);
      PlacesAdvance(s, pid, o);
      Finish(Step(s, pid, o), pid, fetched, temp)
  }

  lemma OneStep(s: System, pid: nat, fetched: Outcome, temp: nat, t: System)
    requires pid in s.procs && Inside(s.procs[pid].at) && t == Step(s, pid, Good(s.procs[pid].at, fetched, temp))
    ensures pid in t.procs && Finish(s, pid, fetched, temp) == Finish(t, pid, fetched, temp)
  {
    PlacesAdvance(s, pid, Good(s.procs[pid].at, fetched, temp));
  }

  lemma FillSteps(s: System, pid: nat, fetched: Outcome, temp: nat, mem: Record, final: bool)
    requires pid in s.procs && s.procs[pid] == Proc(mem, Creating(final)) && temp !in s.temps
    ensures var t := At(s.(temps := s.temps[temp := Whole(mem)]), pid, mem, Renaming(final, temp));
      Finish(s, pid, fetched, temp) == Finish(t, pid, fetched, temp)
  {
    var a := At(s.(temps := s.temps[temp := Partial]), pid, mem, Encoding(final, temp));
    OneStep(s, pid, fetched, temp, a);
    var b := At(s.(temps := s.temps[temp := Whole(mem)]), pid, mem, Sealing(final, temp));
    assert a.temps[temp := Whole(mem)] == b.temps && a.procs[pid := Proc(mem, Sealing(final, temp))] == b.procs;
    OneStep(a, pid, fetched, temp, b);
    var c := At(s.(temps := b.temps), pid, mem, Renaming(final, temp));
    assert b.procs[pid := Proc(mem, Renaming(final, temp))] == c.procs;
    OneStep(b, pid, fetched, temp, c);
  }

  lemma RenameSteps(s: System, pid: nat, fetched: Outcome, temp: nat, mem: Record, final: bool, temps: map<nat, Content>)
    requires pid in s.procs && s.procs[pid] == Proc(mem, Renaming(final, temp))
    requires temp !in temps && s.temps == temps[temp := Whole(mem)]
    ensures var t := At(s.(file := Some(Whole(mem)), temps := temps), pid, mem, AfterWrite(final, true));
      Finish(s, pid, fetched, temp) == Finish(t, pid, fetched, temp)
  {
    var a := At(s.(file := Some(Whole(mem)), temps := temps), pid, mem, Dropping(final, temp, true));
    assert s.temps - {temp} == temps;
    OneStep(s, pid, fetched, temp, a);
    var b := At(s.(file := Some(Whole(mem)), temps := temps), pid, mem, AfterWrite(final, true));
    assert a.temps - {temp} == temps && a.procs[pid := Proc(mem, AfterWrite(final, true))] == b.procs;
    OneStep(a, pid, fetched, temp, b);
  }

  /** A save in which nothing fails replaces the file by the whole record. */
  lemma SaveSteps(s: System, pid: nat, fetched: Outcome, temp: nat, mem: Record, final: bool)
    requires pid in s.procs && s.procs[pid] == Proc(mem, Creating(final)) && temp !in s.temps
    ensures var t := At(s.(file := Some(Whole(mem))), pid, mem, AfterWrite(final, true));
      Finish(s, pid, fetched, temp) == Finish(t, pid, fetched, temp)
  {
    FillSteps(s, pid, fetched, temp, mem, final);
    var a := At(s.(temps := s.temps[temp := Whole(mem)]), pid, mem, Renaming(final, temp));
    RenameSteps(a, pid, fetched, temp, mem, final, s.temps);
    var b := At(s.(file := Some(Whole(mem))), pid, mem, AfterWrite(final, true));
    assert a.procs[pid := b.procs[pid]] == b.procs;
  }

  /** From the first save to the end of the call. */
  lemma SaveReportSave(s: System, pid: nat, fetched: Outcome, temp: nat, f: string, last: string)
    requires pid in s.procs && s.procs[pid] == Proc(Record(f, f, last), Creating(false)) && temp !in s.temps
    ensures var done := Record(f, f, f);
      Finish(s, pid, fetched, temp)
      == At(s.(file := Some(Whole(done)), sent := s.sent + [Report(pid, f, f, last, true)], lock := None), pid, done, Outside)
  {
    var first, done := Record(f, f, last), Record(f, f, f);
    SaveSteps(s, pid, fetched, temp, first, false);
    var a := At(s.(file := Some(Whole(first))), pid, first, Posting);
    var sent := s.sent + [Report(pid, f, f, last, true)];
    var b := At(s.(file := Some(Whole(first)), sent := sent), pid, done, Creating(true));
    assert a.procs[pid := Proc(done, Creating(true))] == b.procs;
    OneStep(a, pid, fetched, temp, b);
    SaveSteps(b, pid, fetched, temp, done, true);
    var c := At(s.(file := Some(Whole(done)), sent := sent), pid, done, Releasing);
    assert b.procs[pid := Proc(done, Releasing)] == c.procs;
    ReleaseStep(c, pid, fetched, temp, done);
    assert c.procs[pid := Proc(done, Outside)] == s.procs[pid := Proc(done, Outside)];
  }

  lemma ReleaseStep(s: System, pid: nat, fetched: Outcome, temp: nat, mem: Record)
    requires pid in s.procs && s.procs[pid] == Proc(mem, Releasing)
    ensures Finish(s, pid, fetched, temp) == At(s.(lock := None), pid, mem, Outside)
  {
    OneStep(s, pid, fetched, temp, At(s.(lock := None), pid, mem, Outside));
  }

  /** What a call in which nothing fails leaves, on a free lock and for a non-empty desired fingerprint. */
  function Reconciled(s: System, pid: nat, f: string): System
    requires pid in s.procs
  {
    var mem := s.procs[pid].mem;
    if mem.applied == f && mem.reported == f then At(s, pid, Record(f, f, f), Outside)
    else At(s.(file := Some(Whole(Record(f, f, f))), sent := s.sent + [Report(pid, f, f, mem.reported, true)]), pid, Record(f, f, f), Outside)
  }

  /** From any record at all, one call in which nothing fails ends with desired, applied and reported equal to
      the fingerprint, the lock free again, and a report and a save made unless both were done before. */
  lemma CallConverges(s: System, pid: nat, fetched: Outcome, temp: nat, f: string)
    requires pid in s.procs && s.procs[pid].at.Outside? && s.lock.None? && temp !in s.temps
    requires Wants(fetched, f)
    ensures Inside(Step(s, pid, Ok).procs[pid].at)
    ensures Finish(Step(s, pid, Ok), pid, fetched, temp) == Reconciled(s, pid, f)
    ensures Reconciled(s, pid, f).procs[pid].mem == Record(f, f, f)
  {
    var mem := s.procs[pid].mem;
    var locked := At(s.(lock := Some(pid)), pid, mem, Fetching);
    var wanted := mem.(desired := f);
    if Converged(wanted, f) {
      var a := At(s.(lock := Some(pid)), pid, wanted, Releasing);
      assert locked.procs[pid := Proc(wanted, Releasing)] == a.procs;
      OneStep(locked, pid, fetched, temp, a);
      ReleaseStep(a, pid, fetched, temp, wanted);
      assert a.procs[pid := Proc(wanted, Outside)] == s.procs[pid := Proc(wanted, Outside)];
    } else {
      StagingSteps(s, pid, fetched, temp, mem, f);
    }
  }

  lemma StagingSteps(s: System, pid: nat, fetched: Outcome, temp: nat, mem: Record, f: string)
    requires pid in s.procs && s.lock.None? && temp !in s.temps
    requires fetched.Fetched? && Desired(fetched) == f != "" && !Converged(mem, f)
    ensures var done := Record(f, f, f);
      Finish(At(s.(lock := Some(pid)), pid, mem, Fetching), pid, fetched, temp)
      == At(s.(file := Some(Whole(done)), sent := s.sent + [Report(pid, f, f, mem.reported, true)]), pid, done, Outside)
  {
    var locked := At(s.(lock := Some(pid)), pid, mem, Fetching);
    var a := At(s.(lock := Some(pid)), pid, mem.(desired := f), Staging);
    assert locked.procs[pid := a.procs[pid]] == a.procs;
    OneStep(locked, pid, fetched, temp, a);
    var b := At(s.(lock := Some(pid)), pid, Record(f, f, mem.reported), Creating(false));
    assert a.procs[pid := b.procs[pid]] == b.procs;
    OneStep(a, pid, fetched, temp, b);
    SaveReportSave(b, pid, fetched, temp, f, mem.reported);
    var done := Record(f, f, f);
    assert b.procs[pid := Proc(done, Outside)] == s.procs[pid := Proc(done, Outside)];
  }

  /** A manifest with neither payload nor fingerprint is nothing to do: the call ends with everything as it was. */
  lemma NothingToDo(s: System, pid: nat, fetched: Outcome, temp: nat)
    requires pid in s.procs && s.procs[pid].at.Outside? && s.lock.None? && Nothing(fetched)
    ensures Inside(Step(s, pid, Ok).procs[pid].at) && Finish(Step(s, pid, Ok), pid, fetched, temp) == s
  {
    var mem := s.procs[pid].mem;
    var locked := At(s.(lock := Some(pid)), pid, mem, Fetching);
    var a := At(s.(lock := Some(pid)), pid, mem, Releasing);
    assert locked.procs[pid := Proc(mem, Releasing)] == a.procs;
    OneStep(locked, pid, fetched, temp, a);
    ReleaseStep(a, pid, fetched, temp, mem);
    assert a.procs[pid := Proc(mem, Outside)] == s.procs;
  }
}
