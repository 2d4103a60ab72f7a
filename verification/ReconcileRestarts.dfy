/** What a process knows when it starts, and that a converged directory stays silent across restarts. */
module ReconcileRestarts {
  import opened Text
  import opened Reconcile
  import opened ReconcileFacts

  /** A process that starts and can read a whole file has that very record; any other starts with three empty
      fingerprints. */
  lemma BootKnows(s: System, readable: bool)
    ensures var t := Happens(s, Boot(readable));
      && s.next in t.procs && t.procs[s.next].at.Outside?
      && (forall r :: readable && s.file == Some(Whole(r)) ==> t.procs[s.next].mem == r)
      && (!readable || s.file.None? || s.file.value.Partial? ==> t.procs[s.next].mem == Record("", "", ""))
  {
  }

  /** The file is whole and has `f` applied and reported. */
  predicate HasReported(file: Option<Content>, f: string) {
    file.Some? && file.value.Whole? && file.value.record.applied == f && file.value.record.reported == f
  }

  /** The file has `f` applied and reported, and so has every process, except those set aside. */
  predicate Resting(s: System, f: string, aside: set<nat>) {
    && HasReported(s.file, f)
    && (forall pid :: pid in aside ==> pid < s.next)
    && (forall pid :: pid in s.procs && pid !in aside ==> Quiet(s, pid, f))
  }

  /** Processes set aside do nothing more, fetches bring `f` or nothing, and starting processes can read the file. */
  predicate Undemanding(e: Event, f: string, aside: set<nat>) {
    match e
    case Boot(readable) => readable
    case Crash(_) => true
    case Move(pid, _) => pid !in aside && StaysDesired(e, pid, f)
  }

  /** The file stays, or becomes what the moving process has in memory. */
  lemma FileStays(s: System, pid: nat, o: Outcome)
    requires Inv(s) && pid in s.procs
    ensures var t := Step(s, pid, o); t.file == s.file || t.file == Some(Whole(s.procs[pid].mem))
  {
    assert GoodProc(s, pid);
    var Proc(mem, at) := s.procs[pid];
    if Writing(at) {
      WriteFile(s, pid, mem, at, o);
    }
  }

  lemma MoveRests(s: System, pid: nat, o: Outcome, f: string, aside: set<nat>)
    requires f != "" && Inv(s) && Resting(s, f, aside) && pid in s.procs && Undemanding(Move(pid, o), f, aside)
    ensures Resting(Step(s, pid, o), f, aside) && Step(s, pid, o).sent == s.sent
  {
    var t := Step(s, pid, o);
    assert Quiet(s, pid, f);
    StepFrame(s, pid, o);
    QuietOwn(s, pid, f, o);
    FileStays(s, pid, o);
    forall q | q in t.procs && q !in aside ensures Quiet(t, q, f) {
      assert Quiet(s, q, f);
    }
  }

  lemma BootRests(s: System, f: string, aside: set<nat>)
    requires Resting(s, f, aside)
    ensures Resting(Happens(s, Boot(true)), f, aside)
  {
    var t := Happens(s, Boot(true));
    BootKnows(s, true);
    forall q | q in t.procs && q !in aside ensures Quiet(t, q, f) {
      assert q in s.procs && q != s.next ==> Quiet(s, q, f);
    }
  }

  lemma CrashRests(s: System, pid: nat, f: string, aside: set<nat>)
    requires Resting(s, f, aside)
    ensures Resting(Happens(s, Crash(pid)), f, aside)
  {
    var t := Happens(s, Crash(pid));
    forall q | q in t.procs && q !in aside ensures Quiet(t, q, f) {
      assert Quiet(s, q, f);
    }
  }

  /** Once the file has `f` applied and reported, nothing more is reported while what is fetched stays `f`, in any
      interleaving of the processes that have it too and of all those started from the file since. */
  lemma {:induction false} RestartsStaySilent(s: System, es: seq<Event>, f: string, aside: set<nat>)
    requires f != "" && Inv(s) && Resting(s, f, aside) && forall e :: e in es ==> Undemanding(e, f, aside)
    ensures Resting(Exec(s, es), f, aside) && Exec(s, es).sent == s.sent
    decreases |es|
  {
    if es != [] {
      var e := es[0];
      assert e in es && Undemanding(e, f, aside);
      EventInv(s, e);
      match e {
        case Boot(_) => BootRests(s, f, aside);
        case Crash(pid) => CrashRests(s, pid, f, aside);
        case Move(pid, o) => if pid in s.procs { MoveRests(s, pid, o, f, aside); }
      }
      RestartsStaySilent(Happens(s, e), es[1..], f, aside);
    }
  }

  lemma ReconciledRests(s: System, pid: nat, f: string)
    requires pid in s.procs && !(s.procs[pid].mem.applied == f && s.procs[pid].mem.reported == f) && pid < s.next
    requires forall q :: q in s.procs ==> q < s.next
    ensures Resting(Reconciled(s, pid, f), f, s.procs.Keys - {pid})
  {
    var t := Reconciled(s, pid, f);
    assert t.file == Some(Whole(Record(f, f, f)));
  }

  /** A call in which nothing fails and which reports `f` is the last to report anything: whatever crashes, starts
      again and reconciles afterwards, with `f` still desired. The other processes of before are set aside. */
  lemma ReportedOnceForAll(s: System, pid: nat, fetched: Outcome, temp: nat, f: string, es: seq<Event>)
    requires Inv(s) && pid in s.procs && s.procs[pid].at.Outside? && s.lock.None? && temp !in s.temps && Wants(fetched, f)
    requires !(s.procs[pid].mem.applied == f && s.procs[pid].mem.reported == f)
    requires forall e :: e in es ==> Undemanding(e, f, s.procs.Keys - {pid})
    ensures var t := Finish(Step(s, pid, Ok), pid, fetched, temp);
      && |t.sent| == |s.sent| + 1 && t.sent[|s.sent|].applied == f && t.sent[|s.sent|].received
      && Exec(t, es).sent == t.sent
  {
    CallConverges(s, pid, fetched, temp, f);
    forall q | q in s.procs ensures q < s.next {
      assert GoodProc(s, q);
    }
    ReconciledRests(s, pid, f);
    StepInv(s, pid, Ok);
    FinishInv(Step(s, pid, Ok), pid, fetched, temp);
    RestartsStaySilent(Reconciled(s, pid, f), es, f, s.procs.Keys - {pid});
  }

  lemma {:induction false} FinishInv(s: System, pid: nat, fetched: Outcome, temp: nat)
    requires Inv(s) && pid in s.procs
    ensures Inv(Finish(s, pid, fetched, temp))
    decreases Remaining(s.procs[pid].at)
  {
    if Inside(s.procs[pid].at) {
      var o := Good(s.procs[pid].at, fetched, temp);
      PlacesAdvance(s, pid, o);
      StepInv(s, pid, o);
      FinishInv(Step(s, pid, o), pid, fetched, temp);
    }
  }
}
