/** Fingerprint reconcile as small steps of any number of processes over one state directory and Central. */
module Reconcile {
  import opened Text

  // ---------------------------------------------------------------- state

  /** The fingerprints of a convergence record. */
  datatype Record = Record(desired: string, applied: string, reported: string)

  /** What a state file holds. */
  datatype Content = Whole(record: Record) | Partial

  /** Where a process is: outside, or inside the locked region. `final` tells the save after the report
      from the save before it. */
  datatype Place =
    | Outside | Fetching | Staging
    | Creating(final: bool) | Encoding(final: bool, temp: nat) | Sealing(final: bool, temp: nat)
    | Renaming(final: bool, temp: nat) | Dropping(final: bool, temp: nat, written: bool)
    | Posting | Releasing

  datatype Proc = Proc(mem: Record, at: Place)

  /** A report as sent, and whether Central received it. */
  datatype Report = Report(pid: nat, desired: string, applied: string, last: string, received: bool)

  /** `lock` names the creator of the lock file; `next` is the first process id never used. */
  datatype System = System(
    procs: map<nat, Proc>, next: nat, lock: Option<nat>,
    file: Option<Content>, temps: map<nat, Content>, sent: seq<Report>)

  // ---------------------------------------------------------------- steps

  datatype Outcome =
    | Ok | Fails
    | Fetched(payload: Option<string>, fingerprint: string)
    | Named(temp: nat)
    | Acked | ReplyLost | RequestLost

  datatype Event = Boot(readable: bool) | Crash(pid: nat) | Move(pid: nat, outcome: Outcome)

  const Fresh := Record("", "", "")

  /** `loadConvergence`: an absent, unreadable or malformed file is a fresh record. */
  function Load(file: Option<Content>, readable: bool): Record {
    if readable && file.Some? && file.value.Whole? then file.value.record else Fresh
  }

  /** The fingerprint in the payload, for a manifest whose header gives none. */
  function FingerprintFromPayload(payload: Option<string>): string {
    if payload.Some? then payload.value else ""
  }

  function Desired(o: Outcome): string
    requires o.Fetched?
  {
    if o.fingerprint == "" then FingerprintFromPayload(o.payload) else o.fingerprint
  }

  predicate NoManifest(o: Outcome) {
    o.Fetched? && o.payload.None? && o.fingerprint == ""
  }

  /** Nothing left to do for this fingerprint. */
  predicate Converged(mem: Record, f: string) {
    f != "" && mem.applied == f && mem.reported == f
  }

  function At(s: System, pid: nat, mem: Record, at: Place): System {
    s.(procs := s.procs[pid := Proc(mem, at)])
  }

  /** The fetch and what it leads to. */
  function Fetch(s: System, pid: nat, mem: Record, o: Outcome): System {
    if !o.Fetched? || NoManifest(o) then At(s, pid, mem, Releasing)
    else
      var mem' := mem.(desired := Desired(o));
      At(s, pid, mem', if Converged(mem', Desired(o)) then Releasing else Staging)
  }

  function AfterWrite(final: bool, written: bool): Place {
    if written && !final then Posting else Releasing
  }

  /** `WriteJSONAtomic`, one call at a time. */
  function Write(s: System, pid: nat, mem: Record, at: Place, o: Outcome): System
    requires Writing(at)
  {
    match at
    case Creating(final) =>
      if o.Named? && o.temp !in s.temps
      then At(s.(temps := s.temps[o.temp := Partial]), pid, mem, Encoding(final, o.temp))
      else At(s, pid, mem, Releasing)
    case Encoding(final, t) =>
      if o.Ok? then At(s.(temps := s.temps[t := Whole(mem)]), pid, mem, Sealing(final, t))
      else At(s, pid, mem, Dropping(final, t, false))
    case Sealing(final, t) => At(s, pid, mem, if o.Ok? then Renaming(final, t) else Dropping(final, t, false))
    case Renaming(final, t) =>
      if o.Ok? && t in s.temps
      then At(s.(file := Some(s.temps[t]), temps := s.temps - {t}), pid, mem, Dropping(final, t, true))
      else At(s, pid, mem, Dropping(final, t, false))
    case Dropping(final, t, written) =>
      At(if o.Ok? then s.(temps := s.temps - {t}) else s, pid, mem, AfterWrite(final, written))
  }

  function Post(s: System, pid: nat, mem: Record, o: Outcome): System {
    var s' := s.(sent := s.sent + [Report(pid, mem.desired, mem.applied, mem.reported, o.Acked? || o.ReplyLost?)]);
    if o.Acked? then At(s', pid, mem.(reported := mem.applied), Creating(true)) else At(s', pid, mem, Releasing)
  }

  /** One step of a process. */
  function Step(s: System, pid: nat, o: Outcome): System
    requires pid in s.procs
  {
    var Proc(mem, at) := s.procs[pid];
    match at
    case Outside => if o.Ok? && s.lock.None? then At(s.(lock := Some(pid)), pid, mem, Fetching) else s
    case Fetching => Fetch(s, pid, mem, o)
    case Staging => if o.Ok? then At(s, pid, mem.(applied := mem.desired), Creating(false)) else At(s, pid, mem, Releasing)
    case Posting => Post(s, pid, mem, o)
    case Releasing => At(if o.Ok? then s.(lock := None) else s, pid, mem, Outside)
    case _ => Write(s, pid, mem, at, o)
  }

  function Happens(s: System, e: Event): System {
    match e
    case Boot(readable) => s.(procs := s.procs[s.next := Proc(Load(s.file, readable), Outside)], next := s.next + 1)
    case Crash(pid) => s.(procs := s.procs - {pid})
    case Move(pid, o) => if pid in s.procs then Step(s, pid, o) else s
  }

  function Exec(s: System, es: seq<Event>): System
    decreases |es|
  {
    if es == [] then s else Exec(Happens(s, es[0]), es[1..])
  }

  // ---------------------------------------------------------------- the invariant

  /** Central accepted a report with this applied fingerprint. */
  predicate Accepted(s: System, f: string) {
    exists i :: 0 <= i < |s.sent| && s.sent[i].received && s.sent[i].applied == f
  }

  /** The record claims no report that Central did not accept. */
  predicate Earned(s: System, r: Record) {
    r.reported != "" ==> Accepted(s, r.reported)
  }

  predicate Settled(r: Record) {
    r.desired == r.applied
  }

  /** A complete written value, with desired equal to applied and an earned report. */
  predicate GoodContent(s: System, c: Content) {
    c.Whole? && Settled(c.record) && Earned(s, c.record)
  }

  predicate Inside(at: Place) {
    !at.Outside?
  }

  /** The steps between setting applied and leaving. */
  predicate Saving(at: Place) {
    Writing(at) || at.Posting?
  }

  predicate Writing(at: Place) {
    at.Creating? || at.Encoding? || at.Sealing? || at.Renaming? || at.Dropping?
  }

  predicate GoodProc(s: System, pid: nat)
    requires pid in s.procs
  {
    var Proc(mem, at) := s.procs[pid];
    && pid < s.next && Earned(s, mem)
    && (Inside(at) ==> s.lock == Some(pid))
    && (Saving(at) ==> Settled(mem))
    && (at.Encoding? ==> at.temp in s.temps)
    && (at.Sealing? || at.Renaming? ==> at.temp in s.temps && s.temps[at.temp] == Whole(mem))
  }

  predicate Inv(s: System) {
    && (forall pid :: pid in s.procs ==> GoodProc(s, pid))
    && (s.file.Some? ==> GoodContent(s, s.file.value))
    && (s.lock.Some? ==> s.lock.value < s.next)
  }

  lemma EarnedGrows(s: System, s': System, r: Record)
    requires Earned(s, r) && s.sent <= s'.sent
    ensures Earned(s', r)
  {
    if r.reported != "" {
      var i :| 0 <= i < |s.sent| && s.sent[i].received && s.sent[i].applied == r.reported;
      assert s'.sent[i] == s.sent[i];
    }
  }

  /** A step outside the locked region at most takes the free lock. */
  predicate TakesLock(s: System, s': System, pid: nat)
    requires pid in s.procs
  {
    && (s' == s || (s.lock.None? && s' == At(s.(lock := Some(pid)), pid, s.procs[pid].mem, Fetching)))
  }

  /** An own step reaches another process only through the lock, and that process is then outside. */
  lemma OthersGood(s: System, s': System, pid: nat, q: nat)
    requires Inv(s) && pid in s.procs && q in s.procs && q != pid && q in s'.procs && s'.procs[q] == s.procs[q]
    requires s.sent <= s'.sent && s.next <= s'.next
    requires s.lock == Some(pid) || TakesLock(s, s', pid)
    ensures GoodProc(s', q)
  {
    EarnedGrows(s, s', s.procs[q].mem);
    assert GoodProc(s, q);
  }

  /** What a step leaves alone, or only extends. */
  predicate Framed(s: System, s': System, pid: nat) {
    && s'.procs.Keys == s.procs.Keys && s.sent <= s'.sent && s.next == s'.next
    && (forall q :: q in s.procs && q != pid ==> s'.procs[q] == s.procs[q])
    && (s'.lock.Some? ==> s'.lock == s.lock || s'.lock == Some(pid))
  }

  lemma WriteFrame(s: System, pid: nat, mem: Record, at: Place, o: Outcome)
    requires pid in s.procs && Writing(at)
    ensures Framed(s, Write(s, pid, mem, at, o), pid) && Write(s, pid, mem, at, o).sent == s.sent
  {
  }

  lemma StepFrame(s: System, pid: nat, o: Outcome)
    requires pid in s.procs
    ensures Framed(s, Step(s, pid, o), pid)
    ensures s.procs[pid].at.Outside? ==> TakesLock(s, Step(s, pid, o), pid)
  {
    var Proc(mem, at) := s.procs[pid];
    if Writing(at) {
      WriteFrame(s, pid, mem, at, o);
    }
  }

  lemma WriteOwn(s: System, pid: nat, mem: Record, at: Place, o: Outcome)
    requires Inv(s) && pid in s.procs && s.procs[pid] == Proc(mem, at) && Writing(at)
    ensures GoodProc(Write(s, pid, mem, at, o), pid)
  {
    assert GoodProc(s, pid);
    EarnedGrows(s, Write(s, pid, mem, at, o), mem);
  }

  lemma PostOwn(s: System, pid: nat, mem: Record, o: Outcome)
    requires Inv(s) && pid in s.procs && s.procs[pid] == Proc(mem, Posting)
    ensures GoodProc(Post(s, pid, mem, o), pid)
  {
    assert GoodProc(s, pid);
    var s' := Post(s, pid, mem, o);
    if o.Acked? {
      assert s'.sent[|s.sent|].received && s'.sent[|s.sent|].applied == mem.applied;
    } else {
      EarnedGrows(s, s', mem);
    }
  }

  lemma StepOwn(s: System, pid: nat, o: Outcome)
    requires Inv(s) && pid in s.procs
    ensures pid in Step(s, pid, o).procs && GoodProc(Step(s, pid, o), pid)
  {
    assert GoodProc(s, pid);
    var Proc(mem, at) := s.procs[pid];
    if Writing(at) {
      WriteOwn(s, pid, mem, at, o);
    } else if at.Posting? {
      PostOwn(s, pid, mem, o);
    }
  }

  lemma WriteFile(s: System, pid: nat, mem: Record, at: Place, o: Outcome)
    requires Inv(s) && pid in s.procs && s.procs[pid] == Proc(mem, at) && Writing(at)
    ensures var s' := Write(s, pid, mem, at, o); s'.file == s.file || (s'.file == Some(Whole(mem)) && Settled(mem))
  {
    assert GoodProc(s, pid);
  }

  lemma StepFile(s: System, pid: nat, o: Outcome)
    requires Inv(s) && pid in s.procs
    ensures var s' := Step(s, pid, o); s'.file.Some? ==> GoodContent(s', s'.file.value)
  {
    assert GoodProc(s, pid);
    var s' := Step(s, pid, o);
    var Proc(mem, at) := s.procs[pid];
    StepFrame(s, pid, o);
    if Writing(at) {
      WriteFile(s, pid, mem, at, o);
      EarnedGrows(s, s', mem);
    }
    if s.file.Some? {
      EarnedGrows(s, s', s.file.value.record);
    }
  }

  lemma StepInv(s: System, pid: nat, o: Outcome)
    requires Inv(s) && pid in s.procs
    ensures Inv(Step(s, pid, o))
  {
    var s' := Step(s, pid, o);
    assert GoodProc(s, pid);
    StepFrame(s, pid, o);
    forall q | q in s'.procs ensures GoodProc(s', q) {
      if q == pid {
        StepOwn(s, pid, o);
      } else {
        OthersGood(s, s', pid, q);
      }
    }
    StepFile(s, pid, o);
  }

  lemma BootInv(s: System, readable: bool)
    requires Inv(s)
    ensures Inv(Happens(s, Boot(readable)))
  {
    var s' := Happens(s, Boot(readable));
    forall q | q in s'.procs ensures GoodProc(s', q) {
      if q != s.next {
        assert GoodProc(s, q);
        EarnedGrows(s, s', s.procs[q].mem);
      } else if s.file.Some? {
        EarnedGrows(s, s', s.file.value.record);
      }
    }
    if s.file.Some? {
      EarnedGrows(s, s', s.file.value.record);
    }
  }

  lemma CrashInv(s: System, pid: nat)
    requires Inv(s)
    ensures Inv(Happens(s, Crash(pid)))
  {
    var s' := Happens(s, Crash(pid));
    forall q | q in s'.procs ensures GoodProc(s', q) {
      assert GoodProc(s, q);
      EarnedGrows(s, s', s.procs[q].mem);
    }
    if s.file.Some? {
      EarnedGrows(s, s', s.file.value.record);
    }
  }

  lemma EventInv(s: System, e: Event)
    requires Inv(s)
    ensures Inv(Happens(s, e))
  {
    match e
    case Boot(readable) => BootInv(s, readable);
    case Crash(pid) => CrashInv(s, pid);
    case Move(pid, o) => if pid in s.procs { StepInv(s, pid, o); }
  }

  lemma {:induction false} ExecInv(s: System, es: seq<Event>)
    requires Inv(s)
    ensures Inv(Exec(s, es))
    decreases |es|
  {
    if es != [] {
      EventInv(s, es[0]);
      ExecInv(Happens(s, es[0]), es[1..]);
    }
  }
}
