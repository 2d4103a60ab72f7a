/** `Runner.Reconcile` as a program over the shared state directory. Between any two of its calls other
    processes may do anything they can; `Valid` says the whole system is one the protocol reaches. */
module Runners {
  import opened Text
  import opened Reconcile
  import opened ReconcileFacts

  ghost predicate Reached(start: System, s: System) {
    Initial(start) && exists es :: Exec(start, es) == s
  }

  lemma {:induction false} ExecOneMore(s: System, es: seq<Event>, e: Event)
    ensures Exec(s, es + [e]) == Happens(Exec(s, es), e)
    decreases |es|
  {
    if es == [] {
      assert [] + [e] == [e];
    } else {
      assert (es + [e])[1..] == es[1..] + [e];
      ExecOneMore(Happens(s, es[0]), es[1..], e);
    }
  }

  lemma ReachedNext(start: System, s: System, e: Event)
    requires Reached(start, s)
    ensures Reached(start, Happens(s, e))
  {
    var es :| Exec(start, es) == s;
    ExecOneMore(start, es, e);
  }

  lemma ReachedInv(start: System, s: System)
    requires Reached(start, s)
    ensures Inv(s)
  {
    var es :| Exec(start, es) == s;
    ExecInv(start, es);
  }

  ghost function Reachable(start: System): iset<System> {
    iset s | Reached(start, s)
  }

  ghost predicate Closed(start: System, reachable: iset<System>) {
    && (forall s, e {:trigger Happens(s, e)} :: s in reachable ==> Happens(s, e) in reachable)
    && (forall s {:trigger Reached(start, s)} :: s in reachable ==> Reached(start, s))
  }

  lemma ReachableClosed(start: System)
    requires Initial(start)
    ensures Closed(start, Reachable(start)) && start in Reachable(start)
  {
    forall s, e | s in Reachable(start) ensures Happens(s, e) in Reachable(start) {
      ReachedNext(start, s, e);
    }
    assert Exec(start, []) == start;
  }

  // ---------------------------------------------------------------- interference

  predicate Concerns(e: Event, pid: nat) {
    (e.Crash? || e.Move?) && e.pid == pid
  }

  /** Others leave a process alone; and while it holds the lock, also the files and Central's record. */
  predicate Undisturbed(s: System, t: System, pid: nat) {
    && pid in s.procs && pid in t.procs && t.procs[pid] == s.procs[pid]
    && (Inside(s.procs[pid].at) ==> t.lock == s.lock && t.file == s.file && t.temps == s.temps && t.sent == s.sent)
  }

  lemma OtherStep(s: System, e: Event, pid: nat)
    requires Inv(s) && pid in s.procs && !Concerns(e, pid)
    ensures Undisturbed(s, Happens(s, e), pid)
  {
    assert GoodProc(s, pid);
    if e.Move? && e.pid in s.procs {
      assert GoodProc(s, e.pid);
      StepFrame(s, e.pid, e.outcome);
    }
  }

  method AnyEvents() returns (es: seq<Event>)
  {
    es := *;
  }

  method Oracle() returns (b: bool)
  {
    b := *;
  }

  method AnyFetch() returns (o: Outcome)
    ensures o.Fetched? || o.Fails?
  {
    var payload: Option<string> := *;
    var fingerprint: string := *;
    var ok := Oracle();
    o := if ok then Fetched(payload, fingerprint) else Fails;
  }

  method AnyName() returns (temp: nat)
  {
    temp := *;
  }

  // ---------------------------------------------------------------- the program

  /** The record a process keeps for its lifetime; `Reconcile` updates it in place. */
  class ConvergenceRecord {
    var desired: string
    var applied: string
    var reported: string

    constructor (r: Record)
      ensures Value() == r
    {
      desired, applied, reported := r.desired, r.applied, r.reported;
    }

    function Value(): Record
      reads this
    {
      Record(desired, applied, reported)
    }
  }

  datatype Verdict = Held | NoDesired | UpToDate | Reported | Failed

  class Runner {
    const pid: nat
    var sys: System
    ghost const start: System
    ghost const reachable: iset<System>

    ghost predicate Valid()
      reads this
    {
      sys in reachable && Closed(start, reachable)
    }

    /** The process is at a place, with the record in memory. */
    predicate Mine(conv: ConvergenceRecord, at: Place)
      reads this, conv
    {
      pid in sys.procs && sys.procs[pid] == Proc(conv.Value(), at)
    }

    constructor (sys: System, pid: nat, ghost start: System)
      requires Reached(start, sys) && pid in sys.procs
      ensures Valid() && this.sys == sys && this.pid == pid
    {
      this.sys := sys;
      this.pid := pid;
      this.start := start;
      this.reachable := Reachable(start);
      ReachableClosed(start);
    }

    lemma Sound()
      requires Valid()
      ensures Inv(sys)
    {
      assert Reached(start, sys);
      ReachedInv(start, sys);
    }

    /** Other processes boot, crash and take steps. */
    method Interfere()
      requires Valid() && pid in sys.procs
      modifies this`sys
      ensures Valid() && Undisturbed(old(sys), sys, pid)
    {
      var es := AnyEvents();
      for i := 0 to |es|
        invariant Valid() && Undisturbed(old(sys), sys, pid)
      {
        if !Concerns(es[i], pid) {
          Sound();
          OtherStep(sys, es[i], pid);
          assert Happens(sys, es[i]) in reachable;
          sys := Happens(sys, es[i]);
        }
      }
    }

    /** An own step, at a place of the locked region. */
    method Advance(o: Outcome)
      requires Valid() && pid in sys.procs && Inside(sys.procs[pid].at)
      modifies this`sys
      ensures Valid() && Agree(sys, Step(old(sys), pid, o), pid)
    {
      Interfere();
      SameStep(old(sys), sys, pid, o);
      assert Happens(sys, Move(pid, o)) in reachable;
      sys := Step(sys, pid, o);
    }

    // -------------------------------------------------------------- the lock

    /** `ExclusiveCreate`: at most one process at a time gets past it. */
    method ExclusiveCreate(conv: ConvergenceRecord) returns (created: bool, held: bool)
      requires Valid() && Mine(conv, Outside)
      modifies this`sys
      ensures Valid() && Mine(conv, if created then Fetching else Outside)
      ensures created ==> !held && sys.lock == Some(pid)
      ensures held ==> sys.lock.Some?
    {
      var ok := Oracle();
      Interfere();
      created := ok && sys.lock.None?;
      held := ok && sys.lock.Some?;
      if created {
        assert Happens(sys, Move(pid, Ok)) in reachable;
        sys := Step(sys, pid, Ok);
      }
    }

    /** `Release`: removing the file may fail, and then the lock stays held. */
    method Release(conv: ConvergenceRecord)
      requires Valid() && Mine(conv, Releasing)
      modifies this`sys
      ensures Valid() && Mine(conv, Outside) && sys.file == old(sys.file) && sys.sent == old(sys.sent)
      ensures sys.lock.None? || sys.lock == old(sys.lock)
    {
      var ok := Oracle();
      Advance(if ok then Ok else Fails);
    }

    // -------------------------------------------------------------- the state file

    /** `WriteJSONAtomic`: the whole record in place of the old file, or the old file untouched. */
    method WriteJSONAtomic(conv: ConvergenceRecord, final: bool) returns (ok: bool)
      requires Valid() && Mine(conv, Creating(final))
      modifies this`sys
      ensures Valid() && Mine(conv, AfterWrite(final, ok)) && sys.sent == old(sys.sent)
      ensures sys.file == if ok then Some(Whole(conv.Value())) else old(sys.file)
    {
      var made := Oracle();
      var temp := AnyName();
      if !made || temp in sys.temps {
        Advance(Fails);
        return false;
      }
      Advance(Named(temp));
      ok := FillAndRename(conv, final, temp);
      var removed := Oracle();
      Advance(if removed then Ok else Fails);
    }

    method FillAndRename(conv: ConvergenceRecord, final: bool, temp: nat) returns (ok: bool)
      requires Valid() && Mine(conv, Encoding(final, temp))
      modifies this`sys
      ensures Valid() && Mine(conv, Dropping(final, temp, ok)) && sys.sent == old(sys.sent)
      ensures sys.file == if ok then Some(Whole(conv.Value())) else old(sys.file)
    {
      ok := Oracle();
      Advance(if ok then Ok else Fails);
      if !ok {
        return;
      }
      ok := Oracle();
      Advance(if ok then Ok else Fails);
      if !ok {
        return;
      }
      Sound();
      assert GoodProc(sys, pid);
      ok := Oracle();
      Advance(if ok then Ok else Fails);
    }

    // -------------------------------------------------------------- Central

    method PostConvergence(conv: ConvergenceRecord) returns (acked: bool, ghost received: bool)
      requires Valid() && Mine(conv, Posting)
      modifies this`sys
      ensures Valid() && sys.file == old(sys.file) && pid in sys.procs
      ensures sys.procs[pid]
           == if acked then Proc(conv.Value().(reported := conv.applied), Creating(true)) else Proc(conv.Value(), Releasing)
      ensures acked ==> received
      ensures sys.sent == old(sys.sent) + [Report(pid, conv.desired, conv.applied, conv.reported, received)]
    {
      var reached := Oracle();
      var heard := Oracle();
      acked := reached && heard;
      received := reached;
      Advance(if acked then Acked else if reached then ReplyLost else RequestLost);
    }

    // -------------------------------------------------------------- one attempt

    /** Save, report, save again: desired and applied are already equal. */
    method SaveAndReport(conv: ConvergenceRecord) returns (ok: bool)
      requires Valid() && Mine(conv, Creating(false)) && conv.applied == conv.desired
      modifies this`sys, conv
      ensures Valid() && Mine(conv, Releasing) && conv.desired == old(conv.desired) && conv.applied == old(conv.applied)
      ensures conv.reported == old(conv.reported) || conv.reported == conv.applied
      ensures ok ==> conv.reported == conv.applied && sys.file == Some(Whole(conv.Value()))
    {
      ok := WriteJSONAtomic(conv, false);
      if !ok {
        return;
      }
      var acked, _ := PostConvergence(conv);
      if !acked {
        return false;
      }
      conv.reported := conv.applied;
      ok := WriteJSONAtomic(conv, true);
    }

    /** From the fetch to the end of the locked region. */
    method Attempt(conv: ConvergenceRecord) returns (v: Verdict)
      requires Valid() && Mine(conv, Fetching)
      modifies this`sys, conv
      ensures Valid() && Mine(conv, Releasing) && !v.Held?
      ensures v.NoDesired? ==> conv.Value() == old(conv.Value())
      ensures v.UpToDate? ==> (
        && conv.Value() == old(conv.Value()).(desired := conv.desired)
        && conv.desired != "" && conv.applied == conv.desired && conv.reported == conv.desired
        && sys.sent == old(sys.sent) && sys.file == old(sys.file))
      ensures v.Reported? ==>
        conv.applied == conv.desired && conv.reported == conv.desired && sys.file == Some(Whole(conv.Value()))
    {
      var o := AnyFetch();
      Advance(o);
      if !o.Fetched? {
        return Failed;
      }
      if o.payload.None? && o.fingerprint == "" {
        return NoDesired;
      }
      var fp := o.fingerprint;
      if fp == "" {
        fp := FingerprintFromPayload(o.payload);
      }
      conv.desired := fp;
      if fp != "" && conv.applied == fp && conv.reported == fp {
        return UpToDate;
      }
      var staged := Oracle();
      Advance(if staged then Ok else Fails);
      if !staged {
        return Failed;
      }
      conv.applied := conv.desired;
      var ok := SaveAndReport(conv);
      v := if ok then Reported else Failed;
    }

    /** One bounded attempt. Whatever it meets, a fingerprint the record calls reported was accepted by
        Central; when it reports success the three fingerprints agree and the state file holds them. */
    method Reconcile(conv: ConvergenceRecord) returns (v: Verdict)
      requires Valid() && Mine(conv, Outside)
      modifies this`sys, conv
      ensures Valid() && Mine(conv, Outside)
      ensures conv.reported != "" ==> Accepted(sys, conv.reported)
      ensures v.Held? || v.NoDesired? ==> conv.Value() == old(conv.Value())
      ensures v.UpToDate? ==> (
        && conv.Value() == old(conv.Value()).(desired := conv.desired)
        && conv.desired != "" && conv.applied == conv.desired && conv.reported == conv.desired)
      ensures v.Reported? ==>
        conv.applied == conv.desired && conv.reported == conv.desired && sys.file == Some(Whole(conv.Value()))
    {
      var made := Oracle();
      if !made {
        v := Failed;
      } else {
        var created, held := ExclusiveCreate(conv);
        if !created {
          v := if held then Held else Failed;
        } else {
          v := Attempt(conv);
          Release(conv);
        }
      }
      Sound();
      assert GoodProc(sys, pid);
    }
  }

  /** The two systems agree on the process and on everything the locked region protects. */
  predicate Agree(s: System, t: System, pid: nat) {
    && pid in s.procs && pid in t.procs && s.procs[pid] == t.procs[pid]
    && s.file == t.file && s.sent == t.sent && s.temps == t.temps && s.lock == t.lock
  }

  /** Interference does not change what the holder's next step does. */
  lemma SameStep(s: System, t: System, pid: nat, o: Outcome)
    requires Undisturbed(s, t, pid) && Inside(s.procs[pid].at)
    ensures Agree(Step(t, pid, o), Step(s, pid, o), pid)
  {
    var Proc(mem, at) := s.procs[pid];
    if Writing(at) {
      SameWrite(s, t, pid, mem, at, o);
    } else if at.Fetching? {
      SameFetch(s, t, pid, mem, o);
    }
  }

  lemma SameFetch(s: System, t: System, pid: nat, mem: Record, o: Outcome)
    requires t.file == s.file && t.sent == s.sent && t.temps == s.temps && t.lock == s.lock
    ensures Agree(Fetch(t, pid, mem, o), Fetch(s, pid, mem, o), pid)
  {
  }

  lemma SameWrite(s: System, t: System, pid: nat, mem: Record, at: Place, o: Outcome)
    requires Writing(at) && t.file == s.file && t.sent == s.sent && t.temps == s.temps && t.lock == s.lock
    ensures Agree(Write(t, pid, mem, at, o), Write(s, pid, mem, at, o), pid)
  {
  }
}
