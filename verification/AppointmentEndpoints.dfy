/** Each request of the interleaved calendar, run without a break, is the use case on the calendar: the
    same answer, the same rows, and no lock left behind. */
module AppointmentEndpoints {
  import opened Iteration
  import opened Outcomes
  import opened Appointments
  import opened AppointmentProtocol

  type Shape = m: Machine | Shaped(m) witness INITIAL

  function Turn(hash: Key -> int, pid: nat): Shape -> Shape {
    (m: Shape) => Next(hash, m, Run(pid))
  }

  /** n steps of one process in a row. */
  function Runs(hash: Key -> int, m: Shape, pid: nat, n: nat): Shape {
    Iterate(Turn(hash, pid), m, n)
  }

  /** The machine some steps later, with this process as its last one. */
  function With(m: Shape, passed: nat, proc: Proc): Shape {
    m.(now := m.now + passed, procs := m.procs + [proc])
  }

  predicate LocksBelow(m: Shape) {
    forall k :: k in m.locks ==> m.locks[k] < |m.procs|
  }

  lemma {:induction false} LocksHaveOwners(hash: Key -> int, steps: seq<Step>)
    ensures LocksBelow(Exec(hash, steps))
  {
    if steps != [] {
      LocksHaveOwners(hash, steps[..|steps| - 1]);
    }
  }

  /** The calendar and the answer after a use case that ended like this. */
  ghost predicate Ends(m: Shape, m': Shape, outcome: Outcome) {
    && m'.rows == (if outcome.Saved? then outcome.rows else m.rows)
    && m'.procs == m.procs + [Finished(EndOf(outcome))]
    && m'.locks == m.locks
  }

  lemma NothingToRelease(m: Shape)
    requires LocksBelow(m)
    ensures Release(m.locks, |m.procs|) == m.locks
  {
    forall k ensures k in Release(m.locks, |m.procs|) <==> k in m.locks {
      assert k in m.locks ==> m.locks[k] < |m.procs|;
    }
    assert Release(m.locks, |m.procs|).Keys == m.locks.Keys;
  }

  lemma ReleaseOwn(m: Shape, k: int)
    requires LocksBelow(m) && k !in m.locks
    ensures Release(m.locks[k := |m.procs|], |m.procs|) == m.locks
  {
    var released := Release(m.locks[k := |m.procs|], |m.procs|);
    forall j ensures j in released <==> j in m.locks {
      assert j in m.locks ==> m.locks[j] < |m.procs|;
    }
    assert released.Keys == m.locks.Keys;
  }

  /** The machine with the last process here, holding its lock if it is inside its transaction. */
  function At(hash: Key -> int, m: Shape, passed: nat, proc: Proc): Shape {
    if InTransaction(proc)
    then With(m.(locks := m.locks[hash(LockKey(proc.row)) := |m.procs|]), passed, proc)
    else With(m, passed, proc)
  }

  /** Where a process that does not write goes, when its lock is free. */
  function Follows(now: nat, rows: seq<Row>, proc: Proc): Proc {
    if proc.WaitLock? then RecheckMechanic(proc.row) else Read(now, rows, proc)
  }

  lemma KeepsItsRow(now: nat, rows: seq<Row>, proc: Proc)
    requires !Writes(proc) && InTransaction(proc)
    ensures var next := Follows(now, rows, proc);
      next == Finished(Declined) || (InTransaction(next) && next.row == proc.row)
  {
  }

  lemma NotByItself(now: nat, rows: seq<Row>, proc: Proc)
    requires !Writes(proc) && !InTransaction(proc) && !proc.WaitLock?
    ensures !InTransaction(Follows(now, rows, proc))
  {
  }

  predicate LockFree(hash: Key -> int, m: Shape, proc: Proc) {
    proc.WaitLock? || InTransaction(proc) ==> hash(LockKey(proc.row)) !in m.locks
  }

  lemma StepOn(hash: Key -> int, m: Shape, passed: nat, proc: Proc)
    requires LocksBelow(m) && !Writes(proc) && LockFree(hash, m, proc)
    ensures Next(hash, At(hash, m, passed, proc), Run(|m.procs|)) ==
      At(hash, m, passed + 1, Follows(m.now + passed, m.rows, proc))
  {
    var pid, next := |m.procs|, Follows(m.now + passed, m.rows, proc);
    assert (m.procs + [proc])[pid := next] == m.procs + [next];
    if proc.WaitLock? {
    } else if InTransaction(proc) {
      KeepsItsRow(m.now + passed, m.rows, proc);
      ReleaseOwn(m, hash(LockKey(proc.row)));
    } else {
      NotByItself(m.now + passed, m.rows, proc);
      NothingToRelease(m);
    }
  }

  lemma WriteOn(hash: Key -> int, m: Shape, passed: nat, proc: Proc)
    requires LocksBelow(m) && Writes(proc) && LockFree(hash, m, proc)
    ensures var m' := Next(hash, At(hash, m, passed, proc), Run(|m.procs|));
      Ends(m, m', Write(m.rows, proc)) && LocksBelow(m')
  {
    var result := Finished(EndOf(Write(m.rows, proc)));
    assert (m.procs + [proc])[|m.procs| := result] == m.procs + [result];
    NothingToRelease(m);
    if InTransaction(proc) {
      ReleaseOwn(m, hash(LockKey(proc.row)));
    }
  }

  lemma {:induction false} FinishedStays(hash: Key -> int, m: Shape, pid: nat, n: nat)
    requires pid < |m.procs| && m.procs[pid].Finished? && Release(m.locks, pid) == m.locks
    ensures var m' := Runs(hash, m, pid, n); m'.rows == m.rows && m'.procs == m.procs && m'.locks == m.locks
    decreases n
  {
    if n > 0 {
      FinishedStays(hash, Next(hash, m, Run(pid)), pid, n - 1);
    }
  }

  /** On these rows the process comes to this outcome within n steps, through locks that are free. */
  predicate Leads(hash: Key -> int, m: Shape, now: nat, proc: Proc, n: nat, outcome: Outcome)
    decreases n
  {
    && LockFree(hash, m, proc)
    && (if proc.Finished? then proc.result == Declined && outcome == Refused
        else if Writes(proc) then n > 0 && outcome == Write(m.rows, proc)
        else n > 0 && Leads(hash, m, now + 1, Follows(now, m.rows, proc), n - 1, outcome))
  }

  lemma FinishedThere(hash: Key -> int, m: Shape, passed: nat, n: nat)
    requires LocksBelow(m)
    ensures Ends(m, Runs(hash, At(hash, m, passed, Finished(Declined)), |m.procs|, n), Refused)
  {
    NothingToRelease(m);
    FinishedStays(hash, At(hash, m, passed, Finished(Declined)), |m.procs|, n);
  }

  lemma StaysEnded(hash: Key -> int, m: Shape, m': Shape, n: nat, outcome: Outcome)
    requires LocksBelow(m) && Ends(m, m', outcome)
    ensures Ends(m, Runs(hash, m', |m.procs|, n), outcome)
  {
    NothingToRelease(m);
    FinishedStays(hash, m', |m.procs|, n);
  }

  lemma WrittenThere(hash: Key -> int, m: Shape, passed: nat, proc: Proc, n: nat)
    requires LocksBelow(m) && Writes(proc) && LockFree(hash, m, proc) && n > 0
    ensures Ends(m, Runs(hash, At(hash, m, passed, proc), |m.procs|, n), Write(m.rows, proc))
  {
    WriteOn(hash, m, passed, proc);
    StaysEnded(hash, m, Next(hash, At(hash, m, passed, proc), Run(|m.procs|)), n - 1, Write(m.rows, proc));
  }

  lemma {:induction false} LeadsThere(hash: Key -> int, m: Shape, passed: nat, proc: Proc, n: nat, outcome: Outcome)
    requires LocksBelow(m) && Leads(hash, m, m.now + passed, proc, n, outcome)
    ensures Ends(m, Runs(hash, At(hash, m, passed, proc), |m.procs|, n), outcome)
    decreases n
  {
    if proc.Finished? {
      FinishedThere(hash, m, passed, n);
    } else if Writes(proc) {
      WrittenThere(hash, m, passed, proc, n);
    } else {
      StepOn(hash, m, passed, proc);
      LeadsThere(hash, m, passed + 1, Follows(m.now + passed, m.rows, proc), n - 1, outcome);
    }
  }

  // ---- Where each request leads -------------------------------------------------------------------

  lemma SaveLeads(hash: Key -> int, m: Shape, now: nat, i: nat, row: Row, since: nat, was: Option<Status>, n: nat)
    requires i < |m.rows| && n > 0
    ensures Leads(hash, m, now, SaveRow(i, row, since, was), n, Update(m.rows, i, row))
  {
  }

  lemma MoveLeads(hash: Key -> int, m: Shape, now: nat, i: nat, row: Row)
    requires i < |m.rows|
    ensures Leads(hash, m, now, MoveMechanic(i, row), 3,
      if MechanicConflict(m.rows, row.mechanic, row.start, row.end, Some(i)) then Refused
      else if LiftConflict(m.rows, row.lift, row.start, row.end, Some(i)) then Refused
      else Update(m.rows, i, row))
  {
    SaveLeads(hash, m, now + 2, i, row, now, None, 1);
  }

  lemma RescheduleLeads(
    hash: Key -> int, m: Shape, now: nat, i: nat, start: int, end: int, mechanic: Option<string>, lift: Option<string>)
    ensures var op := Reschedule(i, start, end, mechanic, lift);
      Leads(hash, m, now, Load(op), 4, Apply(m.rows, op))
  {
    if i < |m.rows| && CanReschedule(m.rows[i]) {
      MoveLeads(hash, m, now + 1, i, Rescheduled(m.rows[i], start, end, mechanic, lift));
    }
  }

  predicate IsStatusChange(op: Op) {
    op.Cancel? || op.MarkNoShow? || op.Approve? || op.SetStatus?
  }

  lemma StatusLeads(hash: Key -> int, m: Shape, now: nat, op: Op)
    requires IsStatusChange(op)
    ensures Leads(hash, m, now, Load(op), 2, Apply(m.rows, op))
  {
  }

  lemma InsertLeads(hash: Key -> int, m: Shape, now: nat, row: Row, since: nat, n: nat)
    requires hash(LockKey(row)) !in m.locks && n > 0
    ensures Leads(hash, m, now, InsertRow(row, since), n, Insert(m.rows, row))
  {
  }

  lemma RecheckLeads(hash: Key -> int, m: Shape, now: nat, row: Row, n: nat)
    requires hash(LockKey(row)) !in m.locks && n >= 3
    ensures Leads(hash, m, now, RecheckMechanic(row), n, RepositoryCreate(m.rows, row))
  {
    InsertLeads(hash, m, now + 2, row, now, n - 2);
  }

  lemma TransactionLeads(hash: Key -> int, m: Shape, now: nat, row: Row, n: nat)
    requires hash(LockKey(row)) !in m.locks && n >= 4
    ensures Leads(hash, m, now, WaitLock(row), n, RepositoryCreate(m.rows, row))
  {
    RecheckLeads(hash, m, now + 1, row, n - 1);
  }

  lemma LiftCheckLeads(hash: Key -> int, m: Shape, now: nat, row: Row)
    requires hash(LockKey(row)) !in m.locks
    ensures Leads(hash, m, now, CheckLift(row), 5,
      if LiftConflict(m.rows, row.lift, row.start, row.end, None) then Refused else RepositoryCreate(m.rows, row))
  {
    TransactionLeads(hash, m, now + 1, row, 4);
  }

  lemma StaffLeads(hash: Key -> int, m: Shape, now: nat, mechanic: string, lift: string, start: int, end: int)
    requires hash(LockKey(Row(mechanic, lift, start, end, Confirmed))) !in m.locks
    ensures Leads(hash, m, now, CheckMechanic(Row(mechanic, lift, start, end, Confirmed)), 6,
      Apply(m.rows, Create(mechanic, lift, start, end)))
  {
    LiftCheckLeads(hash, m, now + 1, Row(mechanic, lift, start, end, Confirmed));
  }

  /** What the loop over the bays comes to from the k-th on. */
  function FromBay(rows: seq<Row>, bays: seq<string>, k: nat, start: int, end: int): Outcome
    requires k <= |bays|
  {
    var lift := FirstFree(rows, bays, k, start, end);
    if lift == "" then Refused else RepositoryCreate(rows, Row("", lift, start, end, Pending))
  }

  /** One step ahead of where it leads, a process leads there too. */
  lemma LeadsOn(hash: Key -> int, m: Shape, now: nat, proc: Proc, n: nat, outcome: Outcome)
    requires n > 0 && !proc.Finished? && !Writes(proc) && LockFree(hash, m, proc)
    requires Leads(hash, m, now + 1, Follows(now, m.rows, proc), n - 1, outcome)
    ensures Leads(hash, m, now, proc, n, outcome)
  {
  }

  lemma DeclinedLeads(hash: Key -> int, m: Shape, now: nat, n: nat)
    ensures Leads(hash, m, now, Finished(Declined), n, Refused)
  {
  }

  lemma NoBayLeads(hash: Key -> int, m: Shape, now: nat, bays: seq<string>, k: nat, start: int, end: int, n: nat)
    requires start < end && k <= |bays| && n > 0
    requires k == |bays| || (!LiftConflict(m.rows, bays[k], start, end, None) && bays[k] == "")
    ensures Leads(hash, m, now, TryBay(bays, k, start, end), n, FromBay(m.rows, bays, k, start, end))
  {
    DeclinedLeads(hash, m, now + 1, n - 1);
    LeadsOn(hash, m, now, TryBay(bays, k, start, end), n, Refused);
  }

  lemma BayTakenLeads(hash: Key -> int, m: Shape, now: nat, bays: seq<string>, k: nat, start: int, end: int, n: nat)
    requires start < end && k < |bays| && n > 0 && LiftConflict(m.rows, bays[k], start, end, None)
    requires Leads(hash, m, now + 1, TryBay(bays, k + 1, start, end), n - 1, FromBay(m.rows, bays, k + 1, start, end))
    ensures Leads(hash, m, now, TryBay(bays, k, start, end), n, FromBay(m.rows, bays, k, start, end))
  {
    LeadsOn(hash, m, now, TryBay(bays, k, start, end), n, FromBay(m.rows, bays, k + 1, start, end));
  }

  lemma BayFreeLeads(hash: Key -> int, m: Shape, now: nat, bays: seq<string>, k: nat, start: int, end: int, n: nat)
    requires start < end && k < |bays| && !LiftConflict(m.rows, bays[k], start, end, None) && bays[k] != ""
    requires hash(LockKey(Row("", bays[k], start, end, Pending))) !in m.locks && n >= 5
    ensures Leads(hash, m, now, TryBay(bays, k, start, end), n, FromBay(m.rows, bays, k, start, end))
  {
    var row := Row("", bays[k], start, end, Pending);
    TransactionLeads(hash, m, now + 1, row, n - 1);
    LeadsOn(hash, m, now, TryBay(bays, k, start, end), n, RepositoryCreate(m.rows, row));
  }

  lemma BayLeads(hash: Key -> int, m: Shape, now: nat, bays: seq<string>, k: nat, start: int, end: int, n: nat)
    requires start < end && k < |bays| && n >= 5
    requires hash(LockKey(Row("", bays[k], start, end, Pending))) !in m.locks
    requires Leads(hash, m, now + 1, TryBay(bays, k + 1, start, end), n - 1, FromBay(m.rows, bays, k + 1, start, end))
    ensures Leads(hash, m, now, TryBay(bays, k, start, end), n, FromBay(m.rows, bays, k, start, end))
  {
    if LiftConflict(m.rows, bays[k], start, end, None) {
      BayTakenLeads(hash, m, now, bays, k, start, end, n);
    } else if bays[k] == "" {
      NoBayLeads(hash, m, now, bays, k, start, end, n);
    } else {
      BayFreeLeads(hash, m, now, bays, k, start, end, n);
    }
  }

  predicate BaysUnlocked(hash: Key -> int, m: Shape, bays: seq<string>, start: int, end: int) {
    forall j :: 0 <= j < |bays| ==> hash(LockKey(Row("", bays[j], start, end, Pending))) !in m.locks
  }

  /** From the k-th bay on, at any time and with enough steps left, the loop leads to what it comes to. */
  ghost predicate LeadsFromBay(hash: Key -> int, m: Shape, bays: seq<string>, k: nat, start: int, end: int)
    requires k <= |bays|
  {
    forall now: nat, n: nat :: n >= |bays| - k + 5 ==>
      Leads(hash, m, now, TryBay(bays, k, start, end), n, FromBay(m.rows, bays, k, start, end))
  }

  lemma PastTheBays(hash: Key -> int, m: Shape, bays: seq<string>, start: int, end: int)
    requires start < end
    ensures LeadsFromBay(hash, m, bays, |bays|, start, end)
  {
    var k := |bays|;
    forall now: nat, n: nat | n >= |bays| - k + 5
      ensures Leads(hash, m, now, TryBay(bays, k, start, end), n, FromBay(m.rows, bays, k, start, end))
    {
      NoBayLeads(hash, m, now, bays, k, start, end, n);
    }
  }

  lemma OneBayBack(hash: Key -> int, m: Shape, bays: seq<string>, k: nat, start: int, end: int)
    requires start < end && k < |bays| && BaysUnlocked(hash, m, bays, start, end)
    requires LeadsFromBay(hash, m, bays, k + 1, start, end)
    ensures LeadsFromBay(hash, m, bays, k, start, end)
  {
    assert hash(LockKey(Row("", bays[k], start, end, Pending))) !in m.locks;
    forall now: nat, n: nat | n >= |bays| - k + 5
      ensures Leads(hash, m, now, TryBay(bays, k, start, end), n, FromBay(m.rows, bays, k, start, end))
    {
      BayLeads(hash, m, now, bays, k, start, end, n);
    }
  }

  lemma {:induction false} BaysLead(hash: Key -> int, m: Shape, bays: seq<string>, k: nat, start: int, end: int)
    requires start < end && k <= |bays| && BaysUnlocked(hash, m, bays, start, end)
    ensures LeadsFromBay(hash, m, bays, k, start, end)
    decreases |bays| - k
  {
    if k == |bays| {
      PastTheBays(hash, m, bays, start, end);
    } else {
      BaysLead(hash, m, bays, k + 1, start, end);
      OneBayBack(hash, m, bays, k, start, end);
    }
  }

  // ---- The requests on every reachable calendar ----------------------------------------------------

  lemma FromStart(hash: Key -> int, steps: seq<Step>, proc: Proc, n: nat, outcome: Outcome)
    requires Enters(proc) && Leads(hash, Exec(hash, steps), Exec(hash, steps).now + 1, proc, n, outcome)
    ensures var m := Exec(hash, steps); Ends(m, Runs(hash, Next(hash, m, Start(proc)), |m.procs|, n), outcome)
  {
    LocksHaveOwners(hash, steps);
    LeadsThere(hash, Exec(hash, steps), 1, proc, n, outcome);
  }

  /** A change of status: loaded and written. */
  lemma StatusAlone(hash: Key -> int, steps: seq<Step>, op: Op)
    requires IsStatusChange(op)
    ensures var m := Exec(hash, steps);
      Ends(m, Runs(hash, Next(hash, m, Start(Load(op))), |m.procs|, 2), Apply(m.rows, op))
  {
    var m := Exec(hash, steps);
    StatusLeads(hash, m, m.now + 1, op);
    FromStart(hash, steps, Load(op), 2, Apply(m.rows, op));
  }

  /** A reschedule: loaded, checked twice, written. */
  lemma RescheduleAlone(
    hash: Key -> int, steps: seq<Step>, i: nat, start: int, end: int, mechanic: Option<string>, lift: Option<string>)
    ensures var m, op := Exec(hash, steps), Reschedule(i, start, end, mechanic, lift);
      Ends(m, Runs(hash, Next(hash, m, Start(Load(op))), |m.procs|, 4), Apply(m.rows, op))
  {
    var m, op := Exec(hash, steps), Reschedule(i, start, end, mechanic, lift);
    RescheduleLeads(hash, m, m.now + 1, i, start, end, mechanic, lift);
    FromStart(hash, steps, Load(op), 4, Apply(m.rows, op));
  }

  /** A booking by staff: its checks, its lock, its checks again, its insert. */
  lemma StaffBookingAlone(hash: Key -> int, steps: seq<Step>, mechanic: string, lift: string, start: int, end: int)
    requires hash(LockKey(Row(mechanic, lift, start, end, Confirmed))) !in Exec(hash, steps).locks
    ensures var m, row := Exec(hash, steps), Row(mechanic, lift, start, end, Confirmed);
      Ends(m, Runs(hash, Next(hash, m, Start(CheckMechanic(row))), |m.procs|, 6),
        Apply(m.rows, Create(mechanic, lift, start, end)))
  {
    var m, row := Exec(hash, steps), Row(mechanic, lift, start, end, Confirmed);
    StaffLeads(hash, m, m.now + 1, mechanic, lift, start, end);
    FromStart(hash, steps, CheckMechanic(row), 6, Apply(m.rows, Create(mechanic, lift, start, end)));
  }

  lemma PublicIsFromBay(rows: seq<Row>, online: seq<string>, start: int, end: int)
    requires start < end
    ensures Apply(rows, PublicCreate(online, start, end)) == FromBay(rows, BaysFor(online), 0, start, end)
  {
  }

  lemma PublicLeads(
    hash: Key -> int, m: Shape, now: nat, online: seq<string>, bays: seq<string>, start: int, end: int,
    outcome: Outcome)
    requires bays == BaysFor(online) && outcome == Apply(m.rows, PublicCreate(online, start, end))
    requires BaysUnlocked(hash, m, bays, start, end)
    ensures Leads(hash, m, now, TryBay(bays, 0, start, end), |bays| + 5, outcome)
  {
    if start < end {
      PublicIsFromBay(m.rows, online, start, end);
      BaysLead(hash, m, bays, 0, start, end);
    } else {
      DeclinedLeads(hash, m, now + 1, |bays| + 4);
      LeadsOn(hash, m, now, TryBay(bays, 0, start, end), |bays| + 5, Refused);
    }
  }

  /** A booking by the public: the loop over the bays, and the same transaction. */
  lemma PublicBookingAlone(hash: Key -> int, steps: seq<Step>, online: seq<string>, start: int, end: int)
    requires BaysUnlocked(hash, Exec(hash, steps), BaysFor(online), start, end)
    ensures var m, bays := Exec(hash, steps), BaysFor(online);
      Ends(m, Runs(hash, Next(hash, m, Start(TryBay(bays, 0, start, end))), |m.procs|, |bays| + 5),
        Apply(m.rows, PublicCreate(online, start, end)))
  {
    var m, bays := Exec(hash, steps), BaysFor(online);
    var outcome := Apply(m.rows, PublicCreate(online, start, end));
    PublicLeads(hash, m, m.now + 1, online, bays, start, end, outcome);
    FromStart(hash, steps, TryBay(bays, 0, start, end), |bays| + 5, outcome);
  }

  /** A request that dies leaves the calendar as it was and no lock behind. */
  lemma CrashLeavesNothing(hash: Key -> int, m: Shape, pid: nat)
    requires pid < |m.procs| && !m.procs[pid].Finished?
    ensures var m' := Next(hash, m, Crash(pid));
      && m'.rows == m.rows && m'.procs[pid] == Finished(Declined)
      && forall k :: k in m'.locks <==> k in m.locks && m.locks[k] != pid
  {
  }
}
