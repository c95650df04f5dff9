/** Requests against the calendar, interleaved query by query.

    A booking checks the mechanic and the lift, waits for the advisory lock of its slot, checks both
    again and inserts. A reschedule or a change of status loads the row, checks what it checks, and
    overwrites the whole row, without a lock. Every query is a step; requests may crash anywhere. The
    exclusion constraints act on each insert and each overwrite. */
module AppointmentProtocol {
  import opened Outcomes
  import opened Appointments

  /** The resource and the start of a slot; the lock itself is taken on a hash of it. */
  type Key = (string, int)

  function LockKey(row: Row): Key {
    (if row.lift != "" then row.lift else if row.mechanic != "" then row.mechanic else "slot", row.start)
  }

  /** Two bookings of one lift from one start always share their lock, two of one mechanic only if they
      name the same lift or none, a lift called like the mechanic aside; bookings that name neither
      share one lock per start. From different starts nothing is shared. */
  lemma LockCovers(a: Row, b: Row)
    ensures a.start != b.start ==> LockKey(a) != LockKey(b)
    ensures a.start == b.start && a.lift == b.lift != "" ==> LockKey(a) == LockKey(b)
    ensures a.start == b.start && a.mechanic == b.mechanic != "" ==>
      (LockKey(a) == LockKey(b) <==>
        || a.lift == b.lift
        || (a.lift == "" && b.lift == b.mechanic)
        || (b.lift == "" && a.lift == a.mechanic))
    ensures a.start == b.start && a.lift == "" && a.mechanic == "" ==>
      (LockKey(a) == LockKey(b) <==>
        b.lift == "slot" || (b.lift == "" && (b.mechanic == "" || b.mechanic == "slot")))
  {
  }

  datatype End = Stored | Declined | BadRange | Stopped

  /** since: the time of a request's first look at the calendar that still counts. was: the status of the
      loaded row, when a request changes the status; a reschedule has none. */
  datatype Proc =
    // the use case, before the transaction
    | CheckMechanic(row: Row)
    | CheckLift(row: Row)
    | TryBay(bays: seq<string>, k: nat, start: int, end: int)
    // the transaction of a booking
    | WaitLock(row: Row)
    | RecheckMechanic(row: Row)
    | RecheckLift(row: Row, since: nat)
    | InsertRow(row: Row, since: nat)
    // reschedule, approve, no-show, change of status, cancel
    | Load(op: Op)
    | MoveMechanic(id: nat, row: Row)
    | MoveLift(id: nat, row: Row, since: nat)
    | SaveRow(id: nat, row: Row, since: nat, was: Option<Status>)
    | CancelRow(id: nat)
    | Finished(result: End)

  /** written and made are the history of the rows: when each was last written, and the lock key it
      was booked under as long as nothing overwrote it. The table stores neither. */
  datatype Machine = Machine(
    now: nat, rows: seq<Row>, written: seq<nat>, made: seq<Option<Key>>, locks: map<int, nat>, procs: seq<Proc>)

  const INITIAL := Machine(0, [], [], [], map[], [])

  datatype Step = Start(proc: Proc) | Run(pid: nat) | Crash(pid: nat)

  predicate Enters(proc: Proc) {
    match proc
    case CheckMechanic(row) => row.status.Confirmed?
    case TryBay(_, k, _, _) => k == 0
    case Load(op) => !op.Create? && !op.PublicCreate?
    case _ => false
  }

  function Release(locks: map<int, nat>, pid: nat): map<int, nat> {
    map k | k in locks && locks[k] != pid :: locks[k]
  }

  function EndOf(outcome: Outcome): End {
    match outcome
    case Saved(_) => Stored
    case Refused => Declined
    case RangeError => BadRange
    case ConstraintFired => Stopped
  }

  // ---- One step of one process ---------------------------------------------------------

  /** The steps that only read the calendar. */
  function Read(now: nat, rows: seq<Row>, proc: Proc): Proc {
    match proc
    case CheckMechanic(row) =>
      if row.start >= row.end || MechanicConflict(rows, row.mechanic, row.start, row.end, None)
      then Finished(Declined) else CheckLift(row)
    case CheckLift(row) =>
      if LiftConflict(rows, row.lift, row.start, row.end, None) then Finished(Declined) else WaitLock(row)
    case TryBay(bays, k, start, end) =>
      if end <= start || k >= |bays| then Finished(Declined)
      else if LiftConflict(rows, bays[k], start, end, None) then TryBay(bays, k + 1, start, end)
      else if bays[k] == "" then Finished(Declined)
      else WaitLock(Row("", bays[k], start, end, Pending))
    case RecheckMechanic(row) =>
      if row.mechanic != "" && MechanicTaken(rows, row.mechanic, row.start, row.end, None)
      then Finished(Declined) else RecheckLift(row, now)
    case RecheckLift(row, since) =>
      if row.lift != "" && LiftTaken(rows, row.lift, row.start, row.end, None)
      then Finished(Declined) else InsertRow(row, since)
    case Load(op) => Loaded(now, rows, op)
    case MoveMechanic(i, row) =>
      if MechanicConflict(rows, row.mechanic, row.start, row.end, Some(i))
      then Finished(Declined) else MoveLift(i, row, now)
    case MoveLift(i, row, since) =>
      if LiftConflict(rows, row.lift, row.start, row.end, Some(i)) then Finished(Declined)
      else SaveRow(i, row, since, None)
    case _ => proc
  }

  function Loaded(now: nat, rows: seq<Row>, op: Op): Proc {
    match op
    case Reschedule(i, start, end, mechanic, lift) =>
      if i >= |rows| || !CanReschedule(rows[i]) then Finished(Declined)
      else MoveMechanic(i, Rescheduled(rows[i], start, end, mechanic, lift))
    case Cancel(i) =>
      if i >= |rows| || rows[i].status.Completed? || rows[i].status.Cancelled? then Finished(Declined) else CancelRow(i)
    case MarkNoShow(i) =>
      if i >= |rows| || rows[i].status.Completed? || rows[i].status.Cancelled? then Finished(Declined)
      else WithStatus(now, rows, i, NoShow)
    case Approve(i) =>
      if i >= |rows| || rows[i].status.Cancelled? then Finished(Declined) else WithStatus(now, rows, i, Confirmed)
    case SetStatus(i, status) =>
      if i >= |rows| then Finished(Declined) else WithStatus(now, rows, i, status)
    case _ => Finished(Declined)
  }

  function WithStatus(now: nat, rows: seq<Row>, i: nat, status: Status): Proc
    requires i < |rows|
  {
    SaveRow(i, rows[i].(status := status), now, Some(rows[i].status))
  }

  /** Whether anything looked at the names and the slot that an overwrite is about to store: a reschedule
      looked up the trimmed lift name; an active row has its slot, which a released one has given up. */
  predicate LookedUp(row: Row, was: Option<Status>) {
    if was.None? then Trim(row.lift) == row.lift else IsActive(was.value) || !IsActive(row.status)
  }

  /** The steps that write. */
  function Write(rows: seq<Row>, proc: Proc): Outcome {
    match proc
    case InsertRow(row, _) => Insert(rows, row)
    case SaveRow(i, row, _, _) => if i < |rows| then Update(rows, i, row) else Refused
    case CancelRow(i) => if i < |rows| then Update(rows, i, rows[i].(status := Cancelled)) else Refused
    case _ => Refused
  }

  predicate Writes(proc: Proc) {
    proc.InsertRow? || proc.SaveRow? || proc.CancelRow?
  }

  predicate InTransaction(proc: Proc) {
    proc.RecheckMechanic? || proc.RecheckLift? || proc.InsertRow?
  }

  function Committed(m: Machine, pid: nat): Machine
    requires pid < |m.procs| && Writes(m.procs[pid]) && |m.written| == |m.made| == |m.rows|
  {
    var proc, outcome := m.procs[pid], Write(m.rows, m.procs[pid]);
    var next := m.(locks := Release(m.locks, pid), procs := m.procs[pid := Finished(EndOf(outcome))]);
    if !outcome.Saved? then next
    else if proc.InsertRow? then
      next.(rows := outcome.rows, written := m.written + [m.now], made := m.made + [Some(LockKey(proc.row))])
    else if proc.id < |m.rows| then
      next.(rows := outcome.rows, written := m.written[proc.id := m.now], made := m.made[proc.id := None])
    else next
  }

  function RunProc(hash: Key -> int, m: Machine, pid: nat): Machine
    requires pid < |m.procs| && |m.written| == |m.made| == |m.rows|
  {
    var proc := m.procs[pid];
    if proc.WaitLock? then
      if hash(LockKey(proc.row)) in m.locks then m
      else m.(locks := m.locks[hash(LockKey(proc.row)) := pid], procs := m.procs[pid := RecheckMechanic(proc.row)])
    else if Writes(proc) then Committed(m, pid)
    else
      var next := Read(m.now, m.rows, proc);
      m.(locks := if next.Finished? then Release(m.locks, pid) else m.locks, procs := m.procs[pid := next])
  }

  predicate Shaped(m: Machine) {
    |m.written| == |m.made| == |m.rows|
  }

  /** Time passes with every step. */
  function Next(hash: Key -> int, m: Machine, step: Step): (m': Machine)
    requires Shaped(m)
    ensures Shaped(m')
  {
    var after := match step
      case Start(proc) => if Enters(proc) then m.(procs := m.procs + [proc]) else m
      case Run(pid) => if pid < |m.procs| then RunProc(hash, m, pid) else m
      case Crash(pid) =>
        if pid < |m.procs| && !m.procs[pid].Finished?
        then m.(locks := Release(m.locks, pid), procs := m.procs[pid := Finished(Declined)])
        else m;
    after.(now := m.now + 1)
  }

  function Exec(hash: Key -> int, steps: seq<Step>): (m: Machine)
    ensures Shaped(m)
  {
    if steps == [] then INITIAL else Next(hash, Exec(hash, steps[..|steps| - 1]), steps[|steps| - 1])
  }

  // ---- What stops a write -----------------------------------------------------------------

  /** Two active rows overlap on a mechanic or on a lift. */
  predicate MechanicBlocks(a: Row, b: Row) {
    IsActive(a.status) && IsActive(b.status) && RangesOverlap(a, b) && a.mechanic == b.mechanic != ""
  }

  predicate LiftBlocks(a: Row, b: Row) {
    IsActive(a.status) && IsActive(b.status) && RangesOverlap(a, b) && a.lift == b.lift != ""
  }

  predicate Blocks(a: Row, b: Row) {
    MechanicBlocks(a, b) || LiftBlocks(a, b)
  }

  lemma BlocksIsNotExcluded(a: Row, b: Row)
    ensures Blocks(a, b) <==> !Excluded(a, b)
    ensures Blocks(a, b) <==> Blocks(b, a)
  {
  }

  lemma InsertFires(rows: seq<Row>, row: Row)
    requires Disjoint(rows) && Proper(row)
    ensures Insert(rows, row) == ConstraintFired <==> exists j :: 0 <= j < |rows| && Blocks(rows[j], row)
    ensures Insert(rows, row) != ConstraintFired ==> Insert(rows, row) == Saved(rows + [row])
  {
    var after := rows + [row];
    if j :| 0 <= j < |rows| && Blocks(rows[j], row) {
      assert !Excluded(after[j], after[|rows|]);
    } else {
      forall j, k | 0 <= j < k < |after| ensures Excluded(after[j], after[k]) {
        assert k < |rows| ==> Excluded(rows[j], rows[k]);
        assert !Blocks(rows[j], row);
      }
    }
  }

  lemma UpdateFires(rows: seq<Row>, i: nat, row: Row)
    requires Disjoint(rows) && i < |rows|
    ensures Update(rows, i, row) == ConstraintFired <==>
      Proper(row) && exists j :: 0 <= j < |rows| && j != i && Blocks(rows[j], row)
  {
    var after := rows[i := row];
    if j :| 0 <= j < |rows| && j != i && Blocks(rows[j], row) {
      BlocksIsNotExcluded(rows[j], row);
      assert !Excluded(after[j], after[i]) && !Excluded(after[i], after[j]);
    } else {
      forall j, k | 0 <= j < k < |after| ensures Excluded(after[j], after[k]) {
        assert Excluded(rows[j], rows[k]);
        assert j != i ==> !Blocks(rows[j], row);
        assert k != i ==> !Blocks(rows[k], row);
        BlocksIsNotExcluded(rows[k], row);
      }
    }
  }

  // ---- The invariant --------------------------------------------------------------------------

  /** A row that a request looked at: not written since, or booked under the request's own key. */
  predicate Known(m: Machine, j: nat, since: nat, key: Option<Key>)
    requires Shaped(m) && j < |m.rows|
  {
    m.written[j] < since || (key.Some? && m.made[j] == key)
  }

  ghost predicate MechanicClear(m: Machine, row: Row, since: nat, key: Option<Key>, except: Option<nat>)
    requires Shaped(m)
  {
    forall j :: 0 <= j < |m.rows| && Some(j) != except && Known(m, j, since, key) ==> !MechanicBlocks(m.rows[j], row)
  }

  ghost predicate LiftClear(m: Machine, row: Row, since: nat, key: Option<Key>, except: Option<nat>)
    requires Shaped(m)
  {
    forall j :: 0 <= j < |m.rows| && Some(j) != except && Known(m, j, since, key) ==> !LiftBlocks(m.rows[j], row)
  }

  predicate Bookable(row: Row) {
    IsActive(row.status) && row.start < row.end
  }

  ghost predicate Holds(hash: Key -> int, m: Machine, pid: nat, row: Row) {
    hash(LockKey(row)) in m.locks && m.locks[hash(LockKey(row))] == pid
  }

  /** What a request may rely on, whatever the others have done since it last looked. */
  ghost predicate Relies(m: Machine, proc: Proc)
    requires Shaped(m)
  {
    match proc
    case CheckMechanic(row) => IsActive(row.status)
    case CheckLift(row) => Bookable(row)
    case WaitLock(row) => Bookable(row)
    case RecheckMechanic(row) => Bookable(row)
    case RecheckLift(row, since) =>
      Bookable(row) && since < m.now && MechanicClear(m, row, since, Some(LockKey(row)), None)
    case InsertRow(row, since) =>
      && Bookable(row) && since < m.now
      && MechanicClear(m, row, since, Some(LockKey(row)), None) && LiftClear(m, row, since, Some(LockKey(row)), None)
    case MoveMechanic(i, _) => i < |m.rows|
    case MoveLift(i, row, since) => i < |m.rows| && since < m.now && MechanicClear(m, row, since, None, Some(i))
    case SaveRow(i, row, since, was) =>
      && i < |m.rows| && since < m.now
      && (LookedUp(row, was) ==>
        MechanicClear(m, row, since, None, Some(i)) && LiftClear(m, row, since, None, Some(i)))
    case CancelRow(i) => i < |m.rows|
    case _ => true
  }

  ghost predicate ProcOk(hash: Key -> int, m: Machine, pid: nat)
    requires Shaped(m) && pid < |m.procs|
  {
    var proc := m.procs[pid];
    Relies(m, proc) && (InTransaction(proc) ==> Holds(hash, m, pid, proc.row))
  }

  ghost predicate CalendarOk(m: Machine) {
    Shaped(m) && WellKept(m.rows) && forall j :: 0 <= j < |m.rows| ==> m.written[j] < m.now
  }

  ghost predicate MachineOk(hash: Key -> int, m: Machine) {
    CalendarOk(m) && forall pid :: 0 <= pid < |m.procs| ==> ProcOk(hash, m, pid)
  }

  /** Rows stay or are written now, and none is booked under the given key. */
  ghost predicate Frame(m: Machine, m': Machine, key: Option<Key>)
    requires Shaped(m) && Shaped(m')
  {
    && m.now < m'.now && |m.rows| <= |m'.rows|
    && forall j :: 0 <= j < |m'.rows| ==>
      || (j < |m.rows| && m'.rows[j] == m.rows[j] && m'.written[j] == m.written[j] && m'.made[j] == m.made[j])
      || (m'.written[j] == m.now && (key.Some? ==> m'.made[j] != key))
  }

  lemma ClearStays(m: Machine, m': Machine, row: Row, since: nat, key: Option<Key>, except: Option<nat>)
    requires Shaped(m) && Shaped(m') && Frame(m, m', key) && since <= m.now
    ensures MechanicClear(m, row, since, key, except) ==> MechanicClear(m', row, since, key, except)
    ensures LiftClear(m, row, since, key, except) ==> LiftClear(m', row, since, key, except)
  {
    forall j | 0 <= j < |m'.rows| && Known(m', j, since, key)
      ensures j < |m.rows| && m'.rows[j] == m.rows[j] && Known(m, j, since, key)
    {
    }
  }

  function KeyOf(proc: Proc): Option<Key> {
    if InTransaction(proc) then Some(LockKey(proc.row)) else None
  }

  lemma ReliesStays(m: Machine, m': Machine, proc: Proc)
    requires Shaped(m) && Shaped(m') && Frame(m, m', KeyOf(proc)) && Relies(m, proc)
    ensures Relies(m', proc)
  {
    match proc
    case RecheckLift(row, since) => ClearStays(m, m', row, since, Some(LockKey(row)), None);
    case InsertRow(row, since) => ClearStays(m, m', row, since, Some(LockKey(row)), None);
    case MoveLift(i, row, since) => ClearStays(m, m', row, since, None, Some(i));
    case SaveRow(i, row, since, _) => ClearStays(m, m', row, since, None, Some(i));
    case _ =>
  }

  /** A step leaves the rows as they are or writes one; a booking writes under the key whose lock its
      process holds, so never under the key of another holder. */
  lemma StepFrame(hash: Key -> int, m: Machine, pid: nat, key: Option<Key>)
    requires Shaped(m) && pid < |m.procs|
    requires key.Some? && m.procs[pid].InsertRow? ==> key.value != LockKey(m.procs[pid].row)
    ensures Frame(m, Next(hash, m, Run(pid)), key)
  {
  }

  lemma CommitKeepsCalendar(hash: Key -> int, m: Machine, pid: nat)
    requires CalendarOk(m) && pid < |m.procs|
    ensures CalendarOk(Next(hash, m, Run(pid)))
  {
    var m' := Next(hash, m, Run(pid));
    var proc := m.procs[pid];
    if Writes(proc) && Write(m.rows, proc).Saved? {
      forall j | 0 <= j < |m'.rows| ensures Proper(m'.rows[j]) {
        assert j < |m.rows| ==> Proper(m.rows[j]);
      }
    }
  }

  /** What the checks just established, in terms of the constraints. */
  lemma CheckedMechanic(m: Machine, row: Row, since: nat, key: Option<Key>, except: Option<nat>)
    requires Shaped(m)
    requires row.mechanic != "" ==> !MechanicTaken(m.rows, row.mechanic, row.start, row.end, except)
    ensures MechanicClear(m, row, since, key, except)
  {
    forall j | 0 <= j < |m.rows| && Some(j) != except ensures !MechanicBlocks(m.rows[j], row) {
      if IsActive(m.rows[j].status) && RangesOverlap(m.rows[j], row) {
        OverlapIsBusy(m.rows[j], row);
      }
    }
  }

  lemma CheckedLift(m: Machine, row: Row, since: nat, key: Option<Key>, except: Option<nat>)
    requires Shaped(m)
    requires row.lift != "" ==> !LiftTaken(m.rows, row.lift, row.start, row.end, except)
    ensures LiftClear(m, row, since, key, except)
  {
    forall j | 0 <= j < |m.rows| && Some(j) != except ensures !LiftBlocks(m.rows[j], row) {
      if IsActive(m.rows[j].status) && RangesOverlap(m.rows[j], row) {
        OverlapIsBusy(m.rows[j], row);
      }
    }
  }

  lemma SameSlotClear(m: Machine, i: nat, status: Status, since: nat)
    requires Shaped(m) && Disjoint(m.rows) && i < |m.rows| && (IsActive(m.rows[i].status) || !IsActive(status))
    ensures var row := m.rows[i].(status := status);
      MechanicClear(m, row, since, None, Some(i)) && LiftClear(m, row, since, None, Some(i))
  {
    var row := m.rows[i].(status := status);
    forall j | 0 <= j < |m.rows| && j != i ensures !Blocks(m.rows[j], row) {
      assert if j < i then Excluded(m.rows[j], m.rows[i]) else Excluded(m.rows[i], m.rows[j]);
      BlocksIsNotExcluded(m.rows[j], m.rows[i]);
      BlocksIsNotExcluded(m.rows[i], m.rows[j]);
    }
  }

  /** What a reading step knows afterwards, of the calendar it read. */
  lemma ReadRelies(m: Machine, proc: Proc)
    requires CalendarOk(m) && Relies(m, proc) && !proc.WaitLock? && !Writes(proc)
    ensures Relies(m.(now := m.now + 1), Read(m.now, m.rows, proc))
  {
    var m' := m.(now := m.now + 1);
    match proc
    case RecheckMechanic(row) =>
      if Read(m.now, m.rows, proc).RecheckLift? {
        CheckedMechanic(m', row, m.now, Some(LockKey(row)), None);
      }
    case RecheckLift(row, since) =>
      if Read(m.now, m.rows, proc).InsertRow? {
        CheckedLift(m', row, since, Some(LockKey(row)), None);
      }
    case MoveMechanic(i, row) =>
      if Read(m.now, m.rows, proc).MoveLift? {
        CheckedMechanic(m', row, m.now, None, Some(i));
      }
    case MoveLift(i, row, since) =>
      if Read(m.now, m.rows, proc).SaveRow? && Trim(row.lift) == row.lift {
        CheckedLift(m', row, since, None, Some(i));
      }
    case Load(op) => LoadedRelies(m, op);
    case _ =>
  }

  lemma LoadedRelies(m: Machine, op: Op)
    requires CalendarOk(m)
    ensures Relies(m.(now := m.now + 1), Loaded(m.now, m.rows, op))
  {
    var m' := m.(now := m.now + 1);
    var next := Loaded(m.now, m.rows, op);
    if next.SaveRow? && LookedUp(next.row, next.was) {
      SameSlotClear(m', next.id, next.row.status, m.now);
    }
  }

  lemma RunnerOk(hash: Key -> int, m: Machine, pid: nat)
    requires MachineOk(hash, m) && pid < |m.procs|
    ensures ProcOk(hash, Next(hash, m, Run(pid)), pid)
  {
    assert ProcOk(hash, m, pid);
    var proc := m.procs[pid];
    if !proc.WaitLock? && !Writes(proc) {
      ReadRelies(m, proc);
      ReliesIgnoresRest(m.(now := m.now + 1), Next(hash, m, Run(pid)), Read(m.now, m.rows, proc));
    }
  }

  lemma ReliesIgnoresRest(m: Machine, m': Machine, proc: Proc)
    requires Shaped(m) && Relies(m, proc)
    requires m'.now == m.now && m'.rows == m.rows && m'.written == m.written && m'.made == m.made
    ensures Relies(m', proc)
  {
  }

  lemma LocksKept(hash: Key -> int, m: Machine, pid: nat, q: nat)
    requires Shaped(m) && pid < |m.procs| && q < |m.procs| && q != pid
    requires ProcOk(hash, m, q) && InTransaction(m.procs[q])
    ensures Holds(hash, Next(hash, m, Run(pid)), q, m.procs[q].row)
  {
  }

  lemma OtherOk(hash: Key -> int, m: Machine, pid: nat, q: nat)
    requires MachineOk(hash, m) && pid < |m.procs| && q < |m.procs| && q != pid
    ensures ProcOk(hash, Next(hash, m, Run(pid)), q)
  {
    assert ProcOk(hash, m, pid) && ProcOk(hash, m, q);
    StepFrame(hash, m, pid, KeyOf(m.procs[q]));
    ReliesStays(m, Next(hash, m, Run(pid)), m.procs[q]);
    if InTransaction(m.procs[q]) {
      LocksKept(hash, m, pid, q);
    }
  }

  lemma RunKeeps(hash: Key -> int, m: Machine, pid: nat)
    requires MachineOk(hash, m) && pid < |m.procs|
    ensures MachineOk(hash, Next(hash, m, Run(pid)))
  {
    var m' := Next(hash, m, Run(pid));
    CommitKeepsCalendar(hash, m, pid);
    RunnerOk(hash, m, pid);
    forall q | 0 <= q < |m'.procs| ensures ProcOk(hash, m', q) {
      if q != pid {
        OtherOk(hash, m, pid, q);
      }
    }
  }

  lemma IdleKeeps(hash: Key -> int, m: Machine, step: Step)
    requires MachineOk(hash, m) && (step.Run? ==> step.pid >= |m.procs|)
    ensures MachineOk(hash, Next(hash, m, step))
  {
    var m' := Next(hash, m, step);
    forall q | 0 <= q < |m'.procs| ensures ProcOk(hash, m', q) {
      if q < |m.procs| {
        assert ProcOk(hash, m, q);
        ReliesStays(m, m', m.procs[q]);
      }
    }
  }

  /** In every interleaving the calendar stays disjoint and every request can rely on what it saw. */
  lemma {:induction false} EveryRunOk(hash: Key -> int, steps: seq<Step>)
    ensures MachineOk(hash, Exec(hash, steps))
  {
    if steps != [] {
      var before, step := Exec(hash, steps[..|steps| - 1]), steps[|steps| - 1];
      EveryRunOk(hash, steps[..|steps| - 1]);
      if step.Run? && step.pid < |before.procs| {
        RunKeeps(hash, before, step.pid);
      } else {
        IdleKeeps(hash, before, step);
      }
    }
  }

  // ---- Results ------------------------------------------------------------------------------------

  /** In every interleaving a booking that passed its checks under the lock is stopped by a constraint
      exactly when a row blocks it that was written after those checks and is not a booking under its
      own lock key; if none does, it is stored. */
  lemma InsertStoppedExactly(hash: Key -> int, steps: seq<Step>, pid: nat, row: Row, since: nat)
    requires pid < |Exec(hash, steps).procs| && Exec(hash, steps).procs[pid] == InsertRow(row, since)
    ensures var m := Exec(hash, steps);
      var m' := Next(hash, m, Run(pid));
      && (m'.procs[pid] == Finished(Stopped) <==> exists j :: 0 <= j < |m.rows| && Blocks(m.rows[j], row))
      && (m'.procs[pid] != Finished(Stopped) ==> m'.procs[pid] == Finished(Stored) && m'.rows == m.rows + [row])
      && (forall j :: 0 <= j < |m.rows| && Blocks(m.rows[j], row) ==>
        m.written[j] >= since && m.made[j] != Some(LockKey(row)))
  {
    EveryRunOk(hash, steps);
    var m := Exec(hash, steps);
    assert ProcOk(hash, m, pid);
    InsertFires(m.rows, row);
    forall j | 0 <= j < |m.rows| && Blocks(m.rows[j], row)
      ensures m.written[j] >= since && m.made[j] != Some(LockKey(row))
    {
      assert !Known(m, j, since, Some(LockKey(row)));
    }
  }

  /** In every interleaving an overwrite is stopped exactly when its range can be built and another row
      blocks it. After a reschedule whose lift name is trimmed, and after a change of status that does
      not make a released row active, every such row was written since the request first looked. */
  lemma SaveStoppedExactly(
    hash: Key -> int, steps: seq<Step>, pid: nat, i: nat, row: Row, since: nat, was: Option<Status>)
    requires pid < |Exec(hash, steps).procs| && Exec(hash, steps).procs[pid] == SaveRow(i, row, since, was)
    ensures var m := Exec(hash, steps);
      var m' := Next(hash, m, Run(pid));
      && i < |m.rows|
      && (m'.procs[pid] == Finished(Stopped) <==>
        Proper(row) && exists j :: 0 <= j < |m.rows| && j != i && Blocks(m.rows[j], row))
      && ((was.None? && Trim(row.lift) == row.lift) || (was.Some? && (IsActive(was.value) || !IsActive(row.status))) ==>
        forall j :: 0 <= j < |m.rows| && j != i && Blocks(m.rows[j], row) ==> m.written[j] >= since)
  {
    EveryRunOk(hash, steps);
    var m := Exec(hash, steps);
    assert ProcOk(hash, m, pid);
    UpdateFires(m.rows, i, row);
    if LookedUp(row, was) {
      forall j | 0 <= j < |m.rows| && j != i && Blocks(m.rows[j], row) ensures m.written[j] >= since {
        assert !Known(m, j, since, None);
      }
    }
  }

  /** A public booking can come to the key if it is offered no other bay. */
  predicate BaysOf(bays: seq<string>, start: int, key: Key) {
    forall k :: 0 <= k < |bays| && bays[k] != "" ==> (bays[k], start) == key
  }

  predicate OneKey(proc: Proc, key: Key) {
    || (proc.CheckMechanic? && LockKey(proc.row) == key)
    || (proc.TryBay? && BaysOf(proc.bays, proc.start, key))
  }

  predicate OnlyBookings(steps: seq<Step>, key: Key) {
    forall k :: 0 <= k < |steps| && steps[k].Start? ==> OneKey(steps[k].proc, key)
  }

  /** Bookings of one key, in whatever state. */
  predicate Booking(proc: Proc, key: Key) {
    match proc
    case CheckMechanic(row) => LockKey(row) == key
    case CheckLift(row) => LockKey(row) == key
    case TryBay(bays, _, start, _) => BaysOf(bays, start, key)
    case WaitLock(row) => LockKey(row) == key
    case RecheckMechanic(row) => LockKey(row) == key
    case RecheckLift(row, _) => LockKey(row) == key
    case InsertRow(row, _) => LockKey(row) == key
    case Finished(_) => true
    case _ => false
  }

  ghost predicate AllBookings(m: Machine, key: Key)
    requires Shaped(m)
  {
    && (forall p :: 0 <= p < |m.procs| ==> Booking(m.procs[p], key))
    && (forall j :: 0 <= j < |m.rows| ==> m.made[j] == Some(key))
  }

  lemma {:induction false} BookingsOnly(hash: Key -> int, steps: seq<Step>, key: Key)
    requires OnlyBookings(steps, key)
    ensures AllBookings(Exec(hash, steps), key)
  {
    if steps != [] {
      var front, step := steps[..|steps| - 1], steps[|steps| - 1];
      assert OnlyBookings(front, key) by {
        forall k | 0 <= k < |front| && front[k].Start? ensures OneKey(front[k].proc, key) {
          assert front[k] == steps[k];
        }
      }
      BookingsOnly(hash, front, key);
      BookingStep(hash, Exec(hash, front), step, key);
    }
  }

  lemma BookingStep(hash: Key -> int, m: Machine, step: Step, key: Key)
    requires Shaped(m) && AllBookings(m, key) && (step.Start? ==> OneKey(step.proc, key))
    ensures AllBookings(Next(hash, m, step), key)
  {
    if step.Run? && step.pid < |m.procs| {
      assert Booking(m.procs[step.pid], key);
    }
  }

  /** Any number of bookings, by staff or by the public, for one lock key (the same lift and start, say),
      however they interleave: none is ever stopped by a constraint; the check under the lock refuses all
      but those that fit. */
  lemma OneKeyNeverStopped(hash: Key -> int, steps: seq<Step>, key: Key, pid: nat, row: Row, since: nat)
    requires OnlyBookings(steps, key) && pid < |Exec(hash, steps).procs|
    requires Exec(hash, steps).procs[pid] == InsertRow(row, since)
    ensures Next(hash, Exec(hash, steps), Run(pid)).procs[pid] == Finished(Stored)
  {
    BookingsOnly(hash, steps, key);
    assert Booking(Exec(hash, steps).procs[pid], key);
    InsertStoppedExactly(hash, steps, pid, row, since);
  }

  /** Two bookings that have both passed their checks have different lock keys; once one of them is
      stored, the other is stopped exactly when they overlap on a mechanic or a lift, unless some
      third row already stops it. */
  lemma SecondInsertStopped(hash: Key -> int, steps: seq<Step>, p: nat, q: nat, a: Row, b: Row, s: nat, t: nat)
    requires p != q && p < |Exec(hash, steps).procs| && q < |Exec(hash, steps).procs|
    requires Exec(hash, steps).procs[p] == InsertRow(a, s) && Exec(hash, steps).procs[q] == InsertRow(b, t)
    requires Next(hash, Exec(hash, steps), Run(p)).procs[p] == Finished(Stored)
    ensures hash(LockKey(a)) != hash(LockKey(b))
    ensures var m := Exec(hash, steps);
      var stored := Next(hash, m, Run(p));
      && stored.procs[q] == InsertRow(b, t)
      && (Next(hash, stored, Run(q)).procs[q] == Finished(Stopped) <==>
        Blocks(a, b) || exists j :: 0 <= j < |m.rows| && Blocks(m.rows[j], b))
  {
    EveryRunOk(hash, steps);
    var m := Exec(hash, steps);
    assert ProcOk(hash, m, p) && ProcOk(hash, m, q);
    InsertStoppedExactly(hash, steps, p, a, s);
    var more := steps + [Run(p)];
    assert more[..|steps|] == steps;
    InsertStoppedExactly(hash, more, q, b, t);
    var stored := Next(hash, m, Run(p));
    assert stored.rows == m.rows + [a];
    assert forall j :: 0 <= j < |m.rows| ==> stored.rows[j] == m.rows[j];
    assert stored.rows[|m.rows|] == a;
  }

  // ---- The races that the locks do not see --------------------------------------------------------

  /** The checks under the lock pass on this calendar. */
  predicate Free(rows: seq<Row>, row: Row, except: Option<nat>) {
    && (row.mechanic != "" ==> !MechanicTaken(rows, row.mechanic, row.start, row.end, except))
    && (row.lift != "" ==> !LiftTaken(rows, row.lift, row.start, row.end, except))
  }

  /** All checks of a booking by staff pass on this calendar. */
  predicate Passes(rows: seq<Row>, row: Row) {
    && row.status.Confirmed? && row.start < row.end
    && !MechanicConflict(rows, row.mechanic, row.start, row.end, None)
    && !LiftConflict(rows, row.lift, row.start, row.end, None)
    && Free(rows, row, None)
  }

  /** These checks are those of the use case run alone. */
  lemma PassesIsApply(rows: seq<Row>, mechanic: string, lift: string, start: int, end: int)
    ensures var row := Row(mechanic, lift, start, end, Confirmed);
      Apply(rows, Create(mechanic, lift, start, end)) == if Passes(rows, row) then Insert(rows, row) else Refused
  {
  }

  /** What a request to book asks for: a row by staff, the first free bay by the public. */
  datatype Request = Staff(row: Row) | Public(bays: seq<string>, start: int, end: int)

  function StartOf(request: Request): Proc {
    match request
    case Staff(row) => CheckMechanic(row)
    case Public(bays, start, end) => TryBay(bays, 0, start, end)
  }

  /** On this calendar the request passes all its checks with this row. */
  predicate ComesTo(rows: seq<Row>, request: Request, row: Row) {
    match request
    case Staff(asked) => row == asked && Passes(rows, row)
    case Public(bays, start, end) =>
      && start < end && row == Row("", row.lift, start, end, Pending) && row.lift != "" && Free(rows, row, None)
      && exists k :: 0 <= k < |bays| && bays[k] == row.lift && FirstAt(rows, bays, k, start, end)
  }

  ghost predicate OnlyGains(hash: Key -> int, before: seq<Step>, steps: seq<Step>, proc: Proc) {
    var m, m' := Exec(hash, before), Exec(hash, steps);
    && m'.rows == m.rows && m'.written == m.written && m'.made == m.made
    && m'.procs == m.procs + [proc]
    && m'.locks == if InTransaction(proc) then m.locks[hash(LockKey(proc.row)) := |m.procs|] else m.locks
  }

  lemma ExecSnoc(hash: Key -> int, steps: seq<Step>, step: Step)
    ensures Exec(hash, steps + [step]) == Next(hash, Exec(hash, steps), step)
  {
    assert (steps + [step])[..|steps|] == steps;
  }

  lemma StartStep(hash: Key -> int, before: seq<Step>, proc: Proc)
    requires Enters(proc)
    ensures OnlyGains(hash, before, before + [Start(proc)], proc)
  {
    ExecSnoc(hash, before, Start(proc));
  }

  lemma ReadStep(hash: Key -> int, before: seq<Step>, steps: seq<Step>, proc: Proc, next: Proc)
    requires OnlyGains(hash, before, steps, proc) && !proc.WaitLock? && !Writes(proc) && !next.Finished?
    requires next == Read(Exec(hash, steps).now, Exec(hash, before).rows, proc)
    requires InTransaction(proc) == InTransaction(next)
    requires InTransaction(proc) ==> LockKey(proc.row) == LockKey(next.row)
    ensures OnlyGains(hash, before, steps + [Run(|Exec(hash, before).procs|)], next)
  {
    ExecSnoc(hash, steps, Run(|Exec(hash, before).procs|));
  }

  lemma LockStep(hash: Key -> int, before: seq<Step>, steps: seq<Step>, row: Row)
    requires OnlyGains(hash, before, steps, WaitLock(row)) && hash(LockKey(row)) !in Exec(hash, before).locks
    ensures OnlyGains(hash, before, steps + [Run(|Exec(hash, before).procs|)], RecheckMechanic(row))
  {
    ExecSnoc(hash, steps, Run(|Exec(hash, before).procs|));
  }

  lemma BayBusy(
    hash: Key -> int, before: seq<Step>, steps: seq<Step>, bays: seq<string>, k: nat, start: int, end: int)
    requires OnlyGains(hash, before, steps, TryBay(bays, k, start, end)) && start < end && k < |bays|
    requires LiftConflict(Exec(hash, before).rows, bays[k], start, end, None)
    ensures OnlyGains(hash, before, steps + [Run(|Exec(hash, before).procs|)], TryBay(bays, k + 1, start, end))
  {
    ReadStep(hash, before, steps, TryBay(bays, k, start, end), TryBay(bays, k + 1, start, end));
  }

  lemma BayFree(
    hash: Key -> int, before: seq<Step>, steps: seq<Step>, bays: seq<string>, k: nat, start: int, end: int)
    requires OnlyGains(hash, before, steps, TryBay(bays, k, start, end)) && start < end && k < |bays|
    requires bays[k] != "" && !LiftConflict(Exec(hash, before).rows, bays[k], start, end, None)
    ensures OnlyGains(hash, before, steps + [Run(|Exec(hash, before).procs|)],
      WaitLock(Row("", bays[k], start, end, Pending)))
  {
    ReadStep(hash, before, steps, TryBay(bays, k, start, end), WaitLock(Row("", bays[k], start, end, Pending)));
  }

  /** The loop over the bays, from the k-th on, up to the first free one. */
  lemma {:induction false} ReachBay(
    hash: Key -> int, before: seq<Step>, steps: seq<Step>, bays: seq<string>, k: nat, last: nat, start: int, end: int)
    returns (more: seq<Step>)
    requires OnlyGains(hash, before, steps, TryBay(bays, k, start, end))
    requires k <= last < |bays| && start < end
    requires forall j :: k <= j < last ==> LiftConflict(Exec(hash, before).rows, bays[j], start, end, None)
    ensures OnlyGains(hash, before, more, TryBay(bays, last, start, end))
    decreases last - k
  {
    if k == last {
      more := steps;
    } else {
      BayBusy(hash, before, steps, bays, k, start, end);
      more := ReachBay(hash, before, steps + [Run(|Exec(hash, before).procs|)], bays, k + 1, last, start, end);
    }
  }

  /** A request whose checks pass comes to wait for its lock when it runs alone. */
  lemma ReachLock(hash: Key -> int, before: seq<Step>, request: Request, row: Row) returns (steps: seq<Step>)
    requires ComesTo(Exec(hash, before).rows, request, row)
    ensures OnlyGains(hash, before, steps, WaitLock(row))
  {
    var pid := |Exec(hash, before).procs|;
    StartStep(hash, before, StartOf(request));
    steps := before + [Start(StartOf(request))];
    match request {
      case Staff(_) =>
        ReadStep(hash, before, steps, CheckMechanic(row), CheckLift(row));
        steps := steps + [Run(pid)];
        ReadStep(hash, before, steps, CheckLift(row), WaitLock(row));
        steps := steps + [Run(pid)];
      case Public(bays, start, end) =>
        var k :| 0 <= k < |bays| && bays[k] == row.lift && FirstAt(Exec(hash, before).rows, bays, k, start, end);
        steps := ReachBay(hash, before, steps, bays, 0, k, start, end);
        BayFree(hash, before, steps, bays, k, start, end);
        steps := steps + [Run(pid)];
    }
  }

  /** And with its lock free it comes to its insert. */
  lemma ReachInsert(hash: Key -> int, before: seq<Step>, request: Request, row: Row)
    returns (steps: seq<Step>, since: nat)
    requires ComesTo(Exec(hash, before).rows, request, row) && hash(LockKey(row)) !in Exec(hash, before).locks
    ensures OnlyGains(hash, before, steps, InsertRow(row, since))
  {
    var pid := |Exec(hash, before).procs|;
    steps := ReachLock(hash, before, request, row);
    LockStep(hash, before, steps, row);
    steps := steps + [Run(pid)];
    since := Exec(hash, steps).now;
    ReadStep(hash, before, steps, RecheckMechanic(row), RecheckLift(row, since));
    steps := steps + [Run(pid)];
    ReadStep(hash, before, steps, RecheckLift(row, since), InsertRow(row, since));
    steps := steps + [Run(pid)];
  }

  /** From every reachable calendar: two bookings, by staff or by the public, whose checks pass on it and
      whose locks differ and are free can both come to their inserts. The first is then stored, and the
      second is stopped exactly when they overlap on a mechanic or a lift: only the constraint keeps
      such a pair apart. */
  lemma ChecksAloneRace(hash: Key -> int, before: seq<Step>, first: Request, second: Request, a: Row, b: Row)
    returns (steps: seq<Step>, p: nat, q: nat)
    requires ComesTo(Exec(hash, before).rows, first, a) && ComesTo(Exec(hash, before).rows, second, b)
    requires hash(LockKey(a)) != hash(LockKey(b))
    requires hash(LockKey(a)) !in Exec(hash, before).locks && hash(LockKey(b)) !in Exec(hash, before).locks
    ensures p < q < |Exec(hash, steps).procs| && Exec(hash, steps).rows == Exec(hash, before).rows
    ensures Exec(hash, steps).procs[p].InsertRow? && Exec(hash, steps).procs[q].InsertRow?
    ensures var one := Next(hash, Exec(hash, steps), Run(p));
      var two := Next(hash, one, Run(q));
      && one.procs[p] == Finished(Stored) && one.rows == Exec(hash, before).rows + [a]
      && (two.procs[q] == Finished(Stopped) <==> Blocks(a, b))
      && (two.procs[q] != Finished(Stopped) ==> two.rows == Exec(hash, before).rows + [a, b])
  {
    var m := Exec(hash, before);
    var middle, s := ReachInsert(hash, before, first, a);
    var t;
    steps, t := ReachInsert(hash, middle, second, b);
    p, q := |m.procs|, |m.procs| + 1;
    RaceOutcome(hash, steps, m.rows, p, q, a, b, s, t);
  }

  lemma RaceOutcome(
    hash: Key -> int, steps: seq<Step>, rows: seq<Row>, p: nat, q: nat, a: Row, b: Row, s: nat, t: nat)
    requires p < q < |Exec(hash, steps).procs| && Exec(hash, steps).rows == rows
    requires Exec(hash, steps).procs[p] == InsertRow(a, s) && Exec(hash, steps).procs[q] == InsertRow(b, t)
    requires Free(rows, a, None) && Free(rows, b, None)
    ensures var one := Next(hash, Exec(hash, steps), Run(p));
      var two := Next(hash, one, Run(q));
      && one.procs[p] == Finished(Stored) && one.rows == rows + [a]
      && (two.procs[q] == Finished(Stopped) <==> Blocks(a, b))
      && (two.procs[q] != Finished(Stopped) ==> two.rows == rows + [a, b])
  {
    FreeIsUnblocked(rows, a, None);
    FreeIsUnblocked(rows, b, None);
    InsertStoppedExactly(hash, steps, p, a, s);
    SecondInsertStopped(hash, steps, p, q, a, b, s, t);
    ExecSnoc(hash, steps, Run(p));
    InsertStoppedExactly(hash, steps + [Run(p)], q, b, t);
    assert rows + [a] + [b] == rows + [a, b];
  }

  lemma FreeIsUnblocked(rows: seq<Row>, row: Row, except: Option<nat>)
    requires Free(rows, row, except)
    ensures forall j :: 0 <= j < |rows| && Some(j) != except ==> !Blocks(rows[j], row)
  {
    forall j | 0 <= j < |rows| && Some(j) != except ensures !Blocks(rows[j], row) {
      if IsActive(rows[j].status) && RangesOverlap(rows[j], row) {
        OverlapIsBusy(rows[j], row);
      }
    }
  }

  /** The checks of a reschedule pass on this calendar, with a trimmed lift name. */
  predicate MovePasses(rows: seq<Row>, i: nat, row: Row) {
    && i < |rows| && CanReschedule(rows[i]) && Trim(row.lift) == row.lift
    && !MechanicConflict(rows, row.mechanic, row.start, row.end, Some(i))
    && !LiftConflict(rows, row.lift, row.start, row.end, Some(i))
  }

  lemma ReachSave(
    hash: Key -> int, before: seq<Step>, i: nat, start: int, end: int, mechanic: Option<string>, lift: Option<string>)
    returns (steps: seq<Step>, since: nat)
    requires i < |Exec(hash, before).rows|
    requires MovePasses(Exec(hash, before).rows, i, Rescheduled(Exec(hash, before).rows[i], start, end, mechanic, lift))
    ensures var row := Rescheduled(Exec(hash, before).rows[i], start, end, mechanic, lift);
      OnlyGains(hash, before, steps, SaveRow(i, row, since, None))
  {
    var m, pid := Exec(hash, before), |Exec(hash, before).procs|;
    var op := Reschedule(i, start, end, mechanic, lift);
    var row := Rescheduled(m.rows[i], start, end, mechanic, lift);
    StartStep(hash, before, Load(op));
    steps := before + [Start(Load(op))];
    ReadStep(hash, before, steps, Load(op), MoveMechanic(i, row));
    steps := steps + [Run(pid)];
    since := Exec(hash, steps).now;
    ReadStep(hash, before, steps, MoveMechanic(i, row), MoveLift(i, row, since));
    steps := steps + [Run(pid)];
    ReadStep(hash, before, steps, MoveLift(i, row, since), SaveRow(i, row, since, None));
    steps := steps + [Run(pid)];
  }

  /** From every reachable calendar: a reschedule onto a trimmed lift name and a booking whose checks
      pass on it, with its lock free, can both come to their writes. The booking is then stored, and the
      reschedule is stopped exactly when its slot can be built and the two overlap on a mechanic or a
      lift; it takes no lock that could have kept them apart. */
  lemma RescheduleRace(
    hash: Key -> int, before: seq<Step>, request: Request, b: Row,
    i: nat, start: int, end: int, mechanic: Option<string>, lift: Option<string>)
    returns (steps: seq<Step>, p: nat, q: nat)
    requires i < |Exec(hash, before).rows|
    requires MovePasses(Exec(hash, before).rows, i, Rescheduled(Exec(hash, before).rows[i], start, end, mechanic, lift))
    requires ComesTo(Exec(hash, before).rows, request, b) && hash(LockKey(b)) !in Exec(hash, before).locks
    ensures p < q < |Exec(hash, steps).procs| && Exec(hash, steps).rows == Exec(hash, before).rows
    ensures Exec(hash, steps).procs[p].SaveRow? && Exec(hash, steps).procs[q].InsertRow?
    ensures var row := Rescheduled(Exec(hash, before).rows[i], start, end, mechanic, lift);
      var one := Next(hash, Exec(hash, steps), Run(q));
      var two := Next(hash, one, Run(p));
      && one.procs[q] == Finished(Stored) && one.rows == Exec(hash, before).rows + [b]
      && (two.procs[p] == Finished(Stopped) <==> Proper(row) && Blocks(b, row))
  {
    var m := Exec(hash, before);
    var row := Rescheduled(m.rows[i], start, end, mechanic, lift);
    var middle, s := ReachSave(hash, before, i, start, end, mechanic, lift);
    var t;
    steps, t := ReachInsert(hash, middle, request, b);
    p, q := |m.procs|, |m.procs| + 1;
    MoveRaceOutcome(hash, steps, m.rows, p, q, i, row, b, s, t);
  }

  lemma MoveRaceOutcome(
    hash: Key -> int, steps: seq<Step>, rows: seq<Row>, p: nat, q: nat, i: nat, row: Row, b: Row, s: nat, t: nat)
    requires p < q < |Exec(hash, steps).procs| && Exec(hash, steps).rows == rows
    requires Exec(hash, steps).procs[p] == SaveRow(i, row, s, None) && Exec(hash, steps).procs[q] == InsertRow(b, t)
    requires MovePasses(rows, i, row) && Free(rows, b, None)
    ensures var one := Next(hash, Exec(hash, steps), Run(q));
      var two := Next(hash, one, Run(p));
      && one.procs[q] == Finished(Stored) && one.rows == rows + [b]
      && (two.procs[p] == Finished(Stopped) <==> Proper(row) && Blocks(b, row))
  {
    FreeIsUnblocked(rows, b, None);
    assert Free(rows, row, Some(i));
    FreeIsUnblocked(rows, row, Some(i));
    InsertStoppedExactly(hash, steps, q, b, t);
    ExecSnoc(hash, steps, Run(q));
    SaveStoppedExactly(hash, steps + [Run(q)], p, i, row, s, None);
    assert (rows + [b])[|rows|] == b;
    assert forall j :: 0 <= j < |rows| ==> (rows + [b])[j] == rows[j];
  }
}
