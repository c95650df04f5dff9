/** The appointment calendar of one tenant: conflict checks, first-fit bays, rescheduling, and the
    two exclusion constraints of the database that nothing may violate. */
module Appointments {
  import opened Outcomes

  datatype Status = Pending | Confirmed | InService | Completed | Cancelled | NoShow

  /** An empty mechanic or lift is stored as null. Times are instants. */
  datatype Row = Row(mechanic: string, lift: string, start: int, end: int, status: Status)

  predicate IsActive(status: Status) {
    !status.Cancelled? && !status.NoShow?
  }

  /** White space and line terminators (sections 12.2 and 12.3 of ECMA-262). */
  predicate IsSpace(ch: char) {
    ch in "\t\n\r \U{B}\U{C}\U{A0}\U{1680}\U{2028}\U{2029}\U{202F}\U{205F}\U{3000}\U{FEFF}"
    || '\U{2000}' <= ch <= '\U{200A}'
  }

  function TrimBy(space: char -> bool, s: string): string {
    if s != "" && space(s[0]) then TrimBy(space, s[1..])
    else if s != "" && space(s[|s| - 1]) then TrimBy(space, s[..|s| - 1])
    else s
  }

  function Trim(s: string): string {
    TrimBy(IsSpace, s)
  }

  // ---- The checks of the application ---------------------------------------------------

  /** The where clause shared by every conflict query. */
  predicate Busy(row: Row, start: int, end: int) {
    IsActive(row.status) && row.start < end && row.end > start
  }

  predicate MechanicTaken(rows: seq<Row>, mechanic: string, start: int, end: int, except: Option<nat>) {
    exists i :: 0 <= i < |rows| && Some(i) != except && rows[i].mechanic == mechanic && Busy(rows[i], start, end)
  }

  predicate LiftTaken(rows: seq<Row>, lift: string, start: int, end: int, except: Option<nat>) {
    exists i :: 0 <= i < |rows| && Some(i) != except && rows[i].lift == lift && Busy(rows[i], start, end)
  }

  predicate MechanicConflict(rows: seq<Row>, mechanic: string, start: int, end: int, except: Option<nat>) {
    mechanic != "" && MechanicTaken(rows, mechanic, start, end, except)
  }

  /** The check before a write looks the trimmed name up. */
  predicate LiftConflict(rows: seq<Row>, lift: string, start: int, end: int, except: Option<nat>) {
    Trim(lift) != "" && LiftTaken(rows, Trim(lift), start, end, except)
  }

  // ---- The constraints of the database ------------------------------------------------------

  /** tstzrange is half open, and empty when its bounds are equal. */
  predicate RangesOverlap(a: Row, b: Row) {
    a.start < a.end && b.start < b.end && a.start < b.end && b.start < a.end
  }

  predicate Excluded(a: Row, b: Row) {
    IsActive(a.status) && IsActive(b.status) && RangesOverlap(a, b) ==>
      && (a.mechanic == b.mechanic ==> a.mechanic == "")
      && (a.lift == b.lift ==> a.lift == "")
  }

  predicate Disjoint(rows: seq<Row>) {
    forall i, j :: 0 <= i < j < |rows| ==> Excluded(rows[i], rows[j])
  }

  datatype Outcome = Saved(rows: seq<Row>) | Refused | RangeError | ConstraintFired

  /** The constraints are partial: they build the range of a row only when it is active and has a
      mechanic or a lift, and only then is a reversed slot an error. */
  predicate Proper(row: Row) {
    IsActive(row.status) && (row.mechanic != "" || row.lift != "") ==> row.start <= row.end
  }

  /** Writing a row: a range that cannot be built is an error, an overlap fires the constraint. */
  function Insert(rows: seq<Row>, row: Row): Outcome {
    if !Proper(row) then RangeError
    else if !Disjoint(rows + [row]) then ConstraintFired
    else Saved(rows + [row])
  }

  function Update(rows: seq<Row>, i: nat, row: Row): Outcome
    requires i < |rows|
  {
    if !Proper(row) then RangeError
    else if !Disjoint(rows[i := row]) then ConstraintFired
    else Saved(rows[i := row])
  }

  // ---- The use cases ---------------------------------------------------------------------------

  /** Reschedule leaves mechanic or lift alone when none is given. */
  datatype Op =
    | Create(mechanic: string, lift: string, start: int, end: int)
    | PublicCreate(bays: seq<string>, start: int, end: int)
    | Reschedule(id: nat, start: int, end: int, newMechanic: Option<string>, newLift: Option<string>)
    | Cancel(id: nat)
    | MarkNoShow(id: nat)
    | Approve(id: nat)
    | SetStatus(id: nat, status: Status)

  /** The repository checks the stored names again, under the lock, before it inserts. */
  function RepositoryCreate(rows: seq<Row>, row: Row): Outcome {
    if row.mechanic != "" && MechanicTaken(rows, row.mechanic, row.start, row.end, None) then Refused
    else if row.lift != "" && LiftTaken(rows, row.lift, row.start, row.end, None) then Refused
    else Insert(rows, row)
  }

  /** The first bay from position k on without a conflict, or the empty name. */
  function FirstFree(rows: seq<Row>, bays: seq<string>, k: nat, start: int, end: int): string
    requires k <= |bays|
    decreases |bays| - k
  {
    if k == |bays| then ""
    else if !LiftConflict(rows, bays[k], start, end, None) then bays[k]
    else FirstFree(rows, bays, k + 1, start, end)
  }

  const INTAKE_BAYS: seq<string> := ["Lift 1 (H\U{131}zl\U{131} Kabul)", "Lift 2 (Mekanik)", "Kabul Alan\U{131}"]

  function BaysFor(online: seq<string>): seq<string> {
    if online != [] then online else INTAKE_BAYS
  }

  predicate CanReschedule(row: Row) {
    !row.status.Completed? && !row.status.Cancelled?
  }

  function Rescheduled(row: Row, start: int, end: int, mechanic: Option<string>, lift: Option<string>): Row {
    row.(start := start, end := end,
      mechanic := if mechanic.Some? then mechanic.value else row.mechanic,
      lift := if lift.Some? then lift.value else row.lift)
  }

  function Apply(rows: seq<Row>, op: Op): Outcome {
    match op
    case Create(mechanic, lift, start, end) =>
      if start >= end then Refused
      else if MechanicConflict(rows, mechanic, start, end, None) then Refused
      else if LiftConflict(rows, lift, start, end, None) then Refused
      else RepositoryCreate(rows, Row(mechanic, lift, start, end, Confirmed))
    case PublicCreate(bays, start, end) =>
      if end <= start then Refused
      else
        var lift := FirstFree(rows, BaysFor(bays), 0, start, end);
        if lift == "" then Refused else RepositoryCreate(rows, Row("", lift, start, end, Pending))
    case Reschedule(i, start, end, mechanic, lift) =>
      if i >= |rows| || !CanReschedule(rows[i]) then Refused
      else
        var row := Rescheduled(rows[i], start, end, mechanic, lift);
        if MechanicConflict(rows, row.mechanic, start, end, Some(i)) then Refused
        else if LiftConflict(rows, row.lift, start, end, Some(i)) then Refused
        else Update(rows, i, row)
    case Cancel(i) =>
      if i >= |rows| || rows[i].status.Completed? || rows[i].status.Cancelled? then Refused
      else Update(rows, i, rows[i].(status := Cancelled))
    case MarkNoShow(i) =>
      if i >= |rows| || rows[i].status.Completed? || rows[i].status.Cancelled? then Refused
      else Update(rows, i, rows[i].(status := NoShow))
    case Approve(i) =>
      if i >= |rows| || rows[i].status.Cancelled? then Refused
      else Update(rows, i, rows[i].(status := Confirmed))
    case SetStatus(i, status) =>
      if i >= |rows| then Refused else Update(rows, i, rows[i].(status := status))
  }

  // ---- The checks imply the constraints -----------------------------------------------------------

  /** What a serial run must not do: give a released slot back its status, or store a lift name
      whose trimmed form is another name. */
  predicate Orderly(rows: seq<Row>, op: Op) {
    match op
    case Reschedule(i, start, end, mechanic, lift) =>
      i < |rows| ==> var row := Rescheduled(rows[i], start, end, mechanic, lift); Trim(row.lift) == row.lift
    case Approve(i) => i < |rows| ==> IsActive(rows[i].status) || rows[i].status.Cancelled?
    case SetStatus(i, status) => i < |rows| ==> IsActive(rows[i].status) || !IsActive(status)
    case _ => true
  }

  predicate WellKept(rows: seq<Row>) {
    Disjoint(rows) && forall i :: 0 <= i < |rows| ==> Proper(rows[i])
  }

  lemma OverlapIsBusy(a: Row, b: Row)
    requires IsActive(a.status) && RangesOverlap(a, b)
    ensures Busy(a, b.start, b.end)
  {
  }

  /** A row that passed the checks for its own names fits the constraints. */
  lemma FreeRowFits(rows: seq<Row>, row: Row, i: nat)
    requires i <= |rows|
    requires row.mechanic != "" ==> !MechanicTaken(rows, row.mechanic, row.start, row.end, Some(i))
    requires row.lift != "" ==> !LiftTaken(rows, row.lift, row.start, row.end, Some(i))
    ensures forall j :: 0 <= j < |rows| && j != i ==> Excluded(rows[j], row) && Excluded(row, rows[j])
  {
    forall j | 0 <= j < |rows| && j != i ensures Excluded(rows[j], row) && Excluded(row, rows[j]) {
      if IsActive(rows[j].status) && RangesOverlap(rows[j], row) {
        OverlapIsBusy(rows[j], row);
      }
    }
  }

  lemma TakenExceptNew(rows: seq<Row>, row: Row)
    ensures MechanicTaken(rows, row.mechanic, row.start, row.end, Some(|rows|)) ==>
      MechanicTaken(rows, row.mechanic, row.start, row.end, None)
    ensures LiftTaken(rows, row.lift, row.start, row.end, Some(|rows|)) ==>
      LiftTaken(rows, row.lift, row.start, row.end, None)
  {
  }

  lemma CreateNeverFires(rows: seq<Row>, row: Row)
    requires WellKept(rows) && Proper(row)
    ensures RepositoryCreate(rows, row).Refused?
      || (RepositoryCreate(rows, row) == Saved(rows + [row]) && WellKept(rows + [row]))
  {
    if !RepositoryCreate(rows, row).Refused? {
      TakenExceptNew(rows, row);
      FreeRowFits(rows, row, |rows|);
    }
  }

  lemma RescheduleNeverFires(rows: seq<Row>, i: nat, row: Row)
    requires WellKept(rows) && i < |rows| && Proper(row) && Trim(row.lift) == row.lift
    requires !MechanicConflict(rows, row.mechanic, row.start, row.end, Some(i))
    requires !LiftConflict(rows, row.lift, row.start, row.end, Some(i))
    ensures Update(rows, i, row) == Saved(rows[i := row]) && WellKept(rows[i := row])
  {
    FreeRowFits(rows, row, i);
  }

  lemma StatusNeverFires(rows: seq<Row>, i: nat, status: Status)
    requires WellKept(rows) && i < |rows| && (IsActive(rows[i].status) || !IsActive(status))
    ensures var row := rows[i].(status := status);
      Update(rows, i, row) == Saved(rows[i := row]) && WellKept(rows[i := row])
  {
    var row := rows[i].(status := status);
    var after := rows[i := row];
    forall j, k | 0 <= j < k < |rows| ensures Excluded(after[j], after[k]) {
      assert Excluded(rows[j], rows[k]);
    }
  }

  /** In a serial run no use case is ever stopped by a constraint, and what it saves keeps them. */
  lemma ChecksImplyConstraints(rows: seq<Row>, op: Op)
    requires WellKept(rows) && Orderly(rows, op)
    ensures !Apply(rows, op).ConstraintFired?
    ensures Apply(rows, op).Saved? ==> WellKept(Apply(rows, op).rows)
  {
    match op
    case Create(mechanic, lift, start, end) =>
      if start < end {
        CreateNeverFires(rows, Row(mechanic, lift, start, end, Confirmed));
      }
    case PublicCreate(bays, start, end) =>
      if start < end {
        CreateNeverFires(rows, Row("", FirstFree(rows, BaysFor(bays), 0, start, end), start, end, Pending));
      }
    case Reschedule(i, start, end, mechanic, lift) =>
      if i < |rows| && Proper(Rescheduled(rows[i], start, end, mechanic, lift)) {
        var row := Rescheduled(rows[i], start, end, mechanic, lift);
        if !MechanicConflict(rows, row.mechanic, start, end, Some(i)) {
          if !LiftConflict(rows, row.lift, start, end, Some(i)) {
            RescheduleNeverFires(rows, i, row);
          }
        }
      }
    case Cancel(i) =>
      if i < |rows| {
        StatusNeverFires(rows, i, Cancelled);
      }
    case MarkNoShow(i) =>
      if i < |rows| {
        StatusNeverFires(rows, i, NoShow);
      }
    case Approve(i) =>
      if i < |rows| && !rows[i].status.Cancelled? {
        StatusNeverFires(rows, i, Confirmed);
      }
    case SetStatus(i, status) =>
      if i < |rows| {
        StatusNeverFires(rows, i, status);
      }
  }

  /** The calendar after a serial run; an operation that is not saved changes nothing. */
  function Run(ops: seq<Op>): seq<Row> {
    if ops == [] then []
    else
      var before := Run(ops[..|ops| - 1]);
      var outcome := Apply(before, ops[|ops| - 1]);
      if outcome.Saved? then outcome.rows else before
  }

  predicate OrderlyRun(ops: seq<Op>) {
    ops != [] ==> OrderlyRun(ops[..|ops| - 1]) && Orderly(Run(ops[..|ops| - 1]), ops[|ops| - 1])
  }

  /** No two active appointments overlap on a mechanic or a lift, in any orderly serial run, and
      the next operation is not stopped by a constraint either. */
  lemma {:induction false} SerialRunsStayDisjoint(ops: seq<Op>, next: Op)
    requires OrderlyRun(ops) && Orderly(Run(ops), next)
    ensures WellKept(Run(ops)) && !Apply(Run(ops), next).ConstraintFired?
  {
    if ops != [] {
      SerialRunsStayDisjoint(ops[..|ops| - 1], ops[|ops| - 1]);
      ChecksImplyConstraints(Run(ops[..|ops| - 1]), ops[|ops| - 1]);
    }
    ChecksImplyConstraints(Run(ops), next);
  }

  // ---- When the checks are not enough --------------------------------------------------------------

  /** Giving a released slot its status back is stopped by a constraint exactly when another active
      appointment has taken the mechanic or the lift in the meantime. */
  lemma ReactivationFires(rows: seq<Row>, i: nat, status: Status)
    requires WellKept(rows) && i < |rows| && !IsActive(rows[i].status) && IsActive(status)
    ensures Apply(rows, SetStatus(i, status)) == ConstraintFired <==>
      exists j :: 0 <= j < |rows| && j != i && IsActive(rows[j].status) && RangesOverlap(rows[i], rows[j])
        && ((rows[i].mechanic != "" && rows[j].mechanic == rows[i].mechanic)
          || (rows[i].lift != "" && rows[j].lift == rows[i].lift))
  {
    var row := rows[i].(status := status);
    var after := rows[i := row];
    if forall j :: 0 <= j < |rows| && j != i ==> Excluded(rows[j], row) && Excluded(row, rows[j]) {
      forall j, k | 0 <= j < k < |rows| ensures Excluded(after[j], after[k]) {
        assert Excluded(rows[j], rows[k]);
      }
    } else {
      var j :| 0 <= j < |rows| && j != i && !(Excluded(rows[j], row) && Excluded(row, rows[j]));
      assert !Excluded(after[j], after[i]) && !Excluded(after[i], after[j]);
    }
  }

  /** Once every appointment is released, any slot on any trimmed lift name can be booked. */
  lemma BookReleased(rows: seq<Row>, lift: string, start: int, end: int)
    requires WellKept(rows) && forall i :: 0 <= i < |rows| ==> !IsActive(rows[i].status)
    requires lift != "" && Trim(lift) == lift && start < end
    ensures Apply(rows, Create("", lift, start, end)) == Saved(rows + [Row("", lift, start, end, Confirmed)])
  {
    CreateNeverFires(rows, Row("", lift, start, end, Confirmed));
  }

  lemma ReleaseOnly(booked: Row)
    requires IsActive(booked.status) && !booked.status.Completed? && Proper(booked)
    ensures Apply([booked], MarkNoShow(0)) == Saved([booked.(status := NoShow)])
  {
    StatusNeverFires([booked], 0, NoShow);
    assert [booked][0 := booked.(status := NoShow)] == [booked.(status := NoShow)];
  }

  lemma ApproveReleased(released: Row, booked: Row)
    requires released == booked.(status := NoShow) && booked.status.Confirmed?
    requires booked.lift != "" && booked.start < booked.end
    ensures Apply([released, booked], Approve(0)) == ConstraintFired
  {
    var after := [released, booked][0 := booked];
    assert !Excluded(after[0], after[1]);
  }

  /** An approved no-show can collide: for any lift and slot, book it, release it as a no-show, book
      it again, and the approval of the first booking is stopped by the constraint. */
  lemma ApprovedNoShowCollides(lift: string, start: int, end: int)
    requires lift != "" && Trim(lift) == lift && start < end
    ensures var booked := Row("", lift, start, end, Confirmed);
      var released := booked.(status := NoShow);
      && Apply([], Create("", lift, start, end)) == Saved([] + [booked])
      && Apply([booked], MarkNoShow(0)) == Saved([released])
      && Apply([released], Create("", lift, start, end)) == Saved([released] + [booked])
      && Apply([released, booked], Approve(0)) == ConstraintFired
  {
    var booked := Row("", lift, start, end, Confirmed);
    BookReleased([], lift, start, end);
    ReleaseOnly(booked);
    BookReleased([booked.(status := NoShow)], lift, start, end);
    ApproveReleased(booked.(status := NoShow), booked);
  }

  /** Another active appointment overlaps the row under exactly its lift name. */
  predicate LiftHeld(rows: seq<Row>, i: nat, row: Row) {
    exists j :: 0 <= j < |rows| && j != i && rows[j].lift == row.lift && IsActive(rows[j].status)
      && RangesOverlap(rows[j], row)
  }

  /** Rescheduling stores the lift name as given, or the one it had, but checks the trimmed one. Once
      the checks passed, the constraint fires exactly when the name is untrimmed and another active
      appointment has it as it is. */
  lemma UntrimmedLiftFires(rows: seq<Row>, i: nat, start: int, end: int, mechanic: Option<string>, lift: Option<string>)
    requires WellKept(rows) && i < |rows| && CanReschedule(rows[i])
    requires var row := Rescheduled(rows[i], start, end, mechanic, lift);
      && !MechanicConflict(rows, row.mechanic, start, end, Some(i))
      && !LiftConflict(rows, row.lift, start, end, Some(i))
    ensures var row := Rescheduled(rows[i], start, end, mechanic, lift);
      Apply(rows, Reschedule(i, start, end, mechanic, lift)) == ConstraintFired <==>
        Trim(row.lift) != row.lift && IsActive(row.status) && LiftHeld(rows, i, row)
  {
    var row := Rescheduled(rows[i], start, end, mechanic, lift);
    var after := rows[i := row];
    if Proper(row) {
      if Trim(row.lift) == row.lift {
        RescheduleNeverFires(rows, i, row);
      } else if forall j :: 0 <= j < |rows| && j != i ==> Excluded(rows[j], row) && Excluded(row, rows[j]) {
        forall j, k | 0 <= j < k < |rows| ensures Excluded(after[j], after[k]) {
          assert Excluded(rows[j], rows[k]);
        }
      } else {
        var j :| 0 <= j < |rows| && j != i && !(Excluded(rows[j], row) && Excluded(row, rows[j]));
        assert !Excluded(after[j], after[i]) && !Excluded(after[i], after[j]);
        OverlapIsBusy(rows[j], row);
      }
    }
  }

  /** Rescheduling does not check the order of the new times. Once its checks passed, a reversed slot
      is an error exactly when the row is active and named; otherwise it is stored as given. */
  lemma ReversedSlot(rows: seq<Row>, i: nat, start: int, end: int, mechanic: Option<string>, lift: Option<string>)
    requires WellKept(rows) && i < |rows| && CanReschedule(rows[i]) && end < start
    requires var row := Rescheduled(rows[i], start, end, mechanic, lift);
      && !MechanicConflict(rows, row.mechanic, start, end, Some(i))
      && !LiftConflict(rows, row.lift, start, end, Some(i))
    ensures var row, outcome := Rescheduled(rows[i], start, end, mechanic, lift),
        Apply(rows, Reschedule(i, start, end, mechanic, lift));
      && (outcome == RangeError <==> IsActive(row.status) && (row.mechanic != "" || row.lift != ""))
      && (outcome != RangeError ==> outcome == Saved(rows[i := row]))
  {
    var row := Rescheduled(rows[i], start, end, mechanic, lift);
    var after := rows[i := row];
    forall j, k | 0 <= j < k < |rows| ensures Excluded(after[j], after[k]) {
      assert Excluded(rows[j], rows[k]);
    }
  }

  /** So two reschedules onto the same untrimmed name collide, for any such name and any slot. */
  lemma UntrimmedLiftCollides(lift: string, start: int, end: int)
    requires Trim(lift) != lift && start < end
    ensures var held, other := Row("", lift, start, end, Confirmed), Row("", "", start, end, Confirmed);
      WellKept([held, other]) && Apply([held, other], Reschedule(1, start, end, None, Some(lift))) == ConstraintFired
  {
    var held, other := Row("", lift, start, end, Confirmed), Row("", "", start, end, Confirmed);
    var rows := [held, other];
    assert !LiftConflict(rows, lift, start, end, Some(1));
    assert LiftHeld(rows, 1, Rescheduled(other, start, end, None, Some(lift))) by {
      assert rows[0].lift == lift;
    }
    UntrimmedLiftFires(rows, 1, start, end, None, Some(lift));
  }

  // ---- First fit -------------------------------------------------------------------------------------

  predicate NamedBays(bays: seq<string>) {
    forall k :: 0 <= k < |bays| ==> bays[k] != "" && Trim(bays[k]) == bays[k]
  }

  predicate FirstAt(rows: seq<Row>, bays: seq<string>, k: nat, start: int, end: int)
    requires k < |bays|
  {
    && !LiftConflict(rows, bays[k], start, end, None)
    && forall j :: 0 <= j < k ==> LiftConflict(rows, bays[j], start, end, None)
  }

  /** The bay found is the first in list order without a conflict; the empty name also means none. */
  lemma {:induction false} FirstFreeIsFirst(rows: seq<Row>, bays: seq<string>, k: nat, start: int, end: int)
    requires k <= |bays| && forall j :: 0 <= j < k ==> LiftConflict(rows, bays[j], start, end, None)
    ensures var bay := FirstFree(rows, bays, k, start, end);
      || ((forall j :: 0 <= j < |bays| ==> LiftConflict(rows, bays[j], start, end, None)) && bay == "")
      || (exists j :: 0 <= j < |bays| && bay == bays[j] && FirstAt(rows, bays, j, start, end))
    decreases |bays| - k
  {
    if k < |bays| {
      if LiftConflict(rows, bays[k], start, end, None) {
        FirstFreeIsFirst(rows, bays, k + 1, start, end);
      } else {
        assert FirstAt(rows, bays, k, start, end);
      }
    }
  }

  /** With named bays, public booking refuses exactly when every bay conflicts; otherwise the bay it
      takes passes the check inside create and the constraint, and the appointment is saved. */
  lemma FirstFitIsComplete(rows: seq<Row>, online: seq<string>, start: int, end: int)
    requires WellKept(rows) && start < end && NamedBays(BaysFor(online))
    ensures var bays, outcome := BaysFor(online), Apply(rows, PublicCreate(online, start, end));
      && (outcome.Refused? <==> forall k :: 0 <= k < |bays| ==> LiftConflict(rows, bays[k], start, end, None))
      && (!outcome.Refused? ==>
        outcome == Saved(rows + [Row("", FirstFree(rows, bays, 0, start, end), start, end, Pending)]))
  {
    var bays := BaysFor(online);
    FirstFreeIsFirst(rows, bays, 0, start, end);
    var lift := FirstFree(rows, bays, 0, start, end);
    if lift != "" {
      var k :| 0 <= k < |bays| && lift == bays[k] && FirstAt(rows, bays, k, start, end);
      CreateNeverFires(rows, Row("", lift, start, end, Pending));
    }
  }

  predicate BlankAt(rows: seq<Row>, bays: seq<string>, k: nat, start: int, end: int)
    requires k < |bays|
  {
    bays[k] == "" && forall j :: 0 <= j < k ==> LiftConflict(rows, bays[j], start, end, None)
  }

  /** Whatever the names, no bay is found exactly when every bay conflicts or a bay with an empty
      name comes before every free one: it never conflicts and is never accepted. */
  lemma {:induction false} NoBayFound(rows: seq<Row>, bays: seq<string>, k: nat, start: int, end: int)
    requires k <= |bays| && forall j :: 0 <= j < k ==> LiftConflict(rows, bays[j], start, end, None)
    ensures FirstFree(rows, bays, k, start, end) == "" <==>
      || (forall j :: 0 <= j < |bays| ==> LiftConflict(rows, bays[j], start, end, None))
      || (exists j :: 0 <= j < |bays| && BlankAt(rows, bays, j, start, end))
    decreases |bays| - k
  {
    if k < |bays| {
      if LiftConflict(rows, bays[k], start, end, None) {
        NoBayFound(rows, bays, k + 1, start, end);
      } else {
        assert bays[k] == "" ==> BlankAt(rows, bays, k, start, end);
        forall j | 0 <= j < |bays| && BlankAt(rows, bays, j, start, end) ensures j <= k {
        }
        forall j | 0 <= j < k ensures bays[j] != "" {
          assert LiftConflict(rows, bays[j], start, end, None);
        }
      }
    } else {
      forall j | 0 <= j < |bays| ensures bays[j] != "" {
        assert LiftConflict(rows, bays[j], start, end, None);
      }
    }
  }

  // ---- What each use case answers, in the times and names of the request ------------------------------

  /** The row is neither cancelled nor a no-show, and the half-open slots share an instant; one that ends
      when the other starts does not. */
  predicate Meets(row: Row, start: int, end: int) {
    row.status != Cancelled && row.status != NoShow && row.start < end && start < row.end
  }

  /** The row meets the slot on the mechanic, or on the lift under this name. */
  predicate Holds(row: Row, mechanic: string, lift: string, start: int, end: int) {
    Meets(row, start, end) && ((mechanic != "" && row.mechanic == mechanic) || (lift != "" && row.lift == lift))
  }

  lemma TakenMeans(rows: seq<Row>, name: string, start: int, end: int, except: Option<nat>)
    ensures MechanicTaken(rows, name, start, end, except) <==>
      exists i :: 0 <= i < |rows| && Some(i) != except && rows[i].mechanic == name && Meets(rows[i], start, end)
    ensures LiftTaken(rows, name, start, end, except) <==>
      exists i :: 0 <= i < |rows| && Some(i) != except && rows[i].lift == name && Meets(rows[i], start, end)
  {
    assert forall row: Row :: Busy(row, start, end) <==> Meets(row, start, end);
  }

  predicate SlotHeld(rows: seq<Row>, mechanic: string, lift: string, start: int, end: int, except: Option<nat>) {
    exists i :: 0 <= i < |rows| && Some(i) != except && Holds(rows[i], mechanic, lift, start, end)
  }

  lemma ConflictsMean(rows: seq<Row>, mechanic: string, lift: string, start: int, end: int, except: Option<nat>)
    ensures MechanicConflict(rows, mechanic, start, end, except) || LiftConflict(rows, lift, start, end, except) <==>
      SlotHeld(rows, mechanic, Trim(lift), start, end, except)
    ensures
      || (mechanic != "" && MechanicTaken(rows, mechanic, start, end, except))
      || (lift != "" && LiftTaken(rows, lift, start, end, except))
      <==> SlotHeld(rows, mechanic, lift, start, end, except)
  {
    assert forall row: Row :: Busy(row, start, end) <==> Meets(row, start, end);
  }

  /** A booking by staff for a slot that ends after it starts is refused exactly when an appointment meets
      the slot on the mechanic or on the lift, under the name given or its trimmed form; otherwise it is
      saved as confirmed. A slot that does not end after it starts is refused. */
  lemma CreateRefusedExactly(rows: seq<Row>, mechanic: string, lift: string, start: int, end: int)
    requires WellKept(rows)
    ensures var outcome := Apply(rows, Create(mechanic, lift, start, end));
      if start >= end || SlotHeld(rows, mechanic, lift, start, end, None)
        || SlotHeld(rows, mechanic, Trim(lift), start, end, None)
      then outcome == Refused
      else outcome == Saved(rows + [Row(mechanic, lift, start, end, Confirmed)])
  {
    if start < end {
      ConflictsMean(rows, mechanic, lift, start, end, None);
      CreateNeverFires(rows, Row(mechanic, lift, start, end, Confirmed));
    }
  }

  /** A reschedule is refused exactly when the appointment is completed, cancelled or unknown, or another
      one meets the new slot on the mechanic or on the trimmed lift name, the new names or the old. A new
      slot in order on a trimmed name is then saved, with the status as it was. */
  lemma RescheduleRefusedExactly(
    rows: seq<Row>, i: nat, start: int, end: int, mechanic: Option<string>, lift: Option<string>)
    requires WellKept(rows)
    ensures var outcome := Apply(rows, Reschedule(i, start, end, mechanic, lift));
      if i >= |rows| || rows[i].status == Completed || rows[i].status == Cancelled then outcome == Refused
      else
        var m := if mechanic == None then rows[i].mechanic else mechanic.value;
        var l := if lift == None then rows[i].lift else lift.value;
        && (outcome == Refused <==> SlotHeld(rows, m, Trim(l), start, end, Some(i)))
        && (outcome != Refused && start <= end && Trim(l) == l ==>
          outcome == Saved(rows[i := Row(m, l, start, end, rows[i].status)]))
  {
    if i < |rows| && CanReschedule(rows[i]) {
      var row := Rescheduled(rows[i], start, end, mechanic, lift);
      ConflictsMean(rows, row.mechanic, row.lift, start, end, Some(i));
      if !SlotHeld(rows, row.mechanic, Trim(row.lift), start, end, Some(i))
        && start <= end && Trim(row.lift) == row.lift
      {
        RescheduleNeverFires(rows, i, row);
      }
    }
  }

  predicate FirstUnheld(rows: seq<Row>, bays: seq<string>, k: nat, start: int, end: int)
    requires k < |bays|
  {
    && !SlotHeld(rows, "", bays[k], start, end, None)
    && forall j :: 0 <= j < k ==> SlotHeld(rows, "", bays[j], start, end, None)
  }

  predicate BooksFirst(rows: seq<Row>, bays: seq<string>, start: int, end: int, outcome: Outcome) {
    exists k :: 0 <= k < |bays| && FirstUnheld(rows, bays, k, start, end)
      && outcome == Saved(rows + [Row("", bays[k], start, end, Pending)])
  }

  /** A public booking over named bays is refused exactly when each of them, or of the three standard ones
      if there are none, is met by an appointment; otherwise the first one that is not is booked, as
      pending. */
  lemma PublicRefusedExactly(rows: seq<Row>, online: seq<string>, start: int, end: int)
    requires WellKept(rows) && start < end && NamedBays(BaysFor(online))
    ensures BaysFor(online) ==
      if online != [] then online
      else ["Lift 1 (H\U{131}zl\U{131} Kabul)", "Lift 2 (Mekanik)", "Kabul Alan\U{131}"]
    ensures var bays, outcome := BaysFor(online), Apply(rows, PublicCreate(online, start, end));
      if forall k :: 0 <= k < |bays| ==> SlotHeld(rows, "", bays[k], start, end, None) then outcome == Refused
      else BooksFirst(rows, bays, start, end, outcome)
  {
    var bays := BaysFor(online);
    forall k | 0 <= k < |bays|
      ensures LiftConflict(rows, bays[k], start, end, None) <==> SlotHeld(rows, "", bays[k], start, end, None)
    {
      ConflictsMean(rows, "", bays[k], start, end, None);
    }
    FirstFreeIsFirst(rows, bays, 0, start, end);
    FirstFitIsComplete(rows, online, start, end);
    if !(forall k :: 0 <= k < |bays| ==> SlotHeld(rows, "", bays[k], start, end, None)) {
      var lift := FirstFree(rows, bays, 0, start, end);
      var k :| 0 <= k < |bays| && lift == bays[k] && FirstAt(rows, bays, k, start, end);
      assert FirstUnheld(rows, bays, k, start, end);
    }
  }

  /** The changes of status, each with the states it refuses; none can be stopped but by reactivating. */
  lemma StatusAnswers(rows: seq<Row>, i: nat, status: Status)
    requires WellKept(rows)
    ensures i >= |rows| ==>
      && Apply(rows, Cancel(i)) == Apply(rows, MarkNoShow(i)) == Refused
      && Apply(rows, Approve(i)) == Apply(rows, SetStatus(i, status)) == Refused
    ensures i < |rows| ==>
      var row := rows[i];
      var over := row.status == Completed || row.status == Cancelled;
      && Apply(rows, Cancel(i)) == (if over then Refused else Saved(rows[i := row.(status := Cancelled)]))
      && Apply(rows, MarkNoShow(i)) == (if over then Refused else Saved(rows[i := row.(status := NoShow)]))
      && (row.status == Cancelled ==> Apply(rows, Approve(i)) == Refused)
      && (row.status != Cancelled && row.status != NoShow ==>
        && Apply(rows, Approve(i)) == Saved(rows[i := row.(status := Confirmed)])
        && Apply(rows, SetStatus(i, status)) == Saved(rows[i := row.(status := status)]))
  {
    if i < |rows| {
      StatusNeverFires(rows, i, Cancelled);
      StatusNeverFires(rows, i, NoShow);
      if IsActive(rows[i].status) {
        StatusNeverFires(rows, i, Confirmed);
        StatusNeverFires(rows, i, status);
      }
    }
  }

  /** What lies outside [i, j) is space, and the ends of what lies inside are not. */
  ghost predicate TrimmedTo(space: char -> bool, s: string, i: nat, j: nat) {
    && i <= j <= |s|
    && (forall k :: 0 <= k < |s| && (k < i || k >= j) ==> space(s[k]))
    && (i < j ==> !space(s[i]) && !space(s[j - 1]))
  }

  lemma {:induction false} TrimByMeans(space: char -> bool, s: string) returns (i: nat, j: nat)
    ensures TrimmedTo(space, s, i, j) && TrimBy(space, s) == s[i..j]
    decreases |s|
  {
    if s != "" && space(s[0]) {
      var rest := s[1..];
      i, j := TrimByMeans(space, rest);
      assert forall k :: 0 < k < |s| ==> s[k] == rest[k - 1];
      assert s[i + 1..j + 1] == rest[i..j];
      i, j := i + 1, j + 1;
    } else if s != "" && space(s[|s| - 1]) {
      var rest := s[..|s| - 1];
      i, j := TrimByMeans(space, rest);
      assert forall k :: 0 <= k < |s| - 1 ==> s[k] == rest[k];
      assert s[i..j] == rest[i..j];
    } else {
      i, j := 0, |s|;
    }
  }

  /** Trimming takes away the white space at the two ends and nothing else. */
  lemma TrimMeans(s: string) returns (i: nat, j: nat)
    ensures TrimmedTo(IsSpace, s, i, j) && Trim(s) == s[i..j]
  {
    i, j := TrimByMeans(IsSpace, s);
  }

  // ---- The entity and the repository in place ----------------------------------------------------------

  class AppointmentEntity {
    var mechanic: string
    var lift: string
    var start: int
    var end: int
    var status: Status

    constructor (row: Row)
      ensures ToRow() == row
    {
      mechanic, lift, start, end, status := row.mechanic, row.lift, row.start, row.end, row.status;
    }

    function ToRow(): Row
      reads this
    {
      Row(mechanic, lift, start, end, status)
    }

    predicate HasTimeConflictWith(targetStart: int, targetEnd: int)
      reads this
      ensures HasTimeConflictWith(targetStart, targetEnd) <==> Meets(ToRow(), targetStart, targetEnd)
    {
      if status.Cancelled? || status.NoShow? then false else start < targetEnd && end > targetStart
    }

    method Reschedule(start: int, end: int, mechanic: Option<string>, lift: Option<string>) returns (ok: bool)
      modifies this
      ensures ok == CanReschedule(old(ToRow()))
      ensures ToRow() == if ok then Rescheduled(old(ToRow()), start, end, mechanic, lift) else old(ToRow())
    {
      if status.Completed? || status.Cancelled? {
        return false;
      }
      this.start, this.end := start, end;
      if mechanic.Some? {
        this.mechanic := mechanic.value;
      }
      if lift.Some? {
        this.lift := lift.value;
      }
      return true;
    }

    method Confirm() returns (ok: bool)
      modifies this`status
      ensures ok == !old(status).Cancelled?
      ensures ToRow() == if ok then old(ToRow()).(status := Confirmed) else old(ToRow())
    {
      if status.Cancelled? {
        return false;
      }
      status := Confirmed;
      return true;
    }

    method MarkNoShow() returns (ok: bool)
      modifies this`status
      ensures ok == CanReschedule(old(ToRow()))
      ensures ToRow() == if ok then old(ToRow()).(status := NoShow) else old(ToRow())
    {
      if status.Completed? || status.Cancelled? {
        return false;
      }
      status := NoShow;
      return true;
    }
  }

  class Calendar {
    var rows: seq<Row>

    constructor ()
      ensures rows == [] && WellKept(rows)
    {
      rows := [];
    }

    ghost predicate Left(before: seq<Row>, outcome: Outcome)
      reads this
    {
      rows == if outcome.Saved? then outcome.rows else before
    }

    /** The insert of the repository, with its second round of checks. */
    method Create(row: Row) returns (outcome: Outcome)
      requires WellKept(rows)
      modifies this
      ensures WellKept(rows) && Left(old(rows), outcome)
      ensures outcome == RepositoryCreate(old(rows), row)
    {
      if row.mechanic != "" && MechanicTaken(rows, row.mechanic, row.start, row.end, None) {
        return Refused;
      }
      if row.lift != "" && LiftTaken(rows, row.lift, row.start, row.end, None) {
        return Refused;
      }
      outcome := Insert(rows, row);
      if outcome.Saved? {
        rows := outcome.rows;
      }
    }

    /** The update of the repository: every column is overwritten, whatever it is now. */
    method Save(i: nat, row: Row) returns (outcome: Outcome)
      requires WellKept(rows) && i < |rows|
      modifies this
      ensures WellKept(rows) && Left(old(rows), outcome)
      ensures outcome == Update(old(rows), i, row)
    {
      outcome := Update(rows, i, row);
      if outcome.Saved? {
        rows := outcome.rows;
      }
    }

    /** The loop over the bays, left at the first one without a conflict. */
    method AllocateBay(bays: seq<string>, start: int, end: int) returns (bay: string)
      ensures bay == FirstFree(rows, bays, 0, start, end)
    {
      bay := "";
      for k := 0 to |bays|
        invariant bay == "" && FirstFree(rows, bays, 0, start, end) == FirstFree(rows, bays, k, start, end)
      {
        var conflict := LiftConflict(rows, bays[k], start, end, None);
        if !conflict {
          bay := bays[k];
          break;
        }
      }
    }

    method CreatePublicAppointment(online: seq<string>, start: int, end: int) returns (outcome: Outcome)
      requires WellKept(rows)
      modifies this
      ensures WellKept(rows) && Left(old(rows), outcome)
      ensures outcome == Apply(old(rows), PublicCreate(online, start, end))
    {
      if end <= start {
        return Refused;
      }
      var bays := if |online| > 0 then online else INTAKE_BAYS;
      var bay := AllocateBay(bays, start, end);
      if bay == "" {
        return Refused;
      }
      outcome := Create(Row("", bay, start, end, Pending));
    }

    method RescheduleAppointment(i: nat, start: int, end: int, mechanic: Option<string>, lift: Option<string>)
      returns (outcome: Outcome)
      requires WellKept(rows)
      modifies this
      ensures WellKept(rows) && Left(old(rows), outcome)
      ensures outcome == Apply(old(rows), Op.Reschedule(i, start, end, mechanic, lift))
    {
      if i >= |rows| {
        return Refused;
      }
      var app := new AppointmentEntity(rows[i]);
      if app.status.Completed? || app.status.Cancelled? {
        return Refused;
      }
      var mechanicId := if mechanic.Some? then mechanic.value else app.mechanic;
      var liftName := if lift.Some? then lift.value else app.lift;
      if MechanicConflict(rows, mechanicId, start, end, Some(i)) {
        return Refused;
      }
      if liftName != "" && LiftConflict(rows, liftName, start, end, Some(i)) {
        return Refused;
      }
      var _ := app.Reschedule(start, end, mechanic, lift);
      outcome := Save(i, app.ToRow());
    }
  }
}
