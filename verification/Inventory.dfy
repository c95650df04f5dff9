/** Stock of one product: the quantity column, the movement log, and when they agree. */
module Inventory {
  import opened Outcomes
  import opened Sums

  datatype Kind = InPurchase | OutWorkOrder | Adjustment | Return

  datatype Movement = Movement(kind: Kind, quantity: int)

  datatype Stock = Stock(quantity: int, log: seq<Movement>)

  /** What a movement does to a quantity; an adjustment states the new quantity. */
  function Effect(kind: Kind, quantity: int, before: int): int {
    match kind
    case InPurchase => before + quantity
    case Return => before + quantity
    case OutWorkOrder => before - quantity
    case Adjustment => quantity
  }

  /** The quantity after the first n entries of the log. */
  function ReplayTo(log: seq<Movement>, n: nat): int
    requires n <= |log|
  {
    if n == 0 then 0 else Effect(log[n - 1].kind, log[n - 1].quantity, ReplayTo(log, n - 1))
  }

  function Replay(log: seq<Movement>): int {
    ReplayTo(log, |log|)
  }

  lemma {:induction false} ReplayPrefix(log: seq<Movement>, m: Movement, n: nat)
    requires n <= |log|
    ensures ReplayTo(log + [m], n) == ReplayTo(log, n)
  {
    if n > 0 {
      ReplayPrefix(log, m, n - 1);
    }
  }

  lemma {:induction false} ReplaySnoc(log: seq<Movement>, m: Movement)
    ensures Replay(log + [m]) == Effect(m.kind, m.quantity, Replay(log))
  {
    ReplayPrefix(log, m, |log|);
  }

  // ---- Serial operations -----------------------------------------------------------

  datatype Op = Decrement(quantity: int) | Increment(quantity: int) | AddMovement(kind: Kind, quantity: int)

  function Opening(quantity: int): Stock {
    Stock(quantity, if quantity > 0 then [Movement(InPurchase, quantity)] else [])
  }

  predicate CanDecrement(stock: int, quantity: int) {
    quantity > 0 && stock >= quantity
  }

  /** The entity step of a manual movement: None when it refuses. */
  function Moved(stock: int, kind: Kind, quantity: int): Option<int> {
    match kind
    case OutWorkOrder => if CanDecrement(stock, quantity) then Some(stock - quantity) else None
    case InPurchase => if quantity > 0 then Some(stock + quantity) else None
    case Return => if quantity > 0 then Some(stock + quantity) else None
    case Adjustment => Some(quantity)
  }

  /** The guarded update of the quantity column with its movement, in one transaction. */
  function DecrementRow(s: Stock, quantity: int): Option<Stock> {
    if s.quantity >= quantity
    then Some(Stock(s.quantity - quantity, s.log + [Movement(OutWorkOrder, quantity)]))
    else None
  }

  function IncrementRow(s: Stock, quantity: int): Stock {
    Stock(s.quantity + quantity, s.log + [Movement(Return, quantity)])
  }

  function Apply(s: Stock, op: Op): Option<Stock> {
    match op
    case Decrement(q) => if CanDecrement(s.quantity, q) then DecrementRow(s, q) else None
    case Increment(q) => if q > 0 then Some(IncrementRow(s, q)) else None
    case AddMovement(kind, q) =>
      var moved := Moved(s.quantity, kind, q);
      if moved.Some? then Some(Stock(moved.value, s.log + [Movement(kind, q)])) else None
  }

  function Run(opening: int, ops: seq<Op>): Stock {
    if ops == [] then Opening(opening)
    else
      var before := Run(opening, ops[..|ops| - 1]);
      var after := Apply(before, ops[|ops| - 1]);
      if after.Some? then after.value else before
  }

  /** Quantities as the request validation admits them. */
  predicate Admitted(op: Op) {
    op.quantity >= 0
  }

  /** In every serial run the log replays to the quantity column, which never goes negative. */
  lemma {:induction false} LogReplaysToStock(opening: int, ops: seq<Op>)
    requires opening >= 0 && forall k :: 0 <= k < |ops| ==> Admitted(ops[k])
    ensures Replay(Run(opening, ops).log) == Run(opening, ops).quantity >= 0
  {
    if ops == [] {
      var log := Opening(opening).log;
      if opening > 0 {
        ReplaySnoc([], log[0]);
        assert [] + [log[0]] == log;
      }
    } else {
      var before, op := Run(opening, ops[..|ops| - 1]), ops[|ops| - 1];
      LogReplaysToStock(opening, ops[..|ops| - 1]);
      ReplaySnoc(before.log, Movement(OutWorkOrder, op.quantity));
      ReplaySnoc(before.log, Movement(Return, op.quantity));
      if op.AddMovement? {
        ReplaySnoc(before.log, Movement(op.kind, op.quantity));
      }
    }
  }

  /** Which operations refuse, and what the others leave: an exit takes at most what is in stock, the last
      piece included, an entry adds what is positive, an adjustment replaces, and each logs its own kind. */
  lemma OperationLeaves(opening: int, ops: seq<Op>, op: Op)
    ensures var s := Run(opening, ops);
      Run(opening, ops + [op]) ==
        match op
        case Decrement(q) =>
          if 0 < q <= s.quantity then Stock(s.quantity - q, s.log + [Movement(OutWorkOrder, q)]) else s
        case Increment(q) => if 0 < q then Stock(s.quantity + q, s.log + [Movement(Return, q)]) else s
        case AddMovement(OutWorkOrder, q) =>
          if 0 < q <= s.quantity then Stock(s.quantity - q, s.log + [Movement(OutWorkOrder, q)]) else s
        case AddMovement(InPurchase, q) =>
          if 0 < q then Stock(s.quantity + q, s.log + [Movement(InPurchase, q)]) else s
        case AddMovement(Return, q) => if 0 < q then Stock(s.quantity + q, s.log + [Movement(Return, q)]) else s
        case AddMovement(Adjustment, q) => Stock(q, s.log + [Movement(Adjustment, q)])
  {
    assert (ops + [op])[..|ops|] == ops;
  }

  /** The whole stock can be taken out, once; one piece more never. */
  lemma LastPieceGoesOut(opening: int, ops: seq<Op>, q: int, more: nat)
    requires Run(opening, ops).quantity == q > 0
    ensures var out := AddMovement(OutWorkOrder, q);
      && Run(opening, ops + [out]).quantity == 0
      && Run(opening, ops + [out] + [out]) == Run(opening, ops + [out])
      && Run(opening, ops + [AddMovement(OutWorkOrder, q + 1 + more)]) == Run(opening, ops)
  {
    OperationLeaves(opening, ops, AddMovement(OutWorkOrder, q));
    OperationLeaves(opening, ops + [AddMovement(OutWorkOrder, q)], AddMovement(OutWorkOrder, q));
    OperationLeaves(opening, ops, AddMovement(OutWorkOrder, q + 1 + more));
  }

  // ---- Interleaved requests --------------------------------------------------------------

  /** A decrement or an increment looks at the stock first and updates it later. A manual movement is
      three separate accesses: it reads the quantity (`seen`), saves the whole column from what it read
      (`target`), and appends its log entry. `found`, what the save overwrote, is history. */
  datatype Proc =
    | DecStart(quantity: int)
    | DecUpdate(quantity: int)
    | Decremented(quantity: int)
    | IncStart(quantity: int)
    | IncUpdate(quantity: int)
    | Incremented(quantity: int)
    | MoveStart(kind: Kind, quantity: int)
    | MoveSave(kind: Kind, quantity: int, seen: int, target: int)
    | MoveLog(kind: Kind, quantity: int, seen: int, target: int, found: int)
    | Logged(kind: Kind, quantity: int, seen: int, target: int, found: int)
    | Dropped(kind: Kind, quantity: int, seen: int, target: int, found: int)
    | Refused

  datatype Machine = Machine(stock: Stock, procs: seq<Proc>)

  /** A request that crashes between its save and its log entry leaves the save behind. */
  datatype Step = Start(proc: Proc) | Advance(pid: nat) | Crash(pid: nat)

  predicate Enters(proc: Proc) {
    proc.DecStart? || proc.IncStart? || proc.MoveStart?
  }

  function SaveColumn(s: Stock, quantity: int): Stock {
    s.(quantity := quantity)
  }

  function AppendLog(s: Stock, kind: Kind, quantity: int): Stock {
    s.(log := s.log + [Movement(kind, quantity)])
  }

  function AdvanceProc(s: Stock, proc: Proc): (Stock, Proc) {
    match proc
    case DecStart(q) => (s, if CanDecrement(s.quantity, q) then DecUpdate(q) else Refused)
    case DecUpdate(q) =>
      var after := DecrementRow(s, q);
      if after.Some? then (after.value, Decremented(q)) else (s, Refused)
    case IncStart(q) => (s, if q > 0 then IncUpdate(q) else Refused)
    case IncUpdate(q) => (IncrementRow(s, q), Incremented(q))
    case MoveStart(kind, q) =>
      var moved := Moved(s.quantity, kind, q);
      (s, if moved.Some? then MoveSave(kind, q, s.quantity, moved.value) else Refused)
    case MoveSave(kind, q, seen, target) => (SaveColumn(s, target), MoveLog(kind, q, seen, target, s.quantity))
    case MoveLog(kind, q, seen, target, found) => (AppendLog(s, kind, q), Logged(kind, q, seen, target, found))
    case _ => (s, proc)
  }

  function CrashProc(proc: Proc): Proc {
    match proc
    case MoveLog(kind, q, seen, target, found) => Dropped(kind, q, seen, target, found)
    case DecStart(_) => Refused
    case DecUpdate(_) => Refused
    case IncStart(_) => Refused
    case IncUpdate(_) => Refused
    case MoveStart(_, _) => Refused
    case MoveSave(_, _, _, _) => Refused
    case _ => proc
  }

  function Next(m: Machine, step: Step): Machine {
    match step
    case Start(proc) => if Enters(proc) then m.(procs := m.procs + [proc]) else m
    case Advance(pid) =>
      if pid < |m.procs| then
        var (stock, proc) := AdvanceProc(m.stock, m.procs[pid]);
        Machine(stock, m.procs[pid := proc])
      else m
    case Crash(pid) => if pid < |m.procs| then m.(procs := m.procs[pid := CrashProc(m.procs[pid])]) else m
  }

  function Initial(opening: int): Machine {
    Machine(Opening(opening), [])
  }

  function Exec(m: Machine, steps: seq<Step>): Machine {
    if steps == [] then m else Next(Exec(m, steps[..|steps| - 1]), steps[|steps| - 1])
  }

  // ---- A request that nothing interrupts ----------------------------------------------------

  /** The stock after an operation that may refuse. */
  function After(s: Stock, op: Op): Stock {
    var after := Apply(s, op);
    if after.Some? then after.value else s
  }

  lemma DecrementAlone(m: Machine, q: int)
    ensures var pid, op := |m.procs|, Decrement(q);
      Next(Next(Next(m, Start(DecStart(q))), Advance(pid)), Advance(pid)) ==
        Machine(After(m.stock, op), m.procs + [if Apply(m.stock, op).Some? then Decremented(q) else Refused])
  {
    var pid := |m.procs|;
    var looked := Next(Next(m, Start(DecStart(q))), Advance(pid));
    assert looked.procs == m.procs + [if CanDecrement(m.stock.quantity, q) then DecUpdate(q) else Refused];
  }

  lemma IncrementAlone(m: Machine, q: int)
    ensures var pid, op := |m.procs|, Increment(q);
      Next(Next(Next(m, Start(IncStart(q))), Advance(pid)), Advance(pid)) ==
        Machine(After(m.stock, op), m.procs + [if Apply(m.stock, op).Some? then Incremented(q) else Refused])
  {
    var pid := |m.procs|;
    var looked := Next(Next(m, Start(IncStart(q))), Advance(pid));
    assert looked.procs == m.procs + [if q > 0 then IncUpdate(q) else Refused];
  }

  lemma MovementAlone(m: Machine, kind: Kind, q: int)
    ensures var pid, op, read := |m.procs|, AddMovement(kind, q), Next(m, Start(MoveStart(kind, q)));
      Next(Next(Next(read, Advance(pid)), Advance(pid)), Advance(pid)) ==
        Machine(After(m.stock, op), m.procs + [
          if Apply(m.stock, op).Some?
          then Logged(kind, q, m.stock.quantity, After(m.stock, op).quantity, m.stock.quantity) else Refused])
  {
    var pid, s := |m.procs|, m.stock;
    var moved := Moved(s.quantity, kind, q);
    var read := Next(Next(m, Start(MoveStart(kind, q))), Advance(pid));
    assert read.procs == m.procs + [if moved.Some? then MoveSave(kind, q, s.quantity, moved.value) else Refused];
    if moved.Some? {
      var saved := Next(read, Advance(pid));
      assert saved.procs == m.procs + [MoveLog(kind, q, s.quantity, moved.value, s.quantity)];
      assert Next(saved, Advance(pid)).procs
        == m.procs + [Logged(kind, q, s.quantity, moved.value, s.quantity)];
    }
  }

  // ---- What each request did to the column and to the log -----------------------------------

  /** By how much a request moved the quantity column. */
  function Gain(): Proc -> int {
    (proc: Proc) =>
      match proc
      case Incremented(q) => q
      case Decremented(q) => -q
      case MoveLog(_, _, _, target, found) => target - found
      case Logged(_, _, _, target, found) => target - found
      case Dropped(_, _, _, target, found) => target - found
      case _ => 0
  }

  /** By how much a manual movement put the column ahead of the log: what it saved and has not logged,
      less the change it overwrote. */
  function Debt(): Proc -> int {
    (proc: Proc) =>
      match proc
      case MoveLog(_, _, seen, target, found) => (target - seen) - (found - seen)
      case Dropped(_, _, seen, target, found) => (target - seen) - (found - seen)
      case Logged(kind, _, seen, _, found) => if kind.Adjustment? then 0 else -(found - seen)
      case _ => 0
  }

  /** The change that the save of a finished manual movement overwrote: the column as the save found it
      against the column as it had been read. */
  function Overwritten(): Proc -> int {
    (proc: Proc) => if proc.Logged? && !proc.kind.Adjustment? then proc.found - proc.seen else 0
  }

  /** How far the quantity column is ahead of the log. */
  function Gap(s: Stock): int {
    s.quantity - Replay(s.log)
  }

  predicate ProcOk(proc: Proc) {
    match proc
    case DecUpdate(q) => q > 0
    case IncUpdate(q) => q > 0
    case MoveStart(_, q) => q >= 0
    case MoveSave(kind, q, seen, target) => target == Effect(kind, q, seen) >= 0
    case MoveLog(kind, q, seen, target, _) => target == Effect(kind, q, seen) >= 0
    case _ => true
  }

  /** Quantities of manual movements as the request validation admits them. */
  predicate AdmittedSteps(steps: seq<Step>) {
    forall k :: 0 <= k < |steps| && steps[k].Start? ==> ProcOk(steps[k].proc)
  }

  predicate LogsAdjustment(m: Machine, step: Step) {
    step.Advance? && step.pid < |m.procs| && m.procs[step.pid].MoveLog? && m.procs[step.pid].kind.Adjustment?
  }

  /** No adjustment writes its log entry during the run; it may read or save. */
  predicate NoAdjustmentLogged(m: Machine, steps: seq<Step>) {
    steps != [] ==>
      && NoAdjustmentLogged(m, steps[..|steps| - 1])
      && !LogsAdjustment(Exec(m, steps[..|steps| - 1]), steps[|steps| - 1])
  }

  ghost predicate MachineOk(m: Machine) {
    m.stock.quantity >= 0 && forall p :: 0 <= p < |m.procs| ==> ProcOk(m.procs[p])
  }

  /** One access of a request: the column moves by what the request gained and, unless it is the log
      entry of an adjustment, runs ahead of the log by the debt it took on. The log entry of an
      adjustment makes the log say exactly the adjusted quantity. */
  lemma {:induction false} AdvanceOne(s: Stock, proc: Proc)
    requires ProcOk(proc) && s.quantity >= 0
    ensures var (stock, next) := AdvanceProc(s, proc);
      && stock.quantity - s.quantity == Gain()(next) - Gain()(proc)
      && (if proc.MoveLog? && proc.kind.Adjustment?
          then stock.quantity == s.quantity && Gap(stock) == s.quantity - proc.quantity
          else Gap(stock) - Gap(s) == Debt()(next) - Debt()(proc))
      && ProcOk(next) && stock.quantity >= 0
  {
    match proc
    case DecUpdate(q) => ReplaySnoc(s.log, Movement(OutWorkOrder, q));
    case IncUpdate(q) => ReplaySnoc(s.log, Movement(Return, q));
    case MoveLog(kind, q, _, _, _) => ReplaySnoc(s.log, Movement(kind, q));
    case _ =>
  }

  /** What a step does to the sums over all requests, given what it did to one of them. */
  ghost predicate Moves(m: Machine, m': Machine) {
    && m'.stock.quantity - m.stock.quantity == SumBy(m'.procs, Gain()) - SumBy(m.procs, Gain())
    && Gap(m'.stock) - Gap(m.stock) == SumBy(m'.procs, Debt()) - SumBy(m.procs, Debt())
  }

  lemma {:induction false} StartMoves(m: Machine, proc: Proc)
    requires Enters(proc)
    ensures Moves(m, m.(procs := m.procs + [proc]))
  {
    SumAppend(m.procs, proc, Gain());
    SumAppend(m.procs, proc, Debt());
  }

  lemma {:induction false} CrashMoves(m: Machine, pid: nat)
    requires pid < |m.procs|
    ensures Moves(m, Next(m, Crash(pid)))
  {
    SumUpdate(m.procs, pid, CrashProc(m.procs[pid]), Gain());
    SumUpdate(m.procs, pid, CrashProc(m.procs[pid]), Debt());
  }

  lemma {:induction false} AdvanceMoves(m: Machine, pid: nat)
    requires m.stock.quantity >= 0 && pid < |m.procs| && ProcOk(m.procs[pid])
    ensures var m' := Next(m, Advance(pid));
      && m'.stock.quantity >= 0 && ProcOk(m'.procs[pid])
      && m'.stock.quantity - m.stock.quantity == SumBy(m'.procs, Gain()) - SumBy(m.procs, Gain())
      && (!LogsAdjustment(m, Advance(pid)) ==> Moves(m, m'))
  {
    var next := AdvanceProc(m.stock, m.procs[pid]).1;
    AdvanceOne(m.stock, m.procs[pid]);
    SumUpdate(m.procs, pid, next, Gain());
    SumUpdate(m.procs, pid, next, Debt());
  }

  lemma {:induction false} StepMoves(m: Machine, step: Step)
    requires MachineOk(m) && (step.Start? ==> ProcOk(step.proc))
    ensures var m' := Next(m, step);
      && MachineOk(m')
      && m'.stock.quantity - m.stock.quantity == SumBy(m'.procs, Gain()) - SumBy(m.procs, Gain())
      && (!LogsAdjustment(m, step) ==> Moves(m, m'))
  {
    match step
    case Start(proc) =>
      if Enters(proc) {
        StartMoves(m, proc);
      }
    case Advance(pid) =>
      if pid < |m.procs| {
        AdvanceMoves(m, pid);
      }
    case Crash(pid) =>
      if pid < |m.procs| {
        assert ProcOk(m.procs[pid]);
        CrashMoves(m, pid);
      }
  }

  lemma AdmittedPrefix(steps: seq<Step>)
    requires AdmittedSteps(steps) && steps != []
    ensures AdmittedSteps(steps[..|steps| - 1])
  {
    forall k | 0 <= k < |steps| - 1 && steps[k].Start? ensures ProcOk(steps[..|steps| - 1][k].proc) {
    }
  }

  /** The gap moves by the debts taken on and paid off, from any state and in any interleaving. */
  lemma {:induction false} RunMoves(m: Machine, steps: seq<Step>)
    requires MachineOk(m) && AdmittedSteps(steps)
    ensures var m' := Exec(m, steps);
      && MachineOk(m')
      && m'.stock.quantity - m.stock.quantity == SumBy(m'.procs, Gain()) - SumBy(m.procs, Gain())
      && (NoAdjustmentLogged(m, steps) ==>
        Gap(m'.stock) - Gap(m.stock) == SumBy(m'.procs, Debt()) - SumBy(m.procs, Debt()))
  {
    if steps != [] {
      var front, step := steps[..|steps| - 1], steps[|steps| - 1];
      AdmittedPrefix(steps);
      RunMoves(m, front);
      StepMoves(Exec(m, front), step);
    }
  }

  lemma {:induction false} InitialOk(opening: int)
    requires opening >= 0
    ensures MachineOk(Initial(opening)) && Gap(Initial(opening).stock) == 0
  {
    LogReplaysToStock(opening, []);
  }

  // ---- Results for every run -------------------------------------------------------------------

  predicate IsManual(proc: Proc) {
    proc.MoveStart? || proc.MoveSave? || proc.MoveLog? || proc.Logged? || proc.Dropped?
  }

  /** Decrements and increments only. */
  predicate AtomicSteps(steps: seq<Step>) {
    forall k :: 0 <= k < |steps| && steps[k].Start? ==> !IsManual(steps[k].proc)
  }

  lemma {:induction false} AtomicRun(m: Machine, steps: seq<Step>)
    requires AtomicSteps(steps) && forall p :: 0 <= p < |m.procs| ==> !IsManual(m.procs[p])
    ensures forall p :: 0 <= p < |Exec(m, steps).procs| ==> !IsManual(Exec(m, steps).procs[p])
    ensures NoAdjustmentLogged(m, steps)
  {
    if steps != [] {
      AtomicRun(m, steps[..|steps| - 1]);
    }
  }

  /** However the requests interleave and however stale their first look was: the stock is the opening
      quantity plus what each request gained and never negative; and in a run of decrements and
      increments alone the log replays to it. */
  lemma {:induction false} StockConserved(opening: int, steps: seq<Step>)
    requires opening >= 0 && AdmittedSteps(steps)
    ensures var m := Exec(Initial(opening), steps);
      && m.stock.quantity == opening + SumBy(m.procs, Gain())
      && m.stock.quantity >= 0
      && (AtomicSteps(steps) ==> Replay(m.stock.log) == m.stock.quantity)
  {
    var m := Exec(Initial(opening), steps);
    InitialOk(opening);
    RunMoves(Initial(opening), steps);
    if AtomicSteps(steps) {
      AtomicRun(Initial(opening), steps);
      SumZero(m.procs, Debt());
    }
  }

  /** In every run in which no adjustment is logged, with any number of manual movements in flight, the
      column is ahead of the log by what they saved and have not logged, less what they overwrote. */
  lemma {:induction false} GapIsDebt(opening: int, steps: seq<Step>)
    requires opening >= 0 && AdmittedSteps(steps) && NoAdjustmentLogged(Initial(opening), steps)
    ensures var m := Exec(Initial(opening), steps); m.stock.quantity - Replay(m.stock.log) == SumBy(m.procs, Debt())
  {
    InitialOk(opening);
    RunMoves(Initial(opening), steps);
  }

  /** No request is between its save and its log entry, or died there. */
  predicate Settled(m: Machine) {
    forall p :: 0 <= p < |m.procs| ==> !m.procs[p].MoveLog? && !m.procs[p].Dropped?
  }

  lemma {:induction false} SettledDebt(m: Machine)
    requires Settled(m)
    ensures SumBy(m.procs, Debt()) == -SumBy(m.procs, Overwritten())
  {
    var nothing: Proc -> int := (proc: Proc) => 0;
    forall p | 0 <= p < |m.procs| ensures nothing(m.procs[p]) == Debt()(m.procs[p]) + Overwritten()(m.procs[p]) {
      assert !m.procs[p].MoveLog? && !m.procs[p].Dropped?;
    }
    SumSplit(m.procs, nothing, Debt(), Overwritten());
    SumZero(m.procs, nothing);
  }

  /** In every such run, once all manual movements have finished, the log replays to the column exactly
      when the changes their saves overwrote add up to nothing, and else is ahead by what they add up to. */
  lemma {:induction false} ManualMovementsAgree(opening: int, steps: seq<Step>)
    requires opening >= 0 && AdmittedSteps(steps) && NoAdjustmentLogged(Initial(opening), steps)
    requires Settled(Exec(Initial(opening), steps))
    ensures var m := Exec(Initial(opening), steps);
      && Replay(m.stock.log) - m.stock.quantity == SumBy(m.procs, Overwritten())
      && (Replay(m.stock.log) == m.stock.quantity <==> SumBy(m.procs, Overwritten()) == 0)
  {
    GapIsDebt(opening, steps);
    SettledDebt(Exec(Initial(opening), steps));
  }

  predicate LeavesAlone(steps: seq<Step>, pid: nat) {
    forall k :: 0 <= k < |steps| ==> steps[k] != Advance(pid) && steps[k] != Crash(pid)
  }

  lemma {:induction false} LeftAlone(m: Machine, steps: seq<Step>, pid: nat)
    requires pid < |m.procs| && LeavesAlone(steps, pid)
    ensures pid < |Exec(m, steps).procs| && Exec(m, steps).procs[pid] == m.procs[pid]
  {
    if steps != [] {
      LeftAlone(m, steps[..|steps| - 1], pid);
      assert steps[|steps| - 1] != Advance(pid) && steps[|steps| - 1] != Crash(pid);
    }
  }

  /** An adjustment hides what happened to the column between its save and its log entry, whoever did
      it: when it is logged the log is behind the column by exactly that, whatever the gap was before. */
  lemma {:induction false} AdjustmentHidesWindow(m: Machine, pid: nat, window: seq<Step>)
    requires MachineOk(m) && AdmittedSteps(window) && LeavesAlone(window, pid)
    requires pid < |m.procs| && m.procs[pid].MoveSave? && m.procs[pid].kind.Adjustment?
    ensures var saved := Next(m, Advance(pid));
      var before := Exec(saved, window);
      var after := Next(before, Advance(pid)).stock;
      && LogsAdjustment(before, Advance(pid))
      && after.quantity == before.stock.quantity
      && after.quantity - Replay(after.log) == before.stock.quantity - saved.stock.quantity
  {
    var saved := Next(m, Advance(pid));
    assert ProcOk(m.procs[pid]);
    StepMoves(m, Advance(pid));
    LeftAlone(saved, window, pid);
    RunMoves(saved, window);
    var before := Exec(saved, window);
    AdvanceOne(before.stock, before.procs[pid]);
  }

  /** From the log entry of an adjustment on, the gap is what that entry left plus the debts taken on
      since: every run is one without logged adjustments, or ends like this after the last of them. */
  lemma {:induction false} GapSinceAdjustment(m: Machine, pid: nat, more: seq<Step>)
    requires MachineOk(m) && LogsAdjustment(m, Advance(pid)) && AdmittedSteps(more)
    requires NoAdjustmentLogged(Next(m, Advance(pid)), more)
    ensures var logged := Next(m, Advance(pid));
      var after := Exec(logged, more);
      var left := m.stock.quantity - m.procs[pid].quantity;
      var since := SumBy(after.procs, Debt()) - SumBy(logged.procs, Debt());
      && after.stock.quantity - Replay(after.stock.log) == left + since
      && (Replay(after.stock.log) == after.stock.quantity <==> left + since == 0)
  {
    StepMoves(m, Advance(pid));
    assert ProcOk(m.procs[pid]);
    AdvanceOne(m.stock, m.procs[pid]);
    RunMoves(Next(m, Advance(pid)), more);
  }

  // ---- Three runs --------------------------------------------------------------------------------

  lemma {:induction false} RunScript(m: Machine, script: seq<Step>, states: seq<Machine>)
    requires |states| == |script| + 1 && states[0] == m
    requires forall k :: 0 <= k < |script| ==> Next(states[k], script[k]) == states[k + 1]
    ensures Exec(m, script) == states[|script|]
  {
    if script != [] {
      var last := |script| - 1;
      RunScript(m, script[..last], states[..|script|]);
      assert Next(states[last], script[last]) == states[last + 1];
    }
  }

  /** Ten in stock; a manual exit of 3 reads 10; a work order takes 5; the exit then saves 7. */
  lemma {:induction false} LostDecrement()
    ensures var run := [Start(MoveStart(OutWorkOrder, 3)), Advance(0), Start(DecStart(5)), Advance(1), Advance(1),
        Advance(0), Advance(0)];
      var after := Exec(Initial(10), run).stock;
      after.quantity == 7 && Replay(after.log) == 2
  {
    var run := [Start(MoveStart(OutWorkOrder, 3)), Advance(0), Start(DecStart(5)), Advance(1), Advance(1),
      Advance(0), Advance(0)];
    var bought := Movement(InPurchase, 10);
    var taken := [bought, Movement(OutWorkOrder, 5)];
    var moved := [bought, Movement(OutWorkOrder, 5), Movement(OutWorkOrder, 3)];
    var read, saved := MoveSave(OutWorkOrder, 3, 10, 7), MoveLog(OutWorkOrder, 3, 10, 7, 5);
    var states := [
      Machine(Stock(10, [bought]), []),
      Machine(Stock(10, [bought]), [MoveStart(OutWorkOrder, 3)]),
      Machine(Stock(10, [bought]), [read]),
      Machine(Stock(10, [bought]), [read, DecStart(5)]),
      Machine(Stock(10, [bought]), [read, DecUpdate(5)]),
      Machine(Stock(5, taken), [read, Decremented(5)]),
      Machine(Stock(7, taken), [saved, Decremented(5)]),
      Machine(Stock(7, moved), [Logged(OutWorkOrder, 3, 10, 7, 5), Decremented(5)])];
    RunScript(Initial(10), run, states);
    assert ReplayTo(moved, 1) == 10 && ReplayTo(moved, 2) == 5;
  }

  /** Ten in stock; an adjustment saves 20; a work order takes 5; the adjustment is then logged as 20. */
  lemma {:induction false} AdjustmentHidesDecrement()
    ensures var run := [Start(MoveStart(Adjustment, 20)), Advance(0), Advance(0), Start(DecStart(5)), Advance(1),
        Advance(1), Advance(0)];
      var after := Exec(Initial(10), run).stock;
      after.quantity == 15 && Replay(after.log) == 20
  {
    var run := [Start(MoveStart(Adjustment, 20)), Advance(0), Advance(0), Start(DecStart(5)), Advance(1),
      Advance(1), Advance(0)];
    var bought := Movement(InPurchase, 10);
    var taken := [bought, Movement(OutWorkOrder, 5)];
    var saved := MoveLog(Adjustment, 20, 10, 20, 10);
    var states := [
      Machine(Stock(10, [bought]), []),
      Machine(Stock(10, [bought]), [MoveStart(Adjustment, 20)]),
      Machine(Stock(10, [bought]), [MoveSave(Adjustment, 20, 10, 20)]),
      Machine(Stock(20, [bought]), [saved]),
      Machine(Stock(20, [bought]), [saved, DecStart(5)]),
      Machine(Stock(20, [bought]), [saved, DecUpdate(5)]),
      Machine(Stock(15, taken), [saved, Decremented(5)]),
      Machine(Stock(15, taken + [Movement(Adjustment, 20)]), [Logged(Adjustment, 20, 10, 20, 10), Decremented(5)])];
    RunScript(Initial(10), run, states);
  }

  function TwoExits(): seq<Step> {
    [Start(MoveStart(OutWorkOrder, 3)), Advance(0), Start(DecStart(3)), Advance(1), Advance(1),
     Start(MoveStart(OutWorkOrder, 1)), Advance(2), Advance(0), Advance(2), Advance(0), Advance(2)]
  }

  lemma {:induction false} TwoExitsRun()
    ensures Exec(Initial(10), TwoExits()).stock == Stock(6, [
      Movement(InPurchase, 10), Movement(OutWorkOrder, 3), Movement(OutWorkOrder, 3), Movement(OutWorkOrder, 1)])
  {
    var bought, out3, out1 := Movement(InPurchase, 10), Movement(OutWorkOrder, 3), Movement(OutWorkOrder, 1);
    var b, bSaved := MoveSave(OutWorkOrder, 3, 10, 7), MoveLog(OutWorkOrder, 3, 10, 7, 7);
    var a, aSaved := MoveSave(OutWorkOrder, 1, 7, 6), MoveLog(OutWorkOrder, 1, 7, 6, 7);
    var bLogged, aLogged, d := Logged(OutWorkOrder, 3, 10, 7, 7), Logged(OutWorkOrder, 1, 7, 6, 7), Decremented(3);
    var states := [
      Machine(Stock(10, [bought]), []),
      Machine(Stock(10, [bought]), [MoveStart(OutWorkOrder, 3)]),
      Machine(Stock(10, [bought]), [b]),
      Machine(Stock(10, [bought]), [b, DecStart(3)]),
      Machine(Stock(10, [bought]), [b, DecUpdate(3)]),
      Machine(Stock(7, [bought, out3]), [b, d]),
      Machine(Stock(7, [bought, out3]), [b, d, MoveStart(OutWorkOrder, 1)]),
      Machine(Stock(7, [bought, out3]), [b, d, a]),
      Machine(Stock(7, [bought, out3]), [bSaved, d, a]),
      Machine(Stock(6, [bought, out3]), [bSaved, d, aSaved]),
      Machine(Stock(6, [bought, out3, out3]), [bLogged, d, aSaved]),
      Machine(Stock(6, [bought, out3, out3, out1]), [bLogged, d, aLogged])];
    RunScript(Initial(10), TwoExits(), states);
  }

  /** Ten in stock; an exit of 3 reads 10; a work order takes 3; an exit of 1 reads 7; both save, 7 and
      then 6, and both are logged. The second exit saw nothing change, and still the log is off. */
  lemma {:induction false} TwoExitsLoseDecrement()
    ensures var after := Exec(Initial(10), TwoExits()).stock; after.quantity == 6 && Replay(after.log) == 3
  {
    TwoExitsRun();
    var log := Exec(Initial(10), TwoExits()).stock.log;
    assert ReplayTo(log, 1) == 10 && ReplayTo(log, 2) == 7 && ReplayTo(log, 3) == 4;
  }

  // ---- The entity and the repository in place ---------------------------------------------

  class StockItemEntity {
    var stockQuantity: int

    constructor (quantity: int)
      ensures stockQuantity == quantity
    {
      stockQuantity := quantity;
    }

    method Decrement(quantity: int) returns (ok: bool)
      modifies this
      ensures ok <==> 0 < quantity <= old(stockQuantity)
      ensures stockQuantity == if ok then old(stockQuantity) - quantity else old(stockQuantity)
    {
      if quantity <= 0 || !CanDecrement(stockQuantity, quantity) {
        return false;
      }
      stockQuantity := stockQuantity - quantity;
      return true;
    }

    method Increment(quantity: int) returns (ok: bool)
      modifies this
      ensures ok <==> quantity > 0
      ensures stockQuantity == if ok then old(stockQuantity) + quantity else old(stockQuantity)
    {
      if quantity <= 0 {
        return false;
      }
      stockQuantity := stockQuantity + quantity;
      return true;
    }
  }

  class Product {
    var stockQuantity: int
    var movements: seq<Movement>

    constructor (opening: int)
      requires opening >= 0
      ensures Valid() && stockQuantity == opening
      ensures opening > 0 ==> movements == [Movement(InPurchase, opening)]
      ensures opening == 0 ==> movements == []
      ensures State() == Opening(opening)
    {
      stockQuantity := opening;
      movements := if opening > 0 then [Movement(InPurchase, opening)] else [];
      new;
      LogReplaysToStock(opening, []);
    }

    ghost function State(): Stock
      reads this
    {
      Stock(stockQuantity, movements)
    }

    ghost predicate Valid()
      reads this
    {
      Replay(movements) == stockQuantity >= 0
    }

    method DecrementAtomic(quantity: int) returns (ok: bool)
      requires Valid()
      modifies this
      ensures Valid()
      ensures ok <==> old(stockQuantity) >= quantity
      ensures if ok then DecrementRow(old(State()), quantity) == Some(State()) else State() == old(State())
    {
      if !(stockQuantity >= quantity) {
        return false;
      }
      stockQuantity := stockQuantity - quantity;
      ReplaySnoc(movements, Movement(OutWorkOrder, quantity));
      movements := movements + [Movement(OutWorkOrder, quantity)];
      return true;
    }

    method IncrementAtomic(quantity: int)
      requires Valid()
      modifies this
      ensures State() == IncrementRow(old(State()), quantity)
      ensures quantity > 0 ==> Valid()
    {
      stockQuantity := stockQuantity + quantity;
      ReplaySnoc(movements, Movement(Return, quantity));
      movements := movements + [Movement(Return, quantity)];
    }

    method SaveQuantity(quantity: int)
      modifies this`stockQuantity
      ensures State() == SaveColumn(old(State()), quantity)
    {
      stockQuantity := quantity;
    }

    method AppendMovement(kind: Kind, quantity: int)
      modifies this`movements
      ensures State() == AppendLog(old(State()), kind, quantity)
    {
      movements := movements + [Movement(kind, quantity)];
    }

    /** The manual movement: load, change the entity, save the column, append the movement. */
    method AddStockMovement(kind: Kind, quantity: int) returns (ok: bool)
      requires Valid() && quantity >= 0
      modifies this
      ensures Valid()
      ensures ok <==> Apply(old(State()), AddMovement(kind, quantity)).Some?
      ensures if ok then Apply(old(State()), AddMovement(kind, quantity)) == Some(State()) else State() == old(State())
    {
      var item := new StockItemEntity(stockQuantity);
      match kind {
        case OutWorkOrder => ok := item.Decrement(quantity);
        case InPurchase => ok := item.Increment(quantity);
        case Return => ok := item.Increment(quantity);
        case Adjustment =>
          item.stockQuantity := quantity;
          ok := true;
      }
      if !ok {
        return;
      }
      ReplaySnoc(movements, Movement(kind, quantity));
      SaveQuantity(item.stockQuantity);
      AppendMovement(kind, quantity);
    }
  }
}
