/** The idempotency lock on one Redis key, with time, expiry, failures and interleaved requests.

    Every Redis command and every handler run is a step of its own; a command can fail before or
    after it took effect. Keys do not interact, so one key is modelled; time is in seconds. */
module Idempotency {
  import opened Outcomes

  const LOCK_SECONDS := 60
  const CACHE_SECONDS := 86400

  datatype Value = Processing(hash: nat) | Cached(hash: nat, status: nat, body: nat)

  datatype Entry = Entry(value: Value, expiresAt: int)

  datatype Request = Request(hash: nat, financial: bool)

  datatype Outcome =
    | Unavailable
    | Conflict
    | Replayed(status: nat, body: nat)
    | Executed(locked: bool, status: nat, body: nat)
    | Errored

  datatype Proc =
    | Arrived(req: Request)
    | Reading(req: Request)
    | Handling(req: Request, lockedAt: Option<int>)
    | Caching(req: Request, since: int, status: nat, body: nat)
    | Unlocking(req: Request, since: int)
    | Answered(req: Request, outcome: Outcome)
    | Dead(req: Request)

  datatype Machine = Machine(now: int, entry: Option<Entry>, procs: seq<Proc>)

  const INITIAL := Machine(0, None, [])

  /** What happens to a Redis command: refused up front, carried out, or failing either side. */
  datatype Fate = Down | Works | FailsBefore | FailsAfter

  datatype Handler = Succeeds(status: nat, body: nat) | Throws

  datatype Step =
    | Arrive(req: Request)
    | Tick(seconds: nat)
    | Run(pid: nat, fate: Fate, handler: Handler)
    | Crash(pid: nat)

  predicate Present(entry: Option<Entry>, now: int) {
    entry.Some? && now < entry.value.expiresAt
  }

  predicate Applied(fate: Fate) {
    fate.Works? || fate.FailsAfter?
  }

  /** SET key PROCESSING EX 60 NX. */
  function SetNx(entry: Option<Entry>, now: int, hash: nat): Option<Entry> {
    if Present(entry, now) then entry else Some(Entry(Processing(hash), now + LOCK_SECONDS))
  }

  /** The lock attempt: the key afterwards and where the request goes. */
  function LockStep(entry: Option<Entry>, now: int, req: Request, fate: Fate): (Option<Entry>, Proc) {
    var after := if Applied(fate) then SetNx(entry, now, req.hash) else entry;
    if fate.Works? then
      (after, if Present(entry, now) then Reading(req) else Handling(req, Some(now)))
    else
      (after, if req.financial then Answered(req, Unavailable) else Handling(req, None))
  }

  /** The read after a lost lock attempt; a failed read looks like a missing key. */
  function ReadStep(entry: Option<Entry>, now: int, req: Request, fate: Fate): Outcome {
    if fate.Works? && Present(entry, now) && entry.value.value.Cached? && entry.value.value.hash == req.hash
    then Replayed(entry.value.value.status, entry.value.value.body)
    else Conflict
  }

  function RunProc(m: Machine, pid: nat, fate: Fate, handler: Handler): Machine
    requires pid < |m.procs|
  {
    match m.procs[pid]
    case Arrived(req) =>
      var (entry, proc) := LockStep(m.entry, m.now, req, fate);
      m.(entry := entry, procs := m.procs[pid := proc])
    case Reading(req) => m.(procs := m.procs[pid := Answered(req, ReadStep(m.entry, m.now, req, fate))])
    case Handling(req, lockedAt) =>
      var next := match handler
        case Succeeds(status, body) =>
          if lockedAt.Some? then Caching(req, lockedAt.value, status, body)
          else Answered(req, Executed(false, status, body))
        case Throws => if lockedAt.Some? then Unlocking(req, lockedAt.value) else Answered(req, Errored);
      m.(procs := m.procs[pid := next])
    case Caching(req, _, status, body) =>
      m.(entry := if Applied(fate)
           then Some(Entry(Cached(req.hash, status, body), m.now + CACHE_SECONDS)) else m.entry,
         procs := m.procs[pid := Answered(req, Executed(true, status, body))])
    case Unlocking(req, _) =>
      m.(entry := if Applied(fate) then None else m.entry, procs := m.procs[pid := Answered(req, Errored)])
    case Answered(_, _) => m
    case Dead(_) => m
  }

  function Next(m: Machine, step: Step): Machine {
    match step
    case Arrive(req) => m.(procs := m.procs + [Arrived(req)])
    case Tick(seconds) => m.(now := m.now + seconds)
    case Run(pid, fate, handler) => if pid < |m.procs| then RunProc(m, pid, fate, handler) else m
    case Crash(pid) =>
      if pid < |m.procs| && !m.procs[pid].Answered?
      then m.(procs := m.procs[pid := Dead(m.procs[pid].req)])
      else m
  }

  function Exec(m: Machine, steps: seq<Step>): Machine {
    if steps == [] then m else Next(Exec(m, steps[..|steps| - 1]), steps[|steps| - 1])
  }

  // ---- Holders of the lock ---------------------------------------------------------

  /** A request that took the lock, lives, and has not yet cached its answer or released the key. */
  predicate Active(proc: Proc) {
    (proc.Handling? && proc.lockedAt.Some?) || proc.Caching? || proc.Unlocking?
  }

  function Since(proc: Proc): int
    requires Active(proc)
  {
    if proc.Handling? then proc.lockedAt.value else proc.since
  }

  /** No holder has outlived the 60 seconds of its lock. */
  predicate OnTime(m: Machine) {
    forall p :: 0 <= p < |m.procs| && Active(m.procs[p]) ==> m.now < Since(m.procs[p]) + LOCK_SECONDS
  }

  /** Every state the run passes through, its last one included, is on time. */
  predicate Timely(m: Machine, steps: seq<Step>) {
    && OnTime(Exec(m, steps))
    && (steps != [] ==> Timely(m, steps[..|steps| - 1]))
  }

  ghost predicate LockInv(m: Machine) {
    && (forall p :: 0 <= p < |m.procs| && Active(m.procs[p]) ==>
      m.entry == Some(Entry(Processing(m.procs[p].req.hash), Since(m.procs[p]) + LOCK_SECONDS)))
    && (forall p, q :: 0 <= p < q < |m.procs| && Active(m.procs[p]) ==> !Active(m.procs[q]))
  }

  lemma LockStepKeepsLock(m: Machine, pid: nat, fate: Fate, handler: Handler)
    requires LockInv(m) && OnTime(m) && pid < |m.procs| && m.procs[pid].Arrived?
    ensures LockInv(RunProc(m, pid, fate, handler))
  {
    var m' := RunProc(m, pid, fate, handler);
    forall p | 0 <= p < |m'.procs| && p != pid ensures m'.procs[p] == m.procs[p] {
    }
    if Active(m'.procs[pid]) {
      // The key was free, so nobody on time holds it.
      forall p | 0 <= p < |m.procs| ensures !Active(m.procs[p]) {
      }
    }
  }

  lemma RunKeepsLock(m: Machine, pid: nat, fate: Fate, handler: Handler)
    requires LockInv(m) && pid < |m.procs| && !m.procs[pid].Arrived?
    ensures LockInv(RunProc(m, pid, fate, handler))
  {
    var m' := RunProc(m, pid, fate, handler);
    forall p | 0 <= p < |m'.procs| && p != pid ensures m'.procs[p] == m.procs[p] {
    }
  }

  lemma NextKeepsLock(m: Machine, step: Step)
    requires LockInv(m) && OnTime(m)
    ensures LockInv(Next(m, step))
  {
    match step
    case Run(pid, fate, handler) =>
      if pid < |m.procs| {
        if m.procs[pid].Arrived? {
          LockStepKeepsLock(m, pid, fate, handler);
        } else {
          RunKeepsLock(m, pid, fate, handler);
        }
      }
    case _ =>
  }

  lemma {:induction false} TimelyRunKeepsLock(steps: seq<Step>)
    requires Timely(INITIAL, steps)
    ensures LockInv(Exec(INITIAL, steps))
  {
    if steps != [] {
      TimelyRunKeepsLock(steps[..|steps| - 1]);
      NextKeepsLock(Exec(INITIAL, steps[..|steps| - 1]), steps[|steps| - 1]);
    }
  }

  // ---- Invariants that need no timing ------------------------------------------------

  predicate Produced(m: Machine, hash: nat, status: nat, body: nat) {
    exists p :: 0 <= p < |m.procs| && m.procs[p].Answered?
      && m.procs[p].req.hash == hash && m.procs[p].outcome == Executed(true, status, body)
  }

  /** A financial request is in its handler only with the lock. */
  predicate FailClosed(m: Machine) {
    forall p :: 0 <= p < |m.procs| && m.procs[p].req.financial ==>
      && (m.procs[p].Handling? ==> m.procs[p].lockedAt.Some?)
      && (m.procs[p].Answered? && m.procs[p].outcome.Executed? ==> m.procs[p].outcome.locked)
  }

  /** Whatever is cached or replayed was produced by the handler for an identical request. */
  ghost predicate Provenance(m: Machine) {
    && (m.entry.Some? && m.entry.value.value.Cached? ==>
      Produced(m, m.entry.value.value.hash, m.entry.value.value.status, m.entry.value.value.body))
    && (forall p :: 0 <= p < |m.procs| && m.procs[p].Answered? && m.procs[p].outcome.Replayed? ==>
      Produced(m, m.procs[p].req.hash, m.procs[p].outcome.status, m.procs[p].outcome.body))
  }

  lemma ProducedStays(m: Machine, step: Step, hash: nat, status: nat, body: nat)
    requires Produced(m, hash, status, body)
    ensures Produced(Next(m, step), hash, status, body)
  {
    var p :| 0 <= p < |m.procs| && m.procs[p].Answered?
      && m.procs[p].req.hash == hash && m.procs[p].outcome == Executed(true, status, body);
    assert Next(m, step).procs[p] == m.procs[p];
  }

  lemma NextKeepsProvenance(m: Machine, step: Step)
    requires Provenance(m)
    ensures Provenance(Next(m, step))
  {
    var m' := Next(m, step);
    if m.entry.Some? && m.entry.value.value.Cached? {
      var v := m.entry.value.value;
      ProducedStays(m, step, v.hash, v.status, v.body);
    }
    if step.Run? && step.pid < |m.procs| && m.procs[step.pid].Caching? {
      assert m'.procs[step.pid].outcome == Executed(true, m.procs[step.pid].status, m.procs[step.pid].body);
    }
    forall p | 0 <= p < |m'.procs| && m'.procs[p].Answered? && m'.procs[p].outcome.Replayed?
      ensures Produced(m', m'.procs[p].req.hash, m'.procs[p].outcome.status, m'.procs[p].outcome.body)
    {
      if p < |m.procs| && m.procs[p] == m'.procs[p] {
        ProducedStays(m, step, m.procs[p].req.hash, m.procs[p].outcome.status, m.procs[p].outcome.body);
      }
    }
  }

  lemma {:induction false} EveryRunOk(steps: seq<Step>)
    ensures FailClosed(Exec(INITIAL, steps)) && Provenance(Exec(INITIAL, steps))
  {
    if steps != [] {
      EveryRunOk(steps[..|steps| - 1]);
      NextKeepsProvenance(Exec(INITIAL, steps[..|steps| - 1]), steps[|steps| - 1]);
    }
  }

  // ---- Results -------------------------------------------------------------------------

  /** On time, at most one lock holder exists and at most one financial request is in its
      handler, with Redis failing at any step. */
  lemma AtMostOneInHandler(steps: seq<Step>, p: nat, q: nat)
    requires Timely(INITIAL, steps)
    requires p < |Exec(INITIAL, steps).procs| && q < |Exec(INITIAL, steps).procs|
    ensures var m := Exec(INITIAL, steps);
      && (Active(m.procs[p]) && Active(m.procs[q]) ==> p == q)
      && (m.procs[p].Handling? && m.procs[p].req.financial && m.procs[q].Handling? && m.procs[q].req.financial ==>
        p == q)
  {
    TimelyRunKeepsLock(steps);
    EveryRunOk(steps);
  }

  predicate RedisUp(steps: seq<Step>) {
    forall k :: 0 <= k < |steps| && steps[k].Run? ==> steps[k].fate.Works?
  }

  predicate AllLocked(m: Machine) {
    forall p :: 0 <= p < |m.procs| && m.procs[p].Handling? ==> m.procs[p].lockedAt.Some?
  }

  lemma {:induction false} UpRunsLock(steps: seq<Step>)
    requires RedisUp(steps)
    ensures AllLocked(Exec(INITIAL, steps))
  {
    if steps != [] {
      UpRunsLock(steps[..|steps| - 1]);
    }
  }

  /** With Redis up and every handler and its unlock on time, at most one request of the key is in
      its handler, whatever its route. */
  lemma OneHandlerPerKey(steps: seq<Step>, p: nat, q: nat)
    requires Timely(INITIAL, steps) && RedisUp(steps)
    requires p < |Exec(INITIAL, steps).procs| && q < |Exec(INITIAL, steps).procs|
    ensures var m := Exec(INITIAL, steps); m.procs[p].Handling? && m.procs[q].Handling? ==> p == q
  {
    UpRunsLock(steps);
    TimelyRunKeepsLock(steps);
  }

  /** In any run, late or not and with Redis failing at will: a financial request runs its handler
      only after its own SET NX succeeded, and a replay repeats an execution of the same payload. */
  lemma FinancialRoutesFailClosed(steps: seq<Step>, p: nat)
    requires p < |Exec(INITIAL, steps).procs|
    ensures var m := Exec(INITIAL, steps);
      var proc := m.procs[p];
      && (proc.req.financial && proc.Handling? ==> proc.lockedAt.Some?)
      && (proc.req.financial && proc.Answered? && proc.outcome.Executed? ==> proc.outcome.locked)
      && (proc.Answered? && proc.outcome.Replayed? ==>
        Produced(m, proc.req.hash, proc.outcome.status, proc.outcome.body))
  {
    EveryRunOk(steps);
  }

  /** While an answer is cached, a request is given that answer or a conflict; only if Redis fails it
      may also be refused as unavailable, or run without the lock on a route that allows it. */
  predicate Served(proc: Proc, cached: Value)
    requires cached.Cached?
  {
    match proc
    case Arrived(_) => true
    case Reading(_) => true
    case Handling(req, lockedAt) => lockedAt.None? && !req.financial
    case Answered(req, outcome) =>
      || outcome.Conflict?
      || (outcome == Replayed(cached.status, cached.body) && req.hash == cached.hash)
      || (if req.financial then outcome.Unavailable? else outcome.Errored? || (outcome.Executed? && !outcome.locked))
    case Dead(_) => true
    case _ => false
  }

  ghost predicate Quiet(before: Machine, m: Machine, entry: Entry)
    requires entry.value.Cached?
  {
    && m.entry == Some(entry) && |before.procs| <= |m.procs|
    && forall p :: 0 <= p < |m.procs| ==>
      || Served(m.procs[p], entry.value)
      || (p < |before.procs| && before.procs[p].Answered? && m.procs[p] == before.procs[p])
  }

  lemma QuietStays(before: Machine, m: Machine, entry: Entry, step: Step)
    requires entry.value.Cached? && Quiet(before, m, entry) && m.now < entry.expiresAt
    ensures Quiet(before, Next(m, step), entry)
  {
  }

  lemma TimeOnlyPasses(m: Machine, step: Step)
    ensures m.now <= Next(m, step).now
  {
  }

  lemma {:induction false} QuietRun(before: Machine, entry: Entry, steps: seq<Step>)
    requires entry.value.Cached? && Quiet(before, before, entry)
    requires Exec(before, steps).now < entry.expiresAt
    ensures Quiet(before, Exec(before, steps), entry)
  {
    if steps != [] {
      var front := steps[..|steps| - 1];
      TimeOnlyPasses(Exec(before, front), steps[|steps| - 1]);
      QuietRun(before, entry, front);
      QuietStays(before, Exec(before, front), entry, steps[|steps| - 1]);
    }
  }

  /** The answer of a request that finds the cached value: its status and body for the same payload,
      a conflict for another. */
  function AnswerFrom(cached: Value, hash: nat): Outcome
    requires cached.Cached?
  {
    if cached.hash == hash then Replayed(cached.status, cached.body) else Conflict
  }

  predicate ServedExactly(proc: Proc, cached: Value)
    requires cached.Cached?
  {
    match proc
    case Arrived(_) => true
    case Reading(_) => true
    case Answered(req, outcome) => outcome == AnswerFrom(cached, req.hash)
    case Dead(_) => true
    case _ => false
  }

  /** A request that comes to the key only after the state `before`. */
  predicate Later(before: Machine, p: nat) {
    p >= |before.procs| || before.procs[p].Arrived? || before.procs[p].Reading?
  }

  ghost predicate QuietExactly(before: Machine, m: Machine, entry: Entry)
    requires entry.value.Cached?
  {
    && m.entry == Some(entry) && |before.procs| <= |m.procs|
    && forall p :: 0 <= p < |m.procs| && Later(before, p) ==> ServedExactly(m.procs[p], entry.value)
  }

  lemma QuietExactlyStays(before: Machine, m: Machine, entry: Entry, step: Step)
    requires entry.value.Cached? && QuietExactly(before, m, entry) && m.now < entry.expiresAt
    requires Next(m, step).entry == Some(entry) && (step.Run? ==> step.fate.Works?)
    ensures QuietExactly(before, Next(m, step), entry)
  {
  }

  lemma {:induction false} QuietExactRun(before: Machine, entry: Entry, steps: seq<Step>)
    requires entry.value.Cached? && Quiet(before, before, entry) && RedisUp(steps)
    requires Exec(before, steps).now < entry.expiresAt
    ensures QuietExactly(before, Exec(before, steps), entry)
  {
    if steps != [] {
      var front := steps[..|steps| - 1];
      TimeOnlyPasses(Exec(before, front), steps[|steps| - 1]);
      QuietExactRun(before, entry, front);
      QuietRun(before, entry, steps);
      QuietExactlyStays(before, Exec(before, front), entry, steps[|steps| - 1]);
    }
  }

  /** After a success is cached by an on-time run, and until the entry expires: the entry stays, no
      request holds the lock, and no request not answered before runs its handler under the key; the
      continuation may be late, requests may die and Redis may fail at any step. */
  lemma CachedAnswerIsFinal(steps: seq<Step>, entry: Entry, more: seq<Step>, p: nat)
    requires Timely(INITIAL, steps)
    requires Exec(INITIAL, steps).entry == Some(entry) && entry.value.Cached?
    requires Exec(Exec(INITIAL, steps), more).now < entry.expiresAt
    requires p < |Exec(Exec(INITIAL, steps), more).procs|
    ensures var before := Exec(INITIAL, steps);
      var m := Exec(before, more);
      && m.entry == Some(entry)
      && !Active(m.procs[p])
      && (p >= |before.procs| || !before.procs[p].Answered? ==> Served(m.procs[p], entry.value))
  {
    TimelyRunKeepsLock(steps);
    EveryRunOk(steps);
    var before := Exec(INITIAL, steps);
    QuietRun(before, entry, more);
    if p < |before.procs| && before.procs[p].Answered? {
      AnswersStay(before, more, p);
    }
  }

  /** With Redis up from then on, every later request, on any route and in any interleaving, gets
      exactly the stored status and body for the same payload and a conflict for another, without
      running its handler. */
  lemma CachedAnswerIsGiven(steps: seq<Step>, entry: Entry, more: seq<Step>, p: nat)
    requires Timely(INITIAL, steps) && RedisUp(more)
    requires Exec(INITIAL, steps).entry == Some(entry) && entry.value.Cached?
    requires Exec(Exec(INITIAL, steps), more).now < entry.expiresAt
    requires p < |Exec(Exec(INITIAL, steps), more).procs| && Later(Exec(INITIAL, steps), p)
    ensures var m := Exec(Exec(INITIAL, steps), more);
      && m.entry == Some(entry)
      && !m.procs[p].Handling? && !Active(m.procs[p])
      && (m.procs[p].Answered? ==> m.procs[p].outcome == AnswerFrom(entry.value, m.procs[p].req.hash))
  {
    TimelyRunKeepsLock(steps);
    EveryRunOk(steps);
    QuietExactRun(Exec(INITIAL, steps), entry, more);
  }

  /** A success cached on time answers for 24 hours: within them every later request gets exactly its
      status and body, or a conflict, while Redis is up; and no handler runs under the key again even
      when it is not. */
  lemma AnswerLastsADay(steps: seq<Step>, pid: nat, handler: Handler, more: seq<Step>, p: nat)
    requires pid < |Exec(INITIAL, steps).procs| && Exec(INITIAL, steps).procs[pid].Caching?
    requires var front, cached := Exec(INITIAL, steps), steps + [Run(pid, Works, handler)];
      && Timely(INITIAL, cached)
      && Exec(Exec(INITIAL, cached), more).now < front.now + 24 * 3600
      && p < |Exec(Exec(INITIAL, cached), more).procs|
    ensures var proc := Exec(INITIAL, steps).procs[pid];
      var before := Exec(INITIAL, steps + [Run(pid, Works, handler)]);
      var m := Exec(before, more);
      var value := Cached(proc.req.hash, proc.status, proc.body);
      && m.entry.Some? && m.entry.value.value == value
      && (p >= |before.procs| || !before.procs[p].Answered? ==> Served(m.procs[p], value))
      && (RedisUp(more) && Later(before, p) ==> ServedExactly(m.procs[p], value))
  {
    var cached := steps + [Run(pid, Works, handler)];
    ExecSnoc(INITIAL, steps, Run(pid, Works, handler));
    var entry := Exec(INITIAL, cached).entry.value;
    CachedAnswerIsFinal(cached, entry, more, p);
    if RedisUp(more) && Later(Exec(INITIAL, cached), p) {
      TimelyRunKeepsLock(cached);
      EveryRunOk(cached);
      QuietExactRun(Exec(INITIAL, cached), entry, more);
    }
  }

  lemma {:induction false} AnswersStay(m: Machine, steps: seq<Step>, p: nat)
    requires p < |m.procs| && m.procs[p].Answered?
    ensures p < |Exec(m, steps).procs| && Exec(m, steps).procs[p] == m.procs[p]
  {
    if steps != [] {
      AnswersStay(m, steps[..|steps| - 1], p);
    }
  }

  /** With Redis answering, a request finding a cached answer gets it in two steps: the stored
      status and body for the same payload, a conflict for another, and no handler run. */
  lemma CachedRequestServed(m: Machine, pid: nat, h1: Handler, h2: Handler)
    requires pid < |m.procs| && m.procs[pid].Arrived?
    requires Present(m.entry, m.now) && m.entry.value.value.Cached?
    ensures var req, cached := m.procs[pid].req, m.entry.value.value;
      var m' := Next(Next(m, Run(pid, Works, h1)), Run(pid, Works, h2));
      && m'.entry == m.entry
      && m'.procs[pid] == Answered(req,
        if cached.hash == req.hash then Replayed(cached.status, cached.body) else Conflict)
  {
  }

  /** How one request ends whose steps nothing interrupts, whatever fails. It runs its handler exactly when
      it took the lock, or lost the lock service on an ordinary route; it gets a stored answer exactly when
      it can read one for its own payload; a financial request is refused as unavailable exactly when
      the lock attempt failed; and in every other case it meets a held key and gets a conflict, while
      another request is still being processed as well. */
  lemma RequestAnswers(m: Machine, pid: nat, req: Request, first: Fate, second: Fate, handler: Handler)
    requires pid < |m.procs| && m.procs[pid] == Arrived(req)
    ensures var held := m.entry.Some? && m.now < m.entry.value.expiresAt;
      var m' := Next(Next(Next(m, Run(pid, first, handler)), Run(pid, second, handler)), Run(pid, second, handler));
      m'.procs == m.procs[pid := Answered(req,
        if first != Works && req.financial then Unavailable
        else if first == Works && held then
          if second == Works && m.entry.value.value.Cached? && m.entry.value.value.hash == req.hash
          then Replayed(m.entry.value.value.status, m.entry.value.value.body)
          else Conflict
        else if handler.Succeeds? then Executed(first == Works, handler.status, handler.body)
        else Errored)]
  {
  }

  /** What the request leaves in the key: a held key stays as it is; a free one is taken for 60 seconds by
      an attempt that reached Redis, holds a success for 24 hours from its caching, and is free again
      after a failure, unless that last command did not take effect either. */
  lemma RequestLeavesKey(m: Machine, pid: nat, req: Request, first: Fate, second: Fate, handler: Handler)
    requires pid < |m.procs| && m.procs[pid] == Arrived(req)
    ensures var held := m.entry.Some? && m.now < m.entry.value.expiresAt;
      var reached, settled := first.Works? || first.FailsAfter?, second.Works? || second.FailsAfter?;
      var m' := Next(Next(Next(m, Run(pid, first, handler)), Run(pid, second, handler)), Run(pid, second, handler));
      m'.entry ==
        if held || !reached then m.entry
        else if first == Works && settled then
          if handler.Succeeds? then Some(Entry(Cached(req.hash, handler.status, handler.body), m.now + 24 * 3600))
          else None
        else Some(Entry(Processing(req.hash), m.now + 60))
  {
  }

  // ---- Without the time limit --------------------------------------------------------------

  lemma ExecSnoc(m: Machine, steps: seq<Step>, step: Step)
    ensures Exec(m, steps + [step]) == Next(Exec(m, steps), step)
  {
    assert (steps + [step])[..|steps|] == steps;
  }

  /** A request that arrives s seconds later, while nothing else happened. */
  function Newcomer(m: Machine, s: nat, req: Request, handler: Handler): Machine {
    Next(Next(Next(m, Tick(s)), Arrive(req)), Run(|m.procs|, Works, handler))
  }

  /** In every on-time run, a request that comes while a holder is busy enters its own handler exactly
      when the 60 seconds of the holder's lock have passed; the holder is then still inside. */
  lemma LateHolderLetsIn(steps: seq<Step>, p: nat, s: nat, req: Request, handler: Handler)
    requires Timely(INITIAL, steps)
    requires p < |Exec(INITIAL, steps).procs| && Active(Exec(INITIAL, steps).procs[p])
    ensures var m := Exec(INITIAL, steps);
      var m' := Newcomer(m, s, req, handler);
      && m'.procs[p] == m.procs[p]
      && (m'.procs[|m.procs|].Handling? <==> m.now + s >= Since(m.procs[p]) + 60)
      && (!m'.procs[|m.procs|].Handling? ==> m'.procs[|m.procs|] == Reading(req))
  {
    TimelyRunKeepsLock(steps);
  }

  /** A holder that dies leaves its lock behind: the key stays closed exactly until the 60 seconds
      are over, and then the next request enters. */
  lemma DeadHolderExpires(steps: seq<Step>, p: nat, s: nat, req: Request, handler: Handler)
    requires Timely(INITIAL, steps)
    requires p < |Exec(INITIAL, steps).procs| && Active(Exec(INITIAL, steps).procs[p])
    ensures var m := Exec(INITIAL, steps);
      var m' := Newcomer(Next(m, Crash(p)), s, req, handler);
      && m'.procs[p] == Dead(m.procs[p].req)
      && (m'.procs[|m.procs|].Handling? <==> m.now + s >= Since(m.procs[p]) + 60)
  {
    TimelyRunKeepsLock(steps);
  }

  /** A holder that fails only after a newcomer took over its expired lock unlocks the newcomer's key:
      t seconds into the newcomer's own lock, a third request enters exactly when the unlock took
      effect or the newcomer has become late itself. The newcomer is inside all the while. */
  lemma LateUnlockLetsThirdIn(
    steps: seq<Step>, p: nat, s: nat, t: nat, fate: Fate, second: Request, third: Request, handler: Handler)
    requires Timely(INITIAL, steps)
    requires p < |Exec(INITIAL, steps).procs|
    requires Exec(INITIAL, steps).procs[p].Handling? && Active(Exec(INITIAL, steps).procs[p])
    requires Exec(INITIAL, steps).now + s >= Since(Exec(INITIAL, steps).procs[p]) + LOCK_SECONDS
    ensures var m := Exec(INITIAL, steps);
      var q, taken := |m.procs|, Newcomer(m, s, second, handler);
      var unlocked := Next(Next(Next(taken, Run(p, Works, Throws)), Tick(t)), Run(p, fate, Throws));
      var m' := Newcomer(unlocked, 0, third, handler);
      && taken.procs[q] == Handling(second, Some(m.now + s))
      && m'.procs[p] == Answered(m.procs[p].req, Errored)
      && m'.procs[q] == taken.procs[q]
      && (m'.procs[q + 1].Handling? <==> Applied(fate) || t >= 60)
  {
    var m := Exec(INITIAL, steps);
    var q, taken := |m.procs|, Newcomer(m, s, second, handler);
    LateHolderLetsIn(steps, p, s, second, handler);
    assert taken.entry == Some(Entry(Processing(second.hash), m.now + s + LOCK_SECONDS));
    LateUnlock(taken, p, q, t, fate, third, handler);
  }

  lemma LateUnlock(m: Machine, p: nat, q: nat, t: nat, fate: Fate, third: Request, handler: Handler)
    requires p < q == |m.procs| - 1 && m.procs[p].Handling? && m.procs[p].lockedAt.Some?
    requires m.procs[q].Handling? && m.entry.Some? && m.entry.value.expiresAt == m.now + LOCK_SECONDS
    ensures var unlocked := Next(Next(Next(m, Run(p, Works, Throws)), Tick(t)), Run(p, fate, Throws));
      var m' := Newcomer(unlocked, 0, third, handler);
      && m'.procs[p] == Answered(m.procs[p].req, Errored) && m'.procs[q] == m.procs[q]
      && (m'.procs[q + 1].Handling? <==> Applied(fate) || t >= LOCK_SECONDS)
  {
    var throwing := Next(m, Run(p, Works, Throws));
    assert throwing.procs[p].Unlocking?;
    var unlocked := Next(Next(throwing, Tick(t)), Run(p, fate, Throws));
    assert unlocked.entry == if Applied(fate) then None else m.entry;
  }

  /** One late handler is enough: its lock expires and a second request enters; when the late one
      fails, its unlock removes the second one's lock, and a third enters although the second is
      well within its 60 seconds. */
  lemma LateHandlerLetsOthersIn() returns (steps: seq<Step>)
    ensures var m := Exec(INITIAL, steps);
      && |m.procs| == 3
      && m.procs[0] == Answered(Request(1, true), Errored)
      && m.procs[1] == Handling(Request(1, true), Some(60))
      && m.procs[2] == Handling(Request(1, true), Some(61))
      && m.now == 61
  {
    var req := Request(1, true);
    var script := [
      Arrive(req), Arrive(req), Arrive(req),
      Run(0, Works, Throws), Tick(60), Run(1, Works, Throws), Tick(1),
      Run(0, Works, Throws), Run(0, Works, Throws), Run(2, Works, Throws)];
    var lock0, lock1, lock2 :=
      Some(Entry(Processing(1), 60)), Some(Entry(Processing(1), 120)), Some(Entry(Processing(1), 121));
    var a, h0, h1, h2 := Arrived(req), Handling(req, Some(0)), Handling(req, Some(60)), Handling(req, Some(61));
    var states := [
      INITIAL, Machine(0, None, [a]), Machine(0, None, [a, a]), Machine(0, None, [a, a, a]),
      Machine(0, lock0, [h0, a, a]), Machine(60, lock0, [h0, a, a]), Machine(60, lock1, [h0, h1, a]),
      Machine(61, lock1, [h0, h1, a]), Machine(61, lock1, [Unlocking(req, 0), h1, a]),
      Machine(61, None, [Answered(req, Errored), h1, a]),
      Machine(61, lock2, [Answered(req, Errored), h1, h2])];
    steps := [];
    for k := 0 to 10
      invariant Exec(INITIAL, steps) == states[k]
    {
      ExecSnoc(INITIAL, steps, script[k]);
      assert Next(states[k], script[k]) == states[k + 1];
      steps := steps + [script[k]];
    }
  }

  // ---- The key and the interceptor in place ---------------------------------------------------

  /** The Redis client on one key, with the silent failures of the service around it. */
  class RedisKey {
    var entry: Option<Entry>

    constructor ()
      ensures entry == None
    {
      entry := None;
    }

    /** client.set with NX: None when the command throws. */
    method SetNxEx(hash: nat, now: int, fate: Fate) returns (ok: Option<bool>)
      requires !fate.Down?
      modifies this
      ensures entry == if Applied(fate) then SetNx(old(entry), now, hash) else old(entry)
      ensures ok == if fate.Works? then Some(!Present(old(entry), now)) else None
    {
      var free := !Present(entry, now);
      if Applied(fate) && free {
        entry := Some(Entry(Processing(hash), now + LOCK_SECONDS));
      }
      return if fate.Works? then Some(free) else None;
    }

    /** get: a failure reads as a missing key. */
    method Get(now: int, fate: Fate) returns (value: Option<Value>)
      ensures value == if fate.Works? && Present(entry, now) then Some(entry.value.value) else None
    {
      if fate.Works? && Present(entry, now) {
        return Some(entry.value.value);
      }
      return None;
    }

    /** set with a time to live: false when it failed, which nobody looks at. */
    method Set(value: Value, now: int, seconds: nat, fate: Fate) returns (ok: bool)
      modifies this
      ensures entry == if Applied(fate) then Some(Entry(value, now + seconds)) else old(entry)
      ensures ok <==> fate.Works?
    {
      if Applied(fate) {
        entry := Some(Entry(value, now + seconds));
      }
      return fate.Works?;
    }

    method Del(fate: Fate)
      modifies this
      ensures entry == if Applied(fate) then None else old(entry)
    {
      if Applied(fate) {
        entry := None;
      }
    }

    /** One request from arrival to answer with nothing in between: `first` is the fate of the lock
        attempt, `second` of the read, of the caching or of the unlock, whichever follows. */
    method Intercept(req: Request, now: int, first: Fate, second: Fate, handler: Handler) returns (r: Outcome)
      modifies this
      ensures (entry, r) == InterceptAlone(old(entry), now, req, first, second, handler)
    {
      if first.Down? {
        r := FailOpenOrClosed(req, handler);
        return;
      }
      var locked := SetNxEx(req.hash, now, first);
      if locked.None? {
        r := FailOpenOrClosed(req, handler);
        return;
      }
      if !locked.value {
        var existing := Get(now, second);
        if existing.Some? && existing.value.Cached? && existing.value.hash == req.hash {
          return Replayed(existing.value.status, existing.value.body);
        }
        return Conflict;
      }
      match handler {
        case Succeeds(status, body) =>
          var _ := Set(Cached(req.hash, status, body), now, CACHE_SECONDS, second);
          return Executed(true, status, body);
        case Throws =>
          Del(second);
          return Errored;
      }
    }

    /** No lock service: a financial request is refused, another runs unprotected. */
    method FailOpenOrClosed(req: Request, handler: Handler) returns (r: Outcome)
      ensures r == WithoutLock(req, handler)
    {
      if req.financial {
        return Unavailable;
      }
      match handler {
        case Succeeds(status, body) => return Executed(false, status, body);
        case Throws => return Errored;
      }
    }
  }

  function WithoutLock(req: Request, handler: Handler): Outcome {
    if req.financial then Unavailable
    else match handler
      case Succeeds(status, body) => Executed(false, status, body)
      case Throws => Errored
  }

  function InterceptAlone(
    entry: Option<Entry>, now: int, req: Request, first: Fate, second: Fate, handler: Handler): (Option<Entry>, Outcome)
  {
    var after := if Applied(first) then SetNx(entry, now, req.hash) else entry;
    if !first.Works? then (after, WithoutLock(req, handler))
    else if Present(entry, now) then (after, ReadStep(after, now, req, second))
    else match handler
      case Succeeds(status, body) =>
        (if Applied(second) then Some(Entry(Cached(req.hash, status, body), now + CACHE_SECONDS)) else after,
         Executed(true, status, body))
      case Throws => (if Applied(second) then None else after, Errored)
  }

  /** The steps of the machine, run back to back, are the interceptor run alone. */
  lemma MachineRunsInterceptor(m: Machine, pid: nat, req: Request, first: Fate, second: Fate, handler: Handler)
    requires pid < |m.procs| && m.procs[pid] == Arrived(req)
    ensures var more := Run(pid, second, handler);
      var m' := Next(Next(Next(m, Run(pid, first, handler)), more), more);
      var (entry, outcome) := InterceptAlone(m.entry, m.now, req, first, second, handler);
      m'.entry == entry && m'.procs[pid] == Answered(req, outcome)
  {
  }
}
