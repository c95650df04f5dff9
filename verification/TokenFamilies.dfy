/** Refresh token rotation: logins, refreshes and logouts interleaved query by query.

    A refresh is five separate steps: verify the signature and its expiry, read the row, claim it with
    a conditional update, look up the user, insert the successor. Row ids are positions in the table,
    family ids count up. */
module TokenFamilies {
  import opened Outcomes
  import opened Sums

  /** parent is the token this one was rotated from; the table does not store it. The same instant is
      signed into the token as its expiry and stored in the row. */
  datatype Token = Token(family: nat, revoked: bool, expiresAt: int, parent: Option<nat>)

  const THIRTY_DAYS := 30 * 24 * 3600

  datatype Proc =
    | Login
    | Refresh(token: nat)
    | Lookup(token: nat)
    | Claim(token: nat, family: nat)
    | CheckUser(token: nat, family: nat)
    | Insert(token: nat, family: nat)
    | Logout(token: nat)
    | RevokeAll(family: nat)
    | LoggedIn(token: nat)
    | Refreshed(token: nat, successor: nat)
    | LoggedOut
    | Denied(claimed: Option<nat>)

  datatype Machine = Machine(tokens: seq<Token>, families: nat, procs: seq<Proc>)

  const INITIAL := Machine([], 0, [])

  /** Run carries the clock and whether the user and tenant are active at that moment. */
  datatype Step = Start(proc: Proc) | Run(pid: nat, now: int, active: bool) | Crash(pid: nat)

  function RevokeFamily(tokens: seq<Token>, f: nat): (r: seq<Token>)
    ensures |r| == |tokens|
  {
    seq(|tokens|, i requires 0 <= i < |tokens| =>
      if tokens[i].family == f then tokens[i].(revoked := true) else tokens[i])
  }

  /** The token a process has claimed, if it got that far. */
  function Claimed(proc: Proc): Option<nat> {
    match proc
    case CheckUser(t, _) => Some(t)
    case Insert(t, _) => Some(t)
    case Refreshed(t, _) => Some(t)
    case Denied(claimed) => claimed
    case _ => None
  }

  /** What one query changes: the table, the next family id, and where the process is. */
  function RunProc(m: Machine, pid: nat, now: int, active: bool): Machine
    requires pid < |m.procs|
  {
    match m.procs[pid]
    case Login =>
      Machine(m.tokens + [Token(m.families, false, now + THIRTY_DAYS, None)], m.families + 1,
        m.procs[pid := LoggedIn(|m.tokens|)])
    case Refresh(t) =>
      if t >= |m.tokens| || m.tokens[t].expiresAt <= now then m.(procs := m.procs[pid := Denied(None)])
      else m.(procs := m.procs[pid := Lookup(t)])
    case Lookup(t) =>
      if t >= |m.tokens| then m.(procs := m.procs[pid := Denied(None)])
      else if m.tokens[t].revoked || m.tokens[t].expiresAt <= now
      then m.(procs := m.procs[pid := RevokeAll(m.tokens[t].family)])
      else m.(procs := m.procs[pid := Claim(t, m.tokens[t].family)])
    case Claim(t, f) =>
      if t >= |m.tokens| || m.tokens[t].revoked then m.(procs := m.procs[pid := Denied(None)])
      else Machine(m.tokens[t := m.tokens[t].(revoked := true)], m.families, m.procs[pid := CheckUser(t, f)])
    case CheckUser(t, f) => m.(procs := m.procs[pid := if active then Insert(t, f) else Denied(Some(t))])
    case Insert(t, f) =>
      Machine(m.tokens + [Token(f, false, now + THIRTY_DAYS, Some(t))], m.families,
        m.procs[pid := Refreshed(t, |m.tokens|)])
    case Logout(t) =>
      m.(procs := m.procs[pid := if t < |m.tokens| then RevokeAll(m.tokens[t].family) else LoggedOut])
    case RevokeAll(f) => m.(tokens := RevokeFamily(m.tokens, f), procs := m.procs[pid := Denied(None)])
    case _ => m
  }

  predicate Enters(proc: Proc) {
    proc.Login? || proc.Refresh? || proc.Logout?
  }

  function Next(m: Machine, step: Step): Machine {
    match step
    case Start(proc) => if Enters(proc) then m.(procs := m.procs + [proc]) else m
    case Run(pid, now, active) => if pid < |m.procs| then RunProc(m, pid, now, active) else m
    case Crash(pid) =>
      if pid < |m.procs| && !m.procs[pid].Refreshed?
      then m.(procs := m.procs[pid := Denied(Claimed(m.procs[pid]))])
      else m
  }

  function Exec(m: Machine, steps: seq<Step>): Machine {
    if steps == [] then m else Next(Exec(m, steps[..|steps| - 1]), steps[|steps| - 1])
  }

  lemma ExecSnoc(m: Machine, steps: seq<Step>, step: Step)
    ensures Exec(m, steps + [step]) == Next(Exec(m, steps), step)
  {
    assert (steps + [step])[..|steps|] == steps;
  }

  // ---- Counting -------------------------------------------------------------------

  function IsLive(f: nat): Token -> int {
    (token: Token) => if token.family == f && !token.revoked then 1 else 0
  }

  function IsInFlight(f: nat): Proc -> int {
    (proc: Proc) => if (proc.CheckUser? || proc.Insert?) && proc.family == f then 1 else 0
  }

  function Live(m: Machine, f: nat): int {
    SumBy(m.tokens, IsLive(f))
  }

  /** Refreshes of a family that have claimed a token and not yet inserted its successor. */
  function InFlight(m: Machine, f: nat): int {
    SumBy(m.procs, IsInFlight(f))
  }

  // ---- The invariant -----------------------------------------------------------------

  ghost predicate Conserved(m: Machine) {
    forall f: nat :: Live(m, f) + InFlight(m, f) <= (if f < m.families then 1 else 0)
  }

  predicate ProcOk(m: Machine, proc: Proc) {
    match proc
    case Claim(t, f) => t < |m.tokens| && m.tokens[t].family == f
    case CheckUser(t, f) => t < |m.tokens| && m.tokens[t].family == f && m.tokens[t].revoked
    case Insert(t, f) => t < |m.tokens| && m.tokens[t].family == f && m.tokens[t].revoked
    case Refreshed(t, s) => t < s < |m.tokens| && m.tokens[s].parent == Some(t) && m.tokens[t].revoked
    case RevokeAll(f) => f < m.families
    case Denied(claimed) => claimed.Some? ==> claimed.value < |m.tokens| && m.tokens[claimed.value].revoked
    case _ => true
  }

  ghost predicate ProcsOk(m: Machine) {
    && (forall p :: 0 <= p < |m.procs| ==> ProcOk(m, m.procs[p]))
    && (forall p, q :: 0 <= p < q < |m.procs| && Claimed(m.procs[p]).Some? ==>
      Claimed(m.procs[p]) != Claimed(m.procs[q]))
  }

  predicate ParentOk(tokens: seq<Token>, i: nat)
    requires i < |tokens|
  {
    tokens[i].parent.Some? ==>
      var t := tokens[i].parent.value; t < i && tokens[t].family == tokens[i].family && tokens[t].revoked
  }

  /** A family is a chain: one root, every other token the only successor of an earlier revoked one. */
  ghost predicate Chained(m: Machine) {
    && (forall i :: 0 <= i < |m.tokens| ==> m.tokens[i].family < m.families)
    && (forall i :: 0 <= i < |m.tokens| ==> ParentOk(m.tokens, i))
    && (forall i, j :: 0 <= i < j < |m.tokens| && m.tokens[i].parent == m.tokens[j].parent ==>
      m.tokens[i].parent.None? && m.tokens[i].family != m.tokens[j].family)
  }

  /** Every successor was inserted by the refresh that claimed its parent. */
  ghost predicate Inserted(m: Machine) {
    forall i :: 0 <= i < |m.tokens| && m.tokens[i].parent.Some? ==>
      exists p :: 0 <= p < |m.procs| && m.procs[p] == Refreshed(m.tokens[i].parent.value, i)
  }

  ghost predicate Inv(m: Machine) {
    Conserved(m) && ProcsOk(m) && Chained(m) && Inserted(m)
  }

  lemma {:induction false} RevokedCount(tokens: seq<Token>, f: nat, g: nat)
    ensures SumBy(RevokeFamily(tokens, f), IsLive(g)) == if f == g then 0 else SumBy(tokens, IsLive(g))
  {
    if tokens != [] {
      var last := |tokens| - 1;
      assert RevokeFamily(tokens, f)[..last] == RevokeFamily(tokens[..last], f);
      RevokedCount(tokens[..last], f, g);
    }
  }

  /** How one query moves the two counters of a family. */
  lemma CountsMove(m: Machine, pid: nat, now: int, active: bool, f: nat)
    requires pid < |m.procs| && ProcOk(m, m.procs[pid])
    ensures var m' := RunProc(m, pid, now, active);
      var proc := m.procs[pid];
      && InFlight(m', f) == InFlight(m, f) - IsInFlight(f)(proc) + IsInFlight(f)(m'.procs[pid])
      && Live(m', f) ==
        if proc.Login? then Live(m, f) + (if f == m.families then 1 else 0)
        else if proc.Claim? && m'.procs[pid].CheckUser? then Live(m, f) - (if f == proc.family then 1 else 0)
        else if proc.Insert? then Live(m, f) + (if f == proc.family then 1 else 0)
        else if proc.RevokeAll? && f == proc.family then 0
        else Live(m, f)
  {
    var m', proc := RunProc(m, pid, now, active), m.procs[pid];
    SumUpdate(m.procs, pid, m'.procs[pid], IsInFlight(f));
    if proc.Login? || proc.Insert? {
      SumAppend(m.tokens, m'.tokens[|m.tokens|], IsLive(f));
    } else if proc.Claim? && m'.procs[pid].CheckUser? {
      SumUpdate(m.tokens, proc.token, m'.tokens[proc.token], IsLive(f));
    } else if proc.RevokeAll? {
      RevokedCount(m.tokens, proc.family, f);
    }
  }

  lemma LiveNonNegative(m: Machine, f: nat)
    ensures Live(m, f) >= 0 && InFlight(m, f) >= 0
  {
    SumNonNegative(m.tokens, IsLive(f));
    SumNonNegative(m.procs, IsInFlight(f));
  }

  lemma RunConserves(m: Machine, pid: nat, now: int, active: bool)
    requires Conserved(m) && pid < |m.procs| && ProcOk(m, m.procs[pid])
    ensures Conserved(RunProc(m, pid, now, active))
  {
    var m' := RunProc(m, pid, now, active);
    forall f: nat ensures Live(m', f) + InFlight(m', f) <= (if f < m'.families then 1 else 0) {
      assert Live(m, f) + InFlight(m, f) <= (if f < m.families then 1 else 0);
      CountsMove(m, pid, now, active, f);
      LiveNonNegative(m, f);
    }
  }

  /** Rows are never removed, never moved to another family and never un-revoked. */
  ghost predicate Grows(m: Machine, m': Machine) {
    && |m.tokens| <= |m'.tokens| && m.families <= m'.families
    && forall i :: 0 <= i < |m.tokens| ==>
      && m'.tokens[i].family == m.tokens[i].family && m'.tokens[i].parent == m.tokens[i].parent
      && (m.tokens[i].revoked ==> m'.tokens[i].revoked)
  }

  lemma RunGrows(m: Machine, pid: nat, now: int, active: bool)
    requires pid < |m.procs|
    ensures Grows(m, RunProc(m, pid, now, active))
  {
  }

  lemma ProcOkStable(m: Machine, m': Machine, proc: Proc)
    requires Grows(m, m') && ProcOk(m, proc)
    ensures ProcOk(m', proc)
  {
  }

  /** The process that ran: what it has claimed now was its own before, or was not revoked yet. */
  lemma RunnerOk(m: Machine, pid: nat, now: int, active: bool)
    requires Chained(m) && pid < |m.procs| && ProcOk(m, m.procs[pid])
    ensures var m' := RunProc(m, pid, now, active);
      var was, claimed := Claimed(m.procs[pid]), Claimed(m'.procs[pid]);
      && ProcOk(m', m'.procs[pid])
      && (claimed.Some? ==> claimed == was || (claimed.value < |m.tokens| && !m.tokens[claimed.value].revoked))
  {
  }

  lemma ClaimedIsRevoked(m: Machine, proc: Proc)
    requires ProcOk(m, proc) && Claimed(proc).Some?
    ensures Claimed(proc).value < |m.tokens| && m.tokens[Claimed(proc).value].revoked
  {
  }

  lemma RunKeepsProcs(m: Machine, pid: nat, now: int, active: bool)
    requires ProcsOk(m) && Chained(m) && pid < |m.procs|
    ensures ProcsOk(RunProc(m, pid, now, active))
  {
    var m' := RunProc(m, pid, now, active);
    RunGrows(m, pid, now, active);
    RunnerOk(m, pid, now, active);
    assert forall p :: 0 <= p < |m.procs| && p != pid ==> m'.procs[p] == m.procs[p];
    forall p | 0 <= p < |m'.procs| ensures ProcOk(m', m'.procs[p]) {
      if p != pid {
        ProcOkStable(m, m', m.procs[p]);
      }
    }
    forall p | 0 <= p < |m.procs| && p != pid && Claimed(m.procs[p]).Some?
      ensures Claimed(m.procs[p]) != Claimed(m'.procs[pid])
    {
      ClaimedIsRevoked(m, m.procs[p]);
    }
  }

  lemma RunKeepsInserted(m: Machine, pid: nat, now: int, active: bool)
    requires Inserted(m) && pid < |m.procs|
    ensures Inserted(RunProc(m, pid, now, active))
  {
    var m', proc := RunProc(m, pid, now, active), m.procs[pid];
    RunGrows(m, pid, now, active);
    forall i | 0 <= i < |m'.tokens| && m'.tokens[i].parent.Some?
      ensures exists p :: 0 <= p < |m'.procs| && m'.procs[p] == Refreshed(m'.tokens[i].parent.value, i)
    {
      if i < |m.tokens| {
        var p :| 0 <= p < |m.procs| && m.procs[p] == Refreshed(m.tokens[i].parent.value, i);
        assert m'.procs[p] == m.procs[p];
      } else {
        assert m'.procs[pid] == Refreshed(proc.token, i);
      }
    }
  }

  lemma ChainGrows(m: Machine, m': Machine)
    requires Chained(m) && Grows(m, m') && |m'.tokens| <= |m.tokens| + 1
    requires |m'.tokens| > |m.tokens| ==>
      var added := m'.tokens[|m.tokens|];
      && added.family < m'.families
      && (added.parent.None? ==> added.family == m.families)
      && (added.parent.Some? ==>
        && added.parent.value < |m.tokens|
        && m.tokens[added.parent.value].family == added.family && m.tokens[added.parent.value].revoked
        && forall i :: 0 <= i < |m.tokens| ==> m.tokens[i].parent != added.parent)
    ensures Chained(m')
  {
    forall i | 0 <= i < |m'.tokens| ensures ParentOk(m'.tokens, i) {
      assert i < |m.tokens| ==> ParentOk(m.tokens, i);
    }
  }

  lemma RunKeepsChain(m: Machine, pid: nat, now: int, active: bool)
    requires ProcsOk(m) && Chained(m) && Inserted(m) && pid < |m.procs|
    ensures Chained(RunProc(m, pid, now, active))
  {
    var m', proc := RunProc(m, pid, now, active), m.procs[pid];
    assert ProcOk(m, proc);
    RunGrows(m, pid, now, active);
    if proc.Insert? {
      forall i | 0 <= i < |m.tokens| && m.tokens[i].parent.Some? ensures m.tokens[i].parent != Some(proc.token) {
        var p :| 0 <= p < |m.procs| && m.procs[p] == Refreshed(m.tokens[i].parent.value, i);
        assert Claimed(m.procs[p]) == m.tokens[i].parent;
      }
    }
    ChainGrows(m, m');
  }

  lemma NextKeeps(m: Machine, step: Step)
    requires Inv(m)
    ensures Inv(Next(m, step))
  {
    var m' := Next(m, step);
    match step
    case Start(proc) =>
      if Enters(proc) {
        ArrivalKeeps(m, proc);
      }
    case Run(pid, now, active) =>
      if pid < |m.procs| {
        assert ProcOk(m, m.procs[pid]);
        RunConserves(m, pid, now, active);
        RunKeepsProcs(m, pid, now, active);
        RunKeepsInserted(m, pid, now, active);
        RunKeepsChain(m, pid, now, active);
      }
    case Crash(pid) =>
      if pid < |m.procs| && !m.procs[pid].Refreshed? {
        CrashKeeps(m, pid);
      }
  }

  lemma ArrivalKeeps(m: Machine, proc: Proc)
    requires Inv(m) && Enters(proc)
    ensures Inv(m.(procs := m.procs + [proc]))
  {
    var m' := m.(procs := m.procs + [proc]);
    forall f: nat ensures Live(m', f) + InFlight(m', f) <= (if f < m.families then 1 else 0) {
      SumAppend(m.procs, proc, IsInFlight(f));
      assert Live(m, f) + InFlight(m, f) <= (if f < m.families then 1 else 0);
    }
    forall p | 0 <= p < |m'.procs| ensures ProcOk(m', m'.procs[p]) {
      assert p < |m.procs| ==> ProcOk(m, m.procs[p]);
    }
    forall i | 0 <= i < |m.tokens| && m.tokens[i].parent.Some?
      ensures exists p :: 0 <= p < |m'.procs| && m'.procs[p] == Refreshed(m.tokens[i].parent.value, i)
    {
      var p :| 0 <= p < |m.procs| && m.procs[p] == Refreshed(m.tokens[i].parent.value, i);
      assert m'.procs[p] == m.procs[p];
    }
  }

  lemma CrashKeeps(m: Machine, pid: nat)
    requires Inv(m) && pid < |m.procs| && !m.procs[pid].Refreshed?
    ensures Inv(m.(procs := m.procs[pid := Denied(Claimed(m.procs[pid]))]))
  {
    var m' := m.(procs := m.procs[pid := Denied(Claimed(m.procs[pid]))]);
    forall f: nat ensures Live(m', f) + InFlight(m', f) <= (if f < m.families then 1 else 0) {
      SumUpdate(m.procs, pid, m'.procs[pid], IsInFlight(f));
      assert Live(m, f) + InFlight(m, f) <= (if f < m.families then 1 else 0);
    }
    forall p | 0 <= p < |m'.procs| ensures ProcOk(m', m'.procs[p]) {
      assert ProcOk(m, m.procs[p]);
    }
    forall i | 0 <= i < |m.tokens| && m.tokens[i].parent.Some?
      ensures exists p :: 0 <= p < |m'.procs| && m'.procs[p] == Refreshed(m.tokens[i].parent.value, i)
    {
      var p :| 0 <= p < |m.procs| && m.procs[p] == Refreshed(m.tokens[i].parent.value, i);
      assert m'.procs[p] == m.procs[p];
    }
  }

  lemma {:induction false} EveryRunOk(steps: seq<Step>)
    ensures Inv(Exec(INITIAL, steps))
  {
    if steps != [] {
      EveryRunOk(steps[..|steps| - 1]);
      NextKeeps(Exec(INITIAL, steps[..|steps| - 1]), steps[|steps| - 1]);
    }
  }

  // ---- Results ----------------------------------------------------------------------

  /** In every run a family has at most one live token or one refresh between claim and insert. */
  lemma RotationConserves(steps: seq<Step>, f: nat)
    ensures var m := Exec(INITIAL, steps);
      0 <= Live(m, f) && 0 <= InFlight(m, f) && Live(m, f) + InFlight(m, f) <= 1
  {
    EveryRunOk(steps);
    LiveNonNegative(Exec(INITIAL, steps), f);
  }

  /** A token is claimed by at most one refresh, has at most one successor, and a live token has none. */
  lemma RotatedAtMostOnce(steps: seq<Step>, t: nat)
    requires t < |Exec(INITIAL, steps).tokens|
    ensures var m := Exec(INITIAL, steps);
      && (forall p, q :: 0 <= p < q < |m.procs| && Claimed(m.procs[p]) == Some(t) ==> Claimed(m.procs[q]) != Some(t))
      && (forall i, j :: 0 <= i < j < |m.tokens| && m.tokens[i].parent == Some(t) ==> m.tokens[j].parent != Some(t))
      && (forall i :: 0 <= i < |m.tokens| && m.tokens[i].parent == Some(t) ==>
        m.tokens[t].revoked && m.tokens[i].family == m.tokens[t].family)
  {
    EveryRunOk(steps);
    var m := Exec(INITIAL, steps);
    forall i | 0 <= i < |m.tokens| && m.tokens[i].parent == Some(t)
      ensures m.tokens[t].revoked && m.tokens[i].family == m.tokens[t].family
    {
      assert ParentOk(m.tokens, i);
    }
  }

  predicate Dead(m: Machine, f: nat) {
    f < m.families && Live(m, f) == 0 && InFlight(m, f) == 0
  }

  lemma DeadRunStaysDead(m: Machine, pid: nat, now: int, active: bool, f: nat)
    requires pid < |m.procs| && ProcOk(m, m.procs[pid]) && Dead(m, f)
    ensures Dead(RunProc(m, pid, now, active), f)
  {
    CountsMove(m, pid, now, active, f);
    LiveNonNegative(RunProc(m, pid, now, active), f);
    RowAtMostSum(m.procs, pid, IsInFlight(f));
    RunGrows(m, pid, now, active);
    if m.procs[pid].Claim? && m.procs[pid].family == f {
      RowAtMostSum(m.tokens, m.procs[pid].token, IsLive(f));
    }
  }

  lemma DeadStaysDead(m: Machine, step: Step, f: nat)
    requires ProcsOk(m) && Dead(m, f)
    ensures Dead(Next(m, step), f)
  {
    match step
    case Start(proc) =>
      if Enters(proc) {
        SumAppend(m.procs, proc, IsInFlight(f));
      }
    case Run(pid, now, active) =>
      if pid < |m.procs| {
        DeadRunStaysDead(m, pid, now, active, f);
      }
    case Crash(pid) =>
      if pid < |m.procs| {
        SumUpdate(m.procs, pid, Denied(Claimed(m.procs[pid])), IsInFlight(f));
        RowAtMostSum(m.procs, pid, IsInFlight(f));
      }
  }

  lemma {:induction false} DeadForGood(m: Machine, steps: seq<Step>, f: nat)
    requires Inv(m) && Dead(m, f)
    ensures Inv(Exec(m, steps)) && Dead(Exec(m, steps), f)
  {
    if steps != [] {
      DeadForGood(m, steps[..|steps| - 1], f);
      var before := Exec(m, steps[..|steps| - 1]);
      DeadStaysDead(before, steps[|steps| - 1], f);
      NextKeeps(before, steps[|steps| - 1]);
    }
  }

  lemma {:induction false} FindInFlight(procs: seq<Proc>, f: nat) returns (pid: nat)
    requires SumBy(procs, IsInFlight(f)) > 0
    ensures pid < |procs| && (procs[pid].CheckUser? || procs[pid].Insert?) && procs[pid].family == f
  {
    var last := |procs| - 1;
    if IsInFlight(f)(procs[last]) == 1 {
      pid := last;
    } else {
      pid := FindInFlight(procs[..last], f);
    }
  }

  /** A refresh in flight can always bring a live token into the family. */
  lemma InFlightRevives(m: Machine, f: nat) returns (steps: seq<Step>)
    requires Inv(m) && InFlight(m, f) > 0
    ensures Live(Exec(m, steps), f) > 0
  {
    var pid := FindInFlight(m.procs, f);
    var run := Run(pid, 0, true);
    var m1 := Next(m, run);
    assert ProcOk(m, m.procs[pid]);
    CountsMove(m, pid, 0, true, f);
    LiveNonNegative(m, f);
    ExecSnoc(m, [], run);
    assert [] + [run] == [run];
    if m.procs[pid].Insert? {
      steps := [run];
    } else {
      NextKeeps(m, run);
      assert ProcOk(m1, m1.procs[pid]);
      CountsMove(m1, pid, 0, true, f);
      LiveNonNegative(m1, f);
      ExecSnoc(m, [run], run);
      steps := [run] + [run];
    }
  }

  ghost predicate StaysDead(m: Machine, f: nat) {
    forall steps: seq<Step> :: Live(Exec(m, steps), f) == 0
  }

  /** Reuse detection and logout end a family for good exactly when no refresh of the family is
      between its claim and its insert at that moment; otherwise the family can come back. */
  lemma RevocationHoldsIffNothingInFlight(steps: seq<Step>, pid: nat, now: int, active: bool, f: nat)
    requires pid < |Exec(INITIAL, steps).procs| && Exec(INITIAL, steps).procs[pid] == RevokeAll(f)
    ensures var m := Exec(INITIAL, steps);
      && Live(Next(m, Run(pid, now, active)), f) == 0
      && (StaysDead(Next(m, Run(pid, now, active)), f) <==> InFlight(m, f) == 0)
  {
    EveryRunOk(steps);
    var m := Exec(INITIAL, steps);
    var m' := Next(m, Run(pid, now, active));
    assert ProcOk(m, m.procs[pid]);
    CountsMove(m, pid, now, active, f);
    NextKeeps(m, Run(pid, now, active));
    LiveNonNegative(m, f);
    if InFlight(m, f) == 0 {
      forall more: seq<Step> ensures Live(Exec(m', more), f) == 0 {
        DeadForGood(m', more, f);
      }
    } else {
      var more := InFlightRevives(m', f);
      assert Live(Exec(m', more), f) != 0;
    }
  }

  /** A run in which a reused token is detected, its family revoked, and the family lives on. */
  lemma ReuseDetectionCanMiss() returns (steps: seq<Step>)
    ensures var m := Exec(INITIAL, steps);
      && |m.procs| == 3 && |m.tokens| == 2
      && m.procs[1] == Refreshed(0, 1)
      && m.procs[2] == Denied(None)
      && m.tokens[0].revoked && !m.tokens[1].revoked && m.tokens[1].family == m.tokens[0].family == 0
  {
    // One login; one refresh up to its claim; a second use of the same token revokes the family;
    // the first refresh then inserts the successor.
    var runs := [0, 1, 1, 1, 2, 2, 2, 1, 1];
    var m := INITIAL;
    steps := [];
    var starts := [Start(Login), Start(Refresh(0)), Start(Refresh(0))];
    for k := 0 to 3
      invariant m == Exec(INITIAL, steps)
      invariant m == Machine([], 0, [Login, Refresh(0), Refresh(0)][..k])
    {
      ExecSnoc(INITIAL, steps, starts[k]);
      m, steps := Next(m, starts[k]), steps + [starts[k]];
    }
    var t := Token(0, false, THIRTY_DAYS, None);
    var states := [
      Machine([], 0, [Login, Refresh(0), Refresh(0)]),
      Machine([t], 1, [LoggedIn(0), Refresh(0), Refresh(0)]),
      Machine([t], 1, [LoggedIn(0), Lookup(0), Refresh(0)]),
      Machine([t], 1, [LoggedIn(0), Claim(0, 0), Refresh(0)]),
      Machine([t.(revoked := true)], 1, [LoggedIn(0), CheckUser(0, 0), Refresh(0)]),
      Machine([t.(revoked := true)], 1, [LoggedIn(0), CheckUser(0, 0), Lookup(0)]),
      Machine([t.(revoked := true)], 1, [LoggedIn(0), CheckUser(0, 0), RevokeAll(0)]),
      Machine([t.(revoked := true)], 1, [LoggedIn(0), CheckUser(0, 0), Denied(None)]),
      Machine([t.(revoked := true)], 1, [LoggedIn(0), Insert(0, 0), Denied(None)]),
      Machine([t.(revoked := true), t.(parent := Some(0))], 1, [LoggedIn(0), Refreshed(0, 1), Denied(None)])];
    for k := 0 to 9
      invariant m == Exec(INITIAL, steps) && m == states[k]
    {
      var step := Run(runs[k], 0, true);
      ExecSnoc(INITIAL, steps, step);
      assert RevokeFamily([t.(revoked := true)], 0) == [t.(revoked := true)];
      assert Next(states[k], step) == states[k + 1];
      m, steps := Next(m, step), steps + [step];
    }
  }

  // ---- From the requests themselves -------------------------------------------------------

  lemma RequestsArrive(m: Machine, t: nat)
    ensures Next(m, Start(Login)) == m.(procs := m.procs + [Login])
    ensures Next(m, Start(Refresh(t))) == m.(procs := m.procs + [Refresh(t)])
    ensures Next(m, Start(Logout(t))) == m.(procs := m.procs + [Logout(t)])
  {
  }

  /** Every token of the family is revoked, and every other row is as it was. */
  ghost predicate FamilyRevoked(before: seq<Token>, after: seq<Token>, f: nat) {
    && |after| == |before|
    && forall i :: 0 <= i < |before| ==>
      after[i] == if before[i].family == f
        then Token(before[i].family, true, before[i].expiresAt, before[i].parent) else before[i]
  }

  /** A logout with a known token revokes its family in two steps; an unknown token changes nothing. */
  lemma LogoutRevokesFamily(m: Machine, pid: nat, t: nat, now: int, later: int)
    requires pid < |m.procs| && m.procs[pid] == Logout(t)
    ensures var last := Next(Next(m, Run(pid, now, true)), Run(pid, later, true));
      if t < |m.tokens| then FamilyRevoked(m.tokens, last.tokens, m.tokens[t].family) else last.tokens == m.tokens
  {
  }

  /** So does, in three steps, a refresh whose signature was still good and whose row is revoked, or has
      expired by the time it is read. */
  lemma ReuseRevokesFamily(m: Machine, pid: nat, t: nat, now: int, later: int, active: bool)
    requires pid < |m.procs| && m.procs[pid] == Refresh(t)
    requires t < |m.tokens| && now < m.tokens[t].expiresAt
    requires m.tokens[t].revoked || m.tokens[t].expiresAt <= later
    ensures var last :=
        Next(Next(Next(m, Run(pid, now, active)), Run(pid, later, active)), Run(pid, later, active));
      FamilyRevoked(m.tokens, last.tokens, m.tokens[t].family) && last.procs[pid] == Denied(None)
  {
  }

  /** A logout ends the family for good exactly when no refresh of it is in flight when it looks. */
  lemma LogoutHoldsIffNothingInFlight(steps: seq<Step>, pid: nat, t: nat, now: int, later: int)
    requires pid < |Exec(INITIAL, steps).procs| && Exec(INITIAL, steps).procs[pid] == Logout(t)
    requires t < |Exec(INITIAL, steps).tokens|
    ensures var m := Exec(INITIAL, steps);
      var f := m.tokens[t].family;
      var last := Next(Next(m, Run(pid, now, true)), Run(pid, later, true));
      && Live(last, f) == 0
      && (StaysDead(last, f) <==> InFlight(m, f) == 0)
  {
    LookedUp(steps, pid, now, true, Exec(INITIAL, steps).tokens[t].family);
    RevocationHoldsIffNothingInFlight(steps + [Run(pid, now, true)], pid, later, true,
      Exec(INITIAL, steps).tokens[t].family);
  }

  /** And a refresh that finds its token revoked or expired, under the same condition. */
  lemma ReuseHoldsIffNothingInFlight(steps: seq<Step>, pid: nat, t: nat, now: int, later: int, active: bool)
    requires pid < |Exec(INITIAL, steps).procs| && Exec(INITIAL, steps).procs[pid] == Lookup(t)
    requires t < |Exec(INITIAL, steps).tokens|
    requires Exec(INITIAL, steps).tokens[t].revoked || Exec(INITIAL, steps).tokens[t].expiresAt <= now
    ensures var m := Exec(INITIAL, steps);
      var f := m.tokens[t].family;
      var last := Next(Next(m, Run(pid, now, active)), Run(pid, later, active));
      && Live(last, f) == 0
      && (StaysDead(last, f) <==> InFlight(m, f) == 0)
  {
    LookedUp(steps, pid, now, active, Exec(INITIAL, steps).tokens[t].family);
    RevocationHoldsIffNothingInFlight(steps + [Run(pid, now, active)], pid, later, active,
      Exec(INITIAL, steps).tokens[t].family);
  }

  lemma LookedUp(steps: seq<Step>, pid: nat, now: int, active: bool, f: nat)
    requires pid < |Exec(INITIAL, steps).procs|
    requires Next(Exec(INITIAL, steps), Run(pid, now, active)).procs[pid] == RevokeAll(f)
    requires !Exec(INITIAL, steps).procs[pid].RevokeAll?
    ensures Exec(INITIAL, steps + [Run(pid, now, active)]) == Next(Exec(INITIAL, steps), Run(pid, now, active))
    ensures InFlight(Next(Exec(INITIAL, steps), Run(pid, now, active)), f) == InFlight(Exec(INITIAL, steps), f)
  {
    ExecSnoc(INITIAL, steps, Run(pid, now, active));
    EveryRunOk(steps);
    assert ProcOk(Exec(INITIAL, steps), Exec(INITIAL, steps).procs[pid]);
    CountsMove(Exec(INITIAL, steps), pid, now, active, f);
  }

  /** A login adds one live token in a family that no token is in, good for thirty days. */
  lemma LoginOpensFamily(steps: seq<Step>, now: int)
    ensures var m := Exec(INITIAL, steps);
      var last := Next(Next(m, Start(Login)), Run(|m.procs|, now, true));
      var f := m.families;
      && last.tokens == m.tokens + [Token(f, false, now + 2_592_000, None)]
      && last.procs == m.procs + [LoggedIn(|m.tokens|)]
      && last.families == f + 1
      && forall i :: 0 <= i < |m.tokens| ==> m.tokens[i].family != f
  {
    EveryRunOk(steps);
  }

  // ---- The refresh endpoint without interference ----------------------------------------

  /** What a refresh does to the table when nothing runs between its queries. */
  function RefreshAlone(tokens: seq<Token>, t: nat, now: int, active: bool): (seq<Token>, Option<nat>) {
    if t >= |tokens| || tokens[t].expiresAt <= now then (tokens, None)
    else if tokens[t].revoked then (RevokeFamily(tokens, tokens[t].family), None)
    else
      var claimed := tokens[t := tokens[t].(revoked := true)];
      if active
      then (claimed + [Token(tokens[t].family, false, now + THIRTY_DAYS, Some(t))], Some(|tokens|))
      else (claimed, None)
  }

  /** What a refresh answers and leaves: nothing for an unknown or expired token; the family revoked for a
      revoked one; else the token revoked and, if user and tenant are active, one live successor. */
  lemma RefreshAnswers(tokens: seq<Token>, t: nat, now: int, active: bool)
    ensures var (after, successor) := RefreshAlone(tokens, t, now, active);
      if t >= |tokens| || tokens[t].expiresAt <= now then after == tokens && successor == None
      else if tokens[t].revoked then FamilyRevoked(tokens, after, tokens[t].family) && successor == None
      else
        var was := tokens[t];
        var claimed := tokens[t := Token(was.family, true, was.expiresAt, was.parent)];
        if active
        then after == claimed + [Token(was.family, false, now + 2_592_000, Some(t))] && successor == Some(|tokens|)
        else after == claimed && successor == None
  {
  }

  /** A token handed out at `issued` is worth something for thirty days to the second: until then it
      refreshes, or once revoked takes its whole family down; after that its signature has expired
      and using it, revoked or not, changes nothing. */
  lemma TokenLastsThirtyDays(
    tokens: seq<Token>, f: nat, parent: Option<nat>, revoked: bool, issued: int, now: int, active: bool)
    ensures var rows := tokens + [Token(f, revoked, issued + THIRTY_DAYS, parent)];
      var (after, successor) := RefreshAlone(rows, |tokens|, now, active);
      && (successor.Some? <==> now - issued < 2_592_000 && !revoked && active)
      && (now - issued >= 2_592_000 ==> after == rows)
      && (now - issued < 2_592_000 && revoked ==>
        forall i :: 0 <= i < |after| && after[i].family == f ==> after[i].revoked)
  {
    var rows := tokens + [Token(f, revoked, issued + THIRTY_DAYS, parent)];
    assert rows[|tokens|].family == f;
  }

  /** A step of a refresh that finds the signature expired changes no row; a row is taken for reused
      exactly when it is revoked, or expired after its signature was verified. */
  lemma ExpiredTokenTouchesNothing(m: Machine, pid: nat, t: nat, now: int, later: int, active: bool)
    requires pid < |m.procs| && m.procs[pid] == Refresh(t) && t < |m.tokens|
    ensures var verified := Next(m, Run(pid, now, active));
      && verified.tokens == m.tokens
      && (m.tokens[t].expiresAt <= now <==> verified.procs[pid] == Denied(None))
      && (Next(verified, Run(pid, later, active)).procs[pid].RevokeAll? <==>
        now < m.tokens[t].expiresAt && (m.tokens[t].revoked || m.tokens[t].expiresAt <= later))
  {
  }

  class RefreshTokenTable {
    var rows: seq<Token>

    constructor ()
      ensures rows == []
    {
      rows := [];
    }

    /** updateMany where id and not revoked: the number of rows changed. */
    method ClaimRow(t: nat) returns (count: nat)
      requires t < |rows|
      modifies this
      ensures count == if old(rows)[t].revoked then 0 else 1
      ensures rows == old(rows)[t := old(rows)[t].(revoked := true)]
    {
      if rows[t].revoked {
        return 0;
      }
      rows := rows[t := rows[t].(revoked := true)];
      return 1;
    }

    method RevokeRows(f: nat)
      modifies this
      ensures rows == RevokeFamily(old(rows), f)
    {
      rows := RevokeFamily(rows, f);
    }

    method GenerateTokens(f: nat, parent: Option<nat>, now: int) returns (t: nat)
      modifies this
      ensures t == |old(rows)| && rows == old(rows) + [Token(f, false, now + THIRTY_DAYS, parent)]
    {
      t := |rows|;
      rows := rows + [Token(f, false, now + THIRTY_DAYS, parent)];
    }

    method RefreshToken(t: nat, now: int, active: bool) returns (r: Option<nat>)
      modifies this
      ensures (rows, r) == RefreshAlone(old(rows), t, now, active)
    {
      // The signature is verified before any row is read.
      if t >= |rows| || rows[t].expiresAt <= now {
        return None;
      }
      var record := rows[t];
      if record.revoked || record.expiresAt <= now {
        RevokeRows(record.family);
        return None;
      }
      var count := ClaimRow(t);
      if count != 1 || !active {
        return None;
      }
      var successor := GenerateTokens(record.family, Some(t), now);
      return Some(successor);
    }
  }

  /** The steps of the machine, run back to back, are the endpoint run alone. */
  lemma MachineRunsEndpoint(m: Machine, pid: nat, t: nat, now: int, active: bool)
    requires pid < |m.procs| && m.procs[pid] == Refresh(t)
    ensures var step := Run(pid, now, active);
      var last := Next(Next(Next(Next(Next(m, step), step), step), step), step);
      var (rows, successor) := RefreshAlone(m.tokens, t, now, active);
      last.tokens == rows && (last.procs[pid].Refreshed? <==> successor.Some?)
  {
  }
}
