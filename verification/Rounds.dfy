/** A parked plan makes progress: every re-work replays what was committed, commits the call that was
    parked, and parks strictly later if at all, whatever else happens on the plane in between. */
module Rounds {
  import opened Tables
  import opened Ledgers
  import opened Approvals
  import opened Runs
  import opened Working
  import opened Histories
  import opened RunLaws
  import opened DispatchLaws
  import opened BatchLaws
  import opened Lifecycle
  import opened Leases
  import opened Bystanders
  import opened Plans

  /** One turn of a step: a worker works its claim, and then whatever happens on the plane until the
      next turn, by whoever. */
  datatype Turn = Turn(claim: Claimed, work: Work, gap: seq<Txn>)

  /** The same step of the same run, with the same plan, worked as the same principal. Prompt, clocks,
      stated versions and leases may differ. */
  predicate SameTurn(a: Turn, b: Turn) {
    && a.claim.run == b.claim.run && a.claim.step == b.claim.step
    && a.work.completion == b.work.completion && a.work.principal == b.work.principal
  }

  // ---- what is pending ----------------------------------------------------------------------

  function PendingFrom(s: State, c: Claimed, w: Work, ceiling: Grants, k: nat): nat
    requires k <= |w.completion.calls|
    decreases |w.completion.calls| - k
  {
    if k == |w.completion.calls| then 0
    else
      var p := w.completion.calls[k];
      (if LevelFor(s, w, ceiling, p) == Some(AsksFirst) && !IsCommitted(s, c, p) then 1 else 0)
        + PendingFrom(s, c, w, ceiling, k + 1)
  }

  /** How many calls of the plan still have to ask. */
  function Pending(s: State, c: Claimed, w: Work, ceiling: Grants): nat {
    PendingFrom(s, c, w, ceiling, 0)
  }

  lemma {:induction false} PendingShrinks(s: State, s': State, c: Claimed, w: Work, ceiling: Grants, k: nat, m: int)
    requires k <= |w.completion.calls| && m < |w.completion.calls|
    requires GrantsOf(s', w.principal) == GrantsOf(s, w.principal) && LedgerGrows(s.ledger, s'.ledger)
    requires k <= m ==> LevelFor(s, w, ceiling, w.completion.calls[m]) == Some(AsksFirst)
                        && !IsCommitted(s, c, w.completion.calls[m]) && IsCommitted(s', c, w.completion.calls[m])
    ensures PendingFrom(s', c, w, ceiling, k) + (if k <= m then 1 else 0) <= PendingFrom(s, c, w, ceiling, k)
    decreases |w.completion.calls| - k
  {
    if k < |w.completion.calls| {
      var p := w.completion.calls[k];
      assert LevelFor(s', w, ceiling, p) == LevelFor(s, w, ceiling, p);
      PendingShrinks(s, s', c, w, ceiling, k + 1, m);
    }
  }

  lemma {:induction false} PendingCounts(s: State, c: Claimed, w: Work, ceiling: Grants, k: nat, j: nat)
    requires k <= j < |w.completion.calls|
    requires LevelFor(s, w, ceiling, w.completion.calls[j]) == Some(AsksFirst) && !IsCommitted(s, c, w.completion.calls[j])
    ensures PendingFrom(s, c, w, ceiling, k) >= 1
    decreases j - k
  {
    if k < j { PendingCounts(s, c, w, ceiling, k + 1, j); }
  }

  lemma {:induction false} PendingStands(s: State, s': State, c: Claimed, w: Work, ceiling: Grants, k: nat)
    requires k <= |w.completion.calls| && GrantsOf(s', w.principal) == GrantsOf(s, w.principal)
    requires KeysLeft(s.ledger, s'.ledger, c.run)
    ensures PendingFrom(s', c, w, ceiling, k) == PendingFrom(s, c, w, ceiling, k)
    decreases |w.completion.calls| - k
  {
    if k < |w.completion.calls| {
      var p := w.completion.calls[k];
      assert LevelFor(s', w, ceiling, p) == LevelFor(s, w, ceiling, p);
      assert KeyFor(c, p).key.run == Some(c.run);
      PendingStands(s, s', c, w, ceiling, k + 1);
    }
  }

  ghost predicate AllCommitted(s: State, c: Claimed, w: Work) {
    forall k :: 0 <= k < |w.completion.calls| ==> IsCommitted(s, c, w.completion.calls[k])
  }

  // ---- one round ----------------------------------------------------------------------------

  /** Before a round: the run runs this step, nothing answers the plan's calls, and, past the first
      round, the calls before `m` are committed and call `m`, which must ask, is paid for. */
  ghost predicate RoundReady(cfg: Config, s: State, c: Claimed, w: Work, ceiling: Grants, m: int) {
    && LeasedInv(cfg, s) && c.run < |s.threads|
    && s.threads[c.run].state == Running && c.step == |s.threads[c.run].checkpoints| + 1
    && s.threads[c.run].ceiling == ceiling
    && PlanReady(cfg, s, w, ceiling) && Declared(cfg, w) && Unanswered(s.approvals, c, w, -1)
    && m < |w.completion.calls|
    && (forall k :: 0 <= k < m ==> IsCommitted(s, c, w.completion.calls[k]))
    && (0 <= m ==> LevelFor(s, w, ceiling, w.completion.calls[m]) == Some(AsksFirst)
                   && !IsCommitted(s, c, w.completion.calls[m]))
  }

  /** Readiness does not depend on the lease, the clock, the prompt or the stated versions. */
  lemma RoundReadyAgain(cfg: Config, s: State, c: Claimed, w: Work, c': Claimed, w': Work, ceiling: Grants, m: int)
    requires RoundReady(cfg, s, c, w, ceiling, m) && c'.run == c.run && c'.step == c.step
    requires w'.completion == w.completion && w'.principal == w.principal
    ensures RoundReady(cfg, s, c', w', ceiling, m)
  {
    assert forall p :: LevelFor(s, w', ceiling, p) == LevelFor(s, w, ceiling, p);
    assert forall p :: KeyFor(c', p) == KeyFor(c, p);
  }

  /** What the plan's dispatches leave in a round that is ready. */
  lemma RoundSweeps(cfg: Config, s: State, c: Claimed, w: Work, ceiling: Grants, m: int)
    requires RoundReady(cfg, s, c, w, ceiling, m) && WithinCap(s.threads[c.run], w.estimate)
    requires StatesHeads(cfg, Planning(s, c, w), c, w, ceiling, 0)
    requires 0 <= m ==> Payable(cfg, s.approvals, w, m)
    ensures var b := DispatchAll(cfg, Planning(s, c, w), c, w, ceiling, 0);
            && Swept(cfg, Planning(s, c, w), c, w, ceiling, 0) && |b.results| > m
            && LedgerGrows(s.ledger, b.state.ledger)
  {
    var planned := Planning(s, c, w);
    PlanningKeeps(cfg, s, c, w);
    SameLevels(cfg, s, planned, w, ceiling);
    Sweep(cfg, planned, c, w, ceiling, 0);
    if 0 <= m { SweepPast(cfg, planned, c, w, ceiling, m); }
    BatchKeeps(cfg, planned, c, w, ceiling, 0);
    LedgerGrowsOn(s.ledger, planned.ledger, DispatchAll(cfg, planned, c, w, ceiling, 0).state.ledger);
  }

  /** What a round's transaction leaves, whichever way it ends. */
  ghost predicate RoundLeaves(cfg: Config, s: State, c: Claimed, ceiling: Grants, b: Batch, s1: State)
    requires c.run < |s.threads| && !b.Aborted?
  {
    && LeasedInv(cfg, s1) && |s1.threads| == |s.threads| && s1.grants == s.grants
    && s1.threads[c.run].ceiling == ceiling && s1.approvals == b.state.approvals
    && LedgerGrows(s.ledger, s1.ledger) && s1.ledger.keys == b.state.ledger.keys
    && (b.Finished? <==> s1.threads[c.run].state != WaitingApproval)
    && (b.ParkedAt? ==> s1.threads[c.run].checkpoints == s.threads[c.run].checkpoints)
  }

  /** A round always ends, and keeps the plane's invariant. */
  lemma RoundEnds(cfg: Config, s: State, c: Claimed, w: Work, ceiling: Grants, m: int)
    requires RoundReady(cfg, s, c, w, ceiling, m) && WithinCap(s.threads[c.run], w.estimate)
    requires StatesHeads(cfg, Planning(s, c, w), c, w, ceiling, 0)
    requires 0 <= m ==> Payable(cfg, s.approvals, w, m)
    ensures Step(cfg, s, c, w).Some?
    ensures var b := DispatchAll(cfg, Planning(s, c, w), c, w, ceiling, 0);
            !b.Aborted? && RoundLeaves(cfg, s, c, ceiling, b, Step(cfg, s, c, w).value)
  {
    RoundSweeps(cfg, s, c, w, ceiling, m);
    PlanLeaves(cfg, s, c, w);
    var b := DispatchAll(cfg, Planning(s, c, w), c, w, ceiling, 0);
    if b.Finished? {
      RoundFinishes(cfg, s, c, w, ceiling, b);
    } else {
      RoundParks(cfg, s, c, w, ceiling, b);
    }
    RunningStepKeepsShapes(cfg, s, c, w);
  }

  lemma RoundFinishes(cfg: Config, s: State, c: Claimed, w: Work, ceiling: Grants, b: Batch)
    requires LeasedInv(cfg, s) && c.run < |s.threads| && WithinCap(s.threads[c.run], w.estimate)
    requires s.threads[c.run].state == Running && c.step == |s.threads[c.run].checkpoints| + 1
    requires s.threads[c.run].ceiling == ceiling && b == DispatchAll(cfg, Planning(s, c, w), c, w, ceiling, 0) && b.Finished?
    requires b.state.threads == Planning(s, c, w).threads && b.state.grants == s.grants
    ensures Step(cfg, s, c, w).Some?
    ensures var s1 := Step(cfg, s, c, w).value;
            Always(cfg, s1) && LedgerGrows(s.ledger, s1.ledger)
            && (AllShapes(s1.threads) && Agreement(s1.approvals, s1.threads) ==> RoundLeaves(cfg, s, c, ceiling, b, s1))
  {
    var t' := b.state.threads[c.run];
    assert Shape(s.threads[c.run]) && Shape(t');
    AdvanceLands(t', Checkpoint(c.step, ReadUpTo(s.threads[c.run], w.visible), w.completion.text, b.results));
    StepKeeps(cfg, s, c, w);
  }

  lemma RoundParks(cfg: Config, s: State, c: Claimed, w: Work, ceiling: Grants, b: Batch)
    requires LeasedInv(cfg, s) && c.run < |s.threads| && WithinCap(s.threads[c.run], w.estimate)
    requires s.threads[c.run].state == Running && c.step == |s.threads[c.run].checkpoints| + 1
    requires s.threads[c.run].ceiling == ceiling && b == DispatchAll(cfg, Planning(s, c, w), c, w, ceiling, 0) && b.ParkedAt?
    requires b.state.threads == Planning(s, c, w).threads && b.state.grants == s.grants
    ensures Step(cfg, s, c, w).Some?
    ensures var s1 := Step(cfg, s, c, w).value;
            Always(cfg, s1) && LedgerGrows(s.ledger, s1.ledger)
            && (AllShapes(s1.threads) && Agreement(s1.approvals, s1.threads) ==> RoundLeaves(cfg, s, c, ceiling, b, s1))
  {
    var t' := b.state.threads[c.run];
    assert Shape(s.threads[c.run]) && Shape(t');
    StopKeepsShape(t', WaitingApproval, None);
    assert Step(cfg, s, c, w) == Some(ParkStep(b.state, c, w, b.approval, b.op));
    StepKeeps(cfg, s, c, w);
  }

  lemma RoundResult(cfg: Config, s: State, c: Claimed, w: Work, ceiling: Grants, m: int) returns (b: Batch, s1: State)
    requires RoundReady(cfg, s, c, w, ceiling, m) && WithinCap(s.threads[c.run], w.estimate)
    requires StatesHeads(cfg, Planning(s, c, w), c, w, ceiling, 0)
    requires 0 <= m ==> Payable(cfg, s.approvals, w, m)
    ensures b == DispatchAll(cfg, Planning(s, c, w), c, w, ceiling, 0)
    ensures Step(cfg, s, c, w) == Some(s1) && !b.Aborted? && RoundLeaves(cfg, s, c, ceiling, b, s1)
    ensures SweptAs(cfg, Planning(s, c, w), c, w, ceiling, 0, b) && |b.results| > m
  {
    RoundEnds(cfg, s, c, w, ceiling, m);
    RoundSweeps(cfg, s, c, w, ceiling, m);
    b := DispatchAll(cfg, Planning(s, c, w), c, w, ceiling, 0);
    s1 := Step(cfg, s, c, w).value;
  }

  lemma FinishedCommits(cfg: Config, s: State, c: Claimed, w: Work, ceiling: Grants, b: Batch, s1: State)
    requires c.run < |s.threads| && Declared(cfg, w)
    requires b.Finished? && SweptAs(cfg, Planning(s, c, w), c, w, ceiling, 0, b) && s1.ledger.keys == b.state.ledger.keys
    ensures AllCommitted(s1, c, w)
  {
  }

  /** What a parked round leaves: one more question, about a call past every committed one. */
  ghost predicate ParkedOn(cfg: Config, s1: State, c: Claimed, w: Work, ceiling: Grants, a: nat, j: nat) {
    && j < |w.completion.calls| && w.completion.calls[j].op in cfg.registry && a < |s1.approvals|
    && s1.approvals[a] == QuestionFor(cfg, c, w, j)
    && LevelFor(s1, w, ceiling, w.completion.calls[j]) == Some(AsksFirst)
    && !IsCommitted(s1, c, w.completion.calls[j])
    && (forall k :: 0 <= k < j ==> IsCommitted(s1, c, w.completion.calls[k]))
    && Unanswered(s1.approvals, c, w, a)
  }

  lemma ParkedRound(cfg: Config, s: State, c: Claimed, w: Work, ceiling: Grants, m: int, b: Batch, s1: State)
    requires RoundReady(cfg, s, c, w, ceiling, m)
    requires b.ParkedAt? && RoundLeaves(cfg, s, c, ceiling, b, s1) && SweptAs(cfg, Planning(s, c, w), c, w, ceiling, 0, b)
    ensures ParkedOn(cfg, s1, c, w, ceiling, b.approval, |b.results|)
  {
    SameLevels(cfg, s, Planning(s, c, w), w, ceiling);
    SameLevels(cfg, s, s1, w, ceiling);
  }

  // ---- between two rounds -------------------------------------------------------------------

  /** Answering frees the step: once the question is approved any worker may claim it, whenever. */
  lemma ApprovalFreesStep(cfg: Config, s: State, r: nat, a: nat, decider: Principal, worker: string, now: int)
    requires LeasedInv(cfg, s) && r < |s.threads| && s.threads[r].state == WaitingApproval
    requires a < |s.approvals| && s.approvals[a].state == Requested && s.approvals[a].run == r && Decider(cfg.classes, decider)
    ensures var d := DecideApproval(s, decider, Decision(a, true, None));
            && d.Some? && LeasedInv(cfg, d.value.0) && |d.value.0.threads| == |s.threads|
            && d.value.0.approvals == s.approvals[a := s.approvals[a].(state := Open, grantedBy := Some(decider))]
            && Claim(d.value.0, r, |s.threads[r].checkpoints| + 1, worker, now).Some?
  {
    var d := Decision(a, true, None);
    var answered := Runs.Answer(s.approvals[a], d, decider);
    SettleResumes(s, a, answered);
    DecideKeepsSound(cfg, s, decider, d);
    SettleKeepsRuns(s, a, answered);
    assert Claimable(DecideApproval(s, decider, d).value.0.threads[r], |s.threads[r].checkpoints| + 1, now);
  }

  /** However the plane got there, a run nobody worked that is held again is where it parked. */
  lemma GapResumes(cfg: Config, s: State, g: seq<Txn>, c: Claimed, c': Claimed)
    requires LeasedInv(cfg, s) && c.run < |s.threads| && c.step == |s.threads[c.run].checkpoints| + 1
    requires Exec(cfg, s, g).Some? && Honoured(cfg, s, g) && Unworked(g, c.run)
    requires c'.run == c.run && Holds(Exec(cfg, s, g).value, c') && Exec(cfg, s, g).value.threads[c.run].state != Cancelled
    ensures var s2 := Exec(cfg, s, g).value;
            && LeasedInv(cfg, s2) && Elsewhere(s, s2, c.run) && Grows(s, s2)
            && var t, t2 := s.threads[c.run], s2.threads[c.run];
               && t2.state == Running && t2.checkpoints == t.checkpoints && t2.ceiling == t.ceiling && c'.step == c.step
  {
    var s2 := Exec(cfg, s, g).value;
    HonouredHistoryKeeps(cfg, s, g);
    HistoryKeeps(cfg, s, g);
    HistoryLeavesRun(cfg, s, g, c.run);
    assert RunLater(s.threads[c.run], s2.threads[c.run]) && Shape(s2.threads[c.run]);
    HeldStepIsNext(s2.threads[c.run], c');
  }

  lemma GapAnswersNothing(rows: seq<Approval>, rows': seq<Approval>, a: nat, c: Claimed, w: Work)
    requires a < |rows| && Unanswered(rows, c, w, a) && RowsLeft(rows, rows', c.run) && ApprovalsGrow(rows, rows')
    requires rows'[a].state == Open
    ensures Unanswered(rows', c, w, -1)
  {
    forall b, i | 0 <= b < |rows'| && 0 <= i < |w.completion.calls|
      ensures !Standing(rows'[b], c.run, c.step, w.completion.calls[i].id)
    {
      if b < |rows| {
        assert Later(rows[b], rows'[b]);
        if b != a { assert !Standing(rows[b], c.run, c.step, w.completion.calls[i].id); }
      }
    }
  }

  lemma PaidFor(cfg: Config, rows: seq<Approval>, rows': seq<Approval>, a: nat, c: Claimed, w: Work, w': Work, j: nat)
    requires j < |w.completion.calls| && w.completion.calls[j].op in cfg.registry && a < |rows| && ApprovalsGrow(rows, rows')
    requires rows[a] == QuestionFor(cfg, c, w, j) && rows'[a].state == Open && w'.clock(j) < rows'[a].expiresAt
    requires w'.completion == w.completion && w'.principal == w.principal
    ensures Payable(cfg, rows', w', j)
  {
    var p := w.completion.calls[j];
    var v := cfg.registry[p.op].versionId;
    assert Later(rows[a], rows'[a]);
    assert Spendable(rows'[a], Consume(w'.principal, v, ArgsDigest(v, p.args), None, w'.clock(j)));
  }

  /** After a round that parked, and whatever the gap holds, the next round is ready, for a later call. */
  lemma NextRoundReady(cfg: Config, s1: State, c: Claimed, w: Work, ceiling: Grants, a: nat, j: nat,
                       g: seq<Txn>, c': Claimed, w': Work)
    requires LeasedInv(cfg, s1) && c.run < |s1.threads| && c.step == |s1.threads[c.run].checkpoints| + 1
    requires s1.threads[c.run].ceiling == ceiling && PlanReady(cfg, s1, w, ceiling) && Declared(cfg, w)
    requires ParkedOn(cfg, s1, c, w, ceiling, a, j)
    requires Exec(cfg, s1, g).Some? && Honoured(cfg, s1, g) && Unworked(g, c.run)
    requires c'.run == c.run && Holds(Exec(cfg, s1, g).value, c') && Exec(cfg, s1, g).value.threads[c.run].state != Cancelled
    requires var s2 := Exec(cfg, s1, g).value;
             && GrantsOf(s2, w.principal) == GrantsOf(s1, w.principal)
             && a < |s2.approvals| && s2.approvals[a].state == Open && w'.clock(j) < s2.approvals[a].expiresAt
    requires w'.completion == w.completion && w'.principal == w.principal
    ensures var s2 := Exec(cfg, s1, g).value;
            && RoundReady(cfg, s2, c, w, ceiling, j) && Payable(cfg, s2.approvals, w', j) && c'.step == c.step
            && KeysLeft(s1.ledger, s2.ledger, c.run)
  {
    var s2 := Exec(cfg, s1, g).value;
    GapResumes(cfg, s1, g, c, c');
    SameLevels(cfg, s1, s2, w, ceiling);
    GapAnswersNothing(s1.approvals, s2.approvals, a, c, w);
    PaidFor(cfg, s1.approvals, s2.approvals, a, c, w, w', j);
    SameKeys(s1, s2, c, w);
  }

  lemma SameKeys(s: State, s': State, c: Claimed, w: Work)
    requires KeysLeft(s.ledger, s'.ledger, c.run)
    ensures forall k :: 0 <= k < |w.completion.calls| ==>
              IsCommitted(s', c, w.completion.calls[k]) == IsCommitted(s, c, w.completion.calls[k])
  {
    forall k | 0 <= k < |w.completion.calls|
      ensures IsCommitted(s', c, w.completion.calls[k]) == IsCommitted(s, c, w.completion.calls[k])
    {
      assert KeyFor(c, w.completion.calls[k]).key.run == Some(c.run);
    }
  }

  // ---- rounds in general --------------------------------------------------------------------

  datatype RoundEnd = Over(state: State) | Broke(state: State) | Parks(state: State) | Wedged

  datatype Ending = Completed(state: State) | OutOfBudget(state: State) | StillParked(state: State) | Stuck

  /** Round after round, as long as there is one, each from where the gap after the last one led. */
  function Drive(round: (State, nat) -> RoundEnd, gap: (State, nat) -> Option<State>, rounds: nat, s: State, n: nat): Ending
    requires n < rounds
    decreases rounds - n
  {
    match round(s, n)
    case Over(s1) => Completed(s1)
    case Broke(s1) => OutOfBudget(s1)
    case Wedged => Stuck
    case Parks(s1) =>
      if n + 1 == rounds then StillParked(s1)
      else match gap(s1, n)
        case None => Stuck
        case Some(s2) => Drive(round, gap, rounds, s2, n + 1)
  }

  function Paid(m: int): nat { if 0 <= m then 1 else 0 }

  /** A round from a good state is over, or parks with fewer questions pending and, if another round
      follows, is good again after the gap. */
  ghost predicate Goes(e: RoundEnd, after: Option<State>, s: State, next: nat, m: int, rounds: nat,
                       good: (State, nat, int) -> bool, pending: State -> int, over: State -> bool)
  {
    match e
    case Over(s1) => over(s1)
    case Broke(_) => true
    case Wedged => false
    case Parks(s1) =>
      && 1 <= pending(s1) <= pending(s) - Paid(m)
      && (next < rounds ==>
            after.Some? && pending(after.value) <= pending(s1) && exists j: nat :: good(after.value, next, j))
  }

  function GapAfter(e: RoundEnd, gap: (State, nat) -> Option<State>, n: nat): Option<State> {
    if e.Parks? then gap(e.state, n) else None
  }

  ghost function GoesOn(round: (State, nat) -> RoundEnd, gap: (State, nat) -> Option<State>, rounds: nat,
                        good: (State, nat, int) -> bool, pending: State -> int, over: State -> bool): (State, nat, int) -> bool
  {
    (s: State, n: nat, m: int) =>
      Goes(round(s, n), GapAfter(round(s, n), gap, n), s, n + 1, m, rounds, good, pending, over)
  }

  ghost predicate Progresses(round: (State, nat) -> RoundEnd, gap: (State, nat) -> Option<State>, rounds: nat,
                             good: (State, nat, int) -> bool, pending: State -> int, over: State -> bool)
  {
    forall s, n: nat, m: int :: good(s, n, m) ==> GoesOn(round, gap, rounds, good, pending, over)(s, n, m)
  }

  /** The termination measure: rounds that progress never get stuck, and end once there are more of them
      than there were questions pending. */
  lemma {:induction false} DriveEnds(round: (State, nat) -> RoundEnd, gap: (State, nat) -> Option<State>, rounds: nat,
                                     good: (State, nat, int) -> bool, pending: State -> int, over: State -> bool,
                                     s: State, n: nat, m: int)
    requires Progresses(round, gap, rounds, good, pending, over) && n < rounds && good(s, n, m)
    ensures var e := Drive(round, gap, rounds, s, n);
            && !e.Stuck? && (e.Completed? ==> over(e.state))
            && (pending(s) - Paid(m) < rounds - n ==> !e.StillParked?)
    decreases rounds - n
  {
    assert GoesOn(round, gap, rounds, good, pending, over)(s, n, m);
    var e := round(s, n);
    if e.Parks? && n + 1 < rounds {
      var s2, next := gap(e.state, n).value, n + 1;
      var j: nat :| good(s2, next, j);
      DriveEnds(round, gap, rounds, good, pending, over, s2, next, j);
    }
  }

  // ---- the rounds of one plan ---------------------------------------------------------------

  /** One turn's step. */
  function OneRound(cfg: Config, s: State, t: Turn): RoundEnd {
    if t.claim.run >= |s.threads| then Wedged
    else if !WithinCap(s.threads[t.claim.run], t.work.estimate) then Broke(s)
    else match Step(cfg, s, t.claim, t.work)
      case None => Wedged
      case Some(s1) => if IsWaiting(s1, t.claim.run) then Parks(s1) else Over(s1)
  }

  function PlanOf(cfg: Config, s: State, t: Turn): Batch
    requires t.claim.run < |s.threads|
  {
    DispatchAll(cfg, Planning(s, t.claim, t.work), t.claim, t.work, s.threads[t.claim.run].ceiling, 0)
  }

  /** What is asked of the gap after a turn that parked in `s1`, and of nothing else that happens: leases
      were honoured, nobody worked this run, and at its end a worker holds the step again, the run was not
      cancelled, the approval is open and outlives the next turn's clock at its call, and the principal's
      grants are what they were. */
  ghost predicate HandedOn(cfg: Config, s: State, t: Turn, s1: State, next: Turn)
    requires t.claim.run < |s.threads| && PlanOf(cfg, s, t).ParkedAt?
  {
    var b, x := PlanOf(cfg, s, t), Exec(cfg, s1, t.gap);
    && x.Some? && Honoured(cfg, s1, t.gap) && Unworked(t.gap, t.claim.run)
    && next.claim.run == t.claim.run && Holds(x.value, next.claim)
    && x.value.threads[t.claim.run].state != Cancelled
    && GrantsOf(x.value, t.work.principal) == GrantsOf(s1, t.work.principal)
    && b.approval < |x.value.approvals| && x.value.approvals[b.approval].state == Open
    && next.work.clock(|b.results|) < x.value.approvals[b.approval].expiresAt
  }

  /** Every turn states the heads it meets, and every park but the last is handed on to the next turn. */
  ghost predicate Attended(cfg: Config, ts: seq<Turn>, s: State, n: nat)
    decreases |ts| - n
  {
    n < |ts| && ts[n].claim.run < |s.threads|
    && (var t := ts[n];
        WithinCap(s.threads[t.claim.run], t.work.estimate) ==>
          && StatesHeads(cfg, Planning(s, t.claim, t.work), t.claim, t.work, s.threads[t.claim.run].ceiling, 0)
          && (n + 1 < |ts| && OneRound(cfg, s, t).Parks? && PlanOf(cfg, s, t).ParkedAt? ==>
                var s1 := OneRound(cfg, s, t).state;
                && HandedOn(cfg, s, t, s1, ts[n + 1])
                && Attended(cfg, ts, Exec(cfg, s1, t.gap).value, n + 1)))
  }

  ghost predicate SameTurns(ts: seq<Turn>) {
    forall k :: 0 <= k < |ts| ==> SameTurn(ts[0], ts[k])
  }

  /** Ready for turn `n`, with call `m` paid for and the turns from here on attended to. */
  ghost predicate Good(cfg: Config, ts: seq<Turn>, ceiling: Grants, s: State, n: nat, m: int) {
    && n < |ts| && SameTurns(ts)
    && RoundReady(cfg, s, ts[0].claim, ts[0].work, ceiling, m)
    && (0 <= m ==> Payable(cfg, s.approvals, ts[n].work, m))
    && Attended(cfg, ts, s, n)
  }

  function RoundsOf(cfg: Config, ts: seq<Turn>): (State, nat) -> RoundEnd {
    (s: State, n: nat) => if n < |ts| then OneRound(cfg, s, ts[n]) else Wedged
  }

  ghost function GapsOf(cfg: Config, ts: seq<Turn>): (State, nat) -> Option<State> {
    (s: State, n: nat) => if n < |ts| then Exec(cfg, s, ts[n].gap) else None
  }

  ghost function GoodFor(cfg: Config, ts: seq<Turn>, ceiling: Grants): (State, nat, int) -> bool {
    (s: State, n: nat, m: int) => Good(cfg, ts, ceiling, s, n, m)
  }

  ghost function PendingFor(t: Turn, ceiling: Grants): State -> int {
    (s: State) => Pending(s, t.claim, t.work, ceiling)
  }

  ghost function CommittedFor(t: Turn): State -> bool {
    (s: State) => AllCommitted(s, t.claim, t.work)
  }

  // ---- progress -----------------------------------------------------------------------------

  /** What turn `t` comes to: all committed, or parked on a later call `j` with one call fewer left to ask. */
  ghost predicate RoundComesTo(cfg: Config, s: State, t: Turn, ceiling: Grants, m: int, e: RoundEnd)
    requires t.claim.run < |s.threads|
  {
    match e
    case Over(s1) => AllCommitted(s1, t.claim, t.work)
    case Broke(_) => true
    case Wedged => false
    case Parks(s1) =>
      && LeasedInv(cfg, s1) && t.claim.run < |s1.threads| && s1.grants == s.grants
      && s1.threads[t.claim.run].ceiling == ceiling && t.claim.step == |s1.threads[t.claim.run].checkpoints| + 1
      && PlanOf(cfg, s, t).ParkedAt? && m < |PlanOf(cfg, s, t).results|
      && ParkedOn(cfg, s1, t.claim, t.work, ceiling, PlanOf(cfg, s, t).approval, |PlanOf(cfg, s, t).results|)
      && 1 <= Pending(s1, t.claim, t.work, ceiling) <= Pending(s, t.claim, t.work, ceiling) - Paid(m)
  }

  /** One turn from a state that is ready: a re-work replays the committed prefix, commits the call it was
      parked on, and commits the rest or parks strictly later. */
  lemma RoundProgress(cfg: Config, s: State, t: Turn, ceiling: Grants, m: int)
    requires RoundReady(cfg, s, t.claim, t.work, ceiling, m)
    requires WithinCap(s.threads[t.claim.run], t.work.estimate) ==>
               StatesHeads(cfg, Planning(s, t.claim, t.work), t.claim, t.work, ceiling, 0)
    requires 0 <= m ==> Payable(cfg, s.approvals, t.work, m)
    ensures RoundComesTo(cfg, s, t, ceiling, m, OneRound(cfg, s, t))
  {
    var c, w := t.claim, t.work;
    if WithinCap(s.threads[c.run], w.estimate) {
      var b, s1 := RoundResult(cfg, s, c, w, ceiling, m);
      if b.Finished? {
        FinishedCommits(cfg, s, c, w, ceiling, b, s1);
      } else {
        ParkedRound(cfg, s, c, w, ceiling, m, b, s1);
        ParkCounts(cfg, s, s1, c, w, ceiling, m, |b.results|);
      }
    }
  }

  lemma ParkCounts(cfg: Config, s: State, s1: State, c: Claimed, w: Work, ceiling: Grants, m: int, j: nat)
    requires RoundReady(cfg, s, c, w, ceiling, m) && m < j < |w.completion.calls|
    requires s1.grants == s.grants && LedgerGrows(s.ledger, s1.ledger)
    requires LevelFor(s1, w, ceiling, w.completion.calls[j]) == Some(AsksFirst) && !IsCommitted(s1, c, w.completion.calls[j])
    requires forall k :: 0 <= k < j ==> IsCommitted(s1, c, w.completion.calls[k])
    ensures 1 <= Pending(s1, c, w, ceiling) <= Pending(s, c, w, ceiling) - Paid(m)
  {
    PendingShrinks(s, s1, c, w, ceiling, 0, m);
    PendingCounts(s1, c, w, ceiling, 0, j);
  }

  /** The turn after a park, and after its gap. */
  lemma TurnHandsOn(cfg: Config, ts: seq<Turn>, ceiling: Grants, s: State, n: nat, m: int)
    requires Good(cfg, ts, ceiling, s, n, m) && n + 1 < |ts| && OneRound(cfg, s, ts[n]).Parks?
    requires RoundComesTo(cfg, s, ts[n], ceiling, m, OneRound(cfg, s, ts[n]))
    requires WithinCap(s.threads[ts[n].claim.run], ts[n].work.estimate)
    requires RoundReady(cfg, s, ts[n].claim, ts[n].work, ceiling, m)
    ensures var x := Exec(cfg, OneRound(cfg, s, ts[n]).state, ts[n].gap);
            && x.Some? && Good(cfg, ts, ceiling, x.value, n + 1, |PlanOf(cfg, s, ts[n]).results|)
            && KeysLeft(OneRound(cfg, s, ts[n]).state.ledger, x.value.ledger, ts[n].claim.run)
            && GrantsOf(x.value, ts[0].work.principal) == GrantsOf(OneRound(cfg, s, ts[n]).state, ts[0].work.principal)
  {
    var t, next, s1 := ts[n], ts[n + 1], OneRound(cfg, s, ts[n]).state;
    assert SameTurn(ts[0], t) && SameTurn(ts[0], next);
    var b := PlanOf(cfg, s, t);
    assert HandedOn(cfg, s, t, s1, next);
    SameLevels(cfg, s, s1, t.work, ceiling);
    NextRoundReady(cfg, s1, t.claim, t.work, ceiling, b.approval, |b.results|, t.gap, next.claim, next.work);
    var s2 := Exec(cfg, s1, t.gap).value;
    RoundReadyAgain(cfg, s2, t.claim, t.work, ts[0].claim, ts[0].work, ceiling, |b.results|);
  }

  lemma {:induction false} SamePending(s: State, a: Turn, b: Turn, ceiling: Grants, k: nat)
    requires SameTurn(a, b) && k <= |a.work.completion.calls|
    ensures PendingFrom(s, b.claim, b.work, ceiling, k) == PendingFrom(s, a.claim, a.work, ceiling, k)
    decreases |a.work.completion.calls| - k
  {
    if k < |a.work.completion.calls| {
      assert KeyFor(b.claim, a.work.completion.calls[k]) == KeyFor(a.claim, a.work.completion.calls[k]);
      SamePending(s, a, b, ceiling, k + 1);
    }
  }

  lemma SameCommitted(s: State, a: Turn, b: Turn)
    requires SameTurn(a, b) && AllCommitted(s, b.claim, b.work)
    ensures AllCommitted(s, a.claim, a.work)
  {
    assert forall p :: KeyFor(b.claim, p) == KeyFor(a.claim, p);
  }

  lemma GoodTurn(cfg: Config, ts: seq<Turn>, ceiling: Grants, s: State, n: nat, m: int)
    requires Good(cfg, ts, ceiling, s, n, m)
    ensures RoundReady(cfg, s, ts[n].claim, ts[n].work, ceiling, m)
    ensures RoundComesTo(cfg, s, ts[n], ceiling, m, OneRound(cfg, s, ts[n]))
  {
    var t := ts[n];
    assert SameTurn(ts[0], t);
    RoundReadyAgain(cfg, s, ts[0].claim, ts[0].work, t.claim, t.work, ceiling, m);
    RoundProgress(cfg, s, t, ceiling, m);
  }

  lemma ParksGoes(round: (State, nat) -> RoundEnd, gap: (State, nat) -> Option<State>, rounds: nat,
                  good: (State, nat, int) -> bool, pending: State -> int, over: State -> bool,
                  s: State, n: nat, m: int, s1: State, j: nat)
    requires round(s, n) == Parks(s1) && 1 <= pending(s1) <= pending(s) - Paid(m)
    requires n + 1 < rounds ==>
               gap(s1, n).Some? && pending(gap(s1, n).value) <= pending(s1) && good(gap(s1, n).value, n + 1, j)
    ensures GoesOn(round, gap, rounds, good, pending, over)(s, n, m)
  {
  }

  lemma EndGoes(round: (State, nat) -> RoundEnd, gap: (State, nat) -> Option<State>, rounds: nat,
                good: (State, nat, int) -> bool, pending: State -> int, over: State -> bool,
                s: State, n: nat, m: int)
    requires !round(s, n).Parks? && !round(s, n).Wedged? && (round(s, n).Over? ==> over(round(s, n).state))
    ensures GoesOn(round, gap, rounds, good, pending, over)(s, n, m)
  {
  }

  /** A turn that parks, and the gap after it. */
  lemma TurnParks(cfg: Config, ts: seq<Turn>, ceiling: Grants, s: State, n: nat, m: int)
    requires GoodFor(cfg, ts, ceiling)(s, n, m) && OneRound(cfg, s, ts[n]).Parks?
    ensures var s1, pending := OneRound(cfg, s, ts[n]).state, PendingFor(ts[0], ceiling);
            && 1 <= pending(s1) <= pending(s) - Paid(m)
            && (n + 1 < |ts| ==>
                  && Exec(cfg, s1, ts[n].gap).Some? && pending(Exec(cfg, s1, ts[n].gap).value) <= pending(s1)
                  && GoodFor(cfg, ts, ceiling)(Exec(cfg, s1, ts[n].gap).value, n + 1, |PlanOf(cfg, s, ts[n]).results|))
  {
    var t, s1 := ts[n], OneRound(cfg, s, ts[n]).state;
    assert SameTurn(ts[0], t);
    GoodTurn(cfg, ts, ceiling, s, n, m);
    SamePending(s, ts[0], t, ceiling, 0);
    SamePending(s1, ts[0], t, ceiling, 0);
    if n + 1 < |ts| {
      TurnHandsOn(cfg, ts, ceiling, s, n, m);
      PendingStands(s1, Exec(cfg, s1, t.gap).value, ts[0].claim, ts[0].work, ceiling, 0);
    }
  }

  /** A turn that does not. */
  lemma TurnEnds(cfg: Config, ts: seq<Turn>, ceiling: Grants, s: State, n: nat, m: int)
    requires GoodFor(cfg, ts, ceiling)(s, n, m) && !OneRound(cfg, s, ts[n]).Parks?
    ensures !OneRound(cfg, s, ts[n]).Wedged?
    ensures OneRound(cfg, s, ts[n]).Over? ==> CommittedFor(ts[0])(OneRound(cfg, s, ts[n]).state)
  {
    GoodTurn(cfg, ts, ceiling, s, n, m);
    assert SameTurn(ts[0], ts[n]);
    var e := OneRound(cfg, s, ts[n]);
    if e.Over? { SameCommitted(e.state, ts[0], ts[n]); }
  }

  lemma RoundIs(cfg: Config, ts: seq<Turn>, s: State, n: nat)
    requires n < |ts|
    ensures RoundsOf(cfg, ts)(s, n) == OneRound(cfg, s, ts[n])
    ensures GapsOf(cfg, ts)(s, n) == Exec(cfg, s, ts[n].gap)
  {
  }

  lemma PlanGoes(cfg: Config, ts: seq<Turn>, ceiling: Grants, s: State, n: nat, m: int)
    requires GoodFor(cfg, ts, ceiling)(s, n, m)
    ensures GoesOn(RoundsOf(cfg, ts), GapsOf(cfg, ts), |ts|, GoodFor(cfg, ts, ceiling), PendingFor(ts[0], ceiling),
                   CommittedFor(ts[0]))(s, n, m)
  {
    var e := OneRound(cfg, s, ts[n]);
    RoundIs(cfg, ts, s, n);
    if e.Parks? {
      TurnParks(cfg, ts, ceiling, s, n, m);
      RoundIs(cfg, ts, e.state, n);
      ParksGoes(RoundsOf(cfg, ts), GapsOf(cfg, ts), |ts|, GoodFor(cfg, ts, ceiling), PendingFor(ts[0], ceiling),
                CommittedFor(ts[0]), s, n, m, e.state, |PlanOf(cfg, s, ts[n]).results|);
    } else {
      TurnEnds(cfg, ts, ceiling, s, n, m);
      EndGoes(RoundsOf(cfg, ts), GapsOf(cfg, ts), |ts|, GoodFor(cfg, ts, ceiling), PendingFor(ts[0], ceiling),
              CommittedFor(ts[0]), s, n, m);
    }
  }

  lemma PlanProgresses(cfg: Config, ts: seq<Turn>, ceiling: Grants)
    requires ts != []
    ensures Progresses(RoundsOf(cfg, ts), GapsOf(cfg, ts), |ts|, GoodFor(cfg, ts, ceiling), PendingFor(ts[0], ceiling),
                       CommittedFor(ts[0]))
  {
    forall s, n: nat, m: int | GoodFor(cfg, ts, ceiling)(s, n, m)
      ensures GoesOn(RoundsOf(cfg, ts), GapsOf(cfg, ts), |ts|, GoodFor(cfg, ts, ceiling), PendingFor(ts[0], ceiling),
                     CommittedFor(ts[0]))(s, n, m)
    {
      PlanGoes(cfg, ts, ceiling, s, n, m);
    }
  }

  /** The plan finishes. Work a step whose plan is of runnable writes, again and again, as long as it parks:
      if each park is approved, unspent and unexpired when a worker holds the step again, then no turn fails,
      every turn that ends the plan ends it with all its calls committed, and one of the first p + 1 turns
      ends it, or runs out of budget, where p is the number of calls that still had to ask. Between the
      turns anything may happen on the plane: other runs, other calls, claims that crash, reaps, messages. */
  lemma PlanFinishes(cfg: Config, s: State, ts: seq<Turn>, ceiling: Grants)
    requires ts != [] && SameTurns(ts) && Attended(cfg, ts, s, 0)
    requires RoundReady(cfg, s, ts[0].claim, ts[0].work, ceiling, -1)
    ensures var e := Drive(RoundsOf(cfg, ts), GapsOf(cfg, ts), |ts|, s, 0);
            && !e.Stuck? && (e.Completed? ==> AllCommitted(e.state, ts[0].claim, ts[0].work))
            && (|ts| > Pending(s, ts[0].claim, ts[0].work, ceiling) ==> !e.StillParked?)
  {
    PlanProgresses(cfg, ts, ceiling);
    assert GoodFor(cfg, ts, ceiling)(s, 0, -1);
    DriveEnds(RoundsOf(cfg, ts), GapsOf(cfg, ts), |ts|, GoodFor(cfg, ts, ceiling), PendingFor(ts[0], ceiling),
              CommittedFor(ts[0]), s, 0, -1);
  }

  // ---- the drive as one history -------------------------------------------------------------

  /** The turns from `n` up to `k`, with the gaps after them, in the order they happened. */
  function Story(ts: seq<Turn>, n: nat, k: nat): seq<Txn>
    requires n <= k <= |ts|
    decreases k - n
  {
    if n == k then [] else [WorkStep(ts[n].claim, ts[n].work)] + ts[n].gap + Story(ts, n + 1, k)
  }

  lemma {:induction false} ExecSplit(cfg: Config, s: State, g: seq<Txn>, h: seq<Txn>)
    requires Exec(cfg, s, g).Some?
    ensures Exec(cfg, s, g + h) == Exec(cfg, Exec(cfg, s, g).value, h)
  {
    if h == [] {
      assert g + h == g;
    } else {
      ExecSplit(cfg, s, g, h[..|h| - 1]);
      assert (g + h)[..|g + h| - 1] == g + h[..|h| - 1];
    }
  }

  lemma ExecOne(cfg: Config, s: State, x: Txn)
    ensures Exec(cfg, s, [x]) == Apply(cfg, s, x)
  {
    assert [x][..0] == [];
  }

  lemma TurnThenGap(cfg: Config, s: State, t: Turn, h: seq<Txn>)
    requires OneRound(cfg, s, t).Parks? && Exec(cfg, OneRound(cfg, s, t).state, t.gap).Some?
    ensures Exec(cfg, s, [WorkStep(t.claim, t.work)] + t.gap + h)
         == Exec(cfg, Exec(cfg, OneRound(cfg, s, t).state, t.gap).value, h)
  {
    var x := [WorkStep(t.claim, t.work)];
    ExecOne(cfg, s, x[0]);
    ExecSplit(cfg, s, x, t.gap);
    ExecSplit(cfg, s, x + t.gap, h);
  }

  /** The state a drive completes in is reached by one history: its turns and their gaps, up to the turn
      that completed the plan. */
  lemma {:induction false} DriveIsHistory(cfg: Config, ts: seq<Turn>, s: State, n: nat) returns (k: nat)
    requires n < |ts| && Drive(RoundsOf(cfg, ts), GapsOf(cfg, ts), |ts|, s, n).Completed?
    ensures n <= k < |ts|
    ensures Exec(cfg, s, Story(ts, n, k) + [WorkStep(ts[k].claim, ts[k].work)])
         == Some(Drive(RoundsOf(cfg, ts), GapsOf(cfg, ts), |ts|, s, n).state)
    decreases |ts| - n
  {
    var e := OneRound(cfg, s, ts[n]);
    RoundIs(cfg, ts, s, n);
    if e.Parks? {
      RoundIs(cfg, ts, e.state, n);
      var s2 := Exec(cfg, e.state, ts[n].gap).value;
      k := DriveIsHistory(cfg, ts, s2, n + 1);
      StoryGoesOn(cfg, ts, s, n, k);
    } else {
      k := n;
      StoryEnds(cfg, ts, s, n);
    }
  }

  lemma StoryEnds(cfg: Config, ts: seq<Turn>, s: State, n: nat)
    requires n < |ts|
    ensures Exec(cfg, s, Story(ts, n, n) + [WorkStep(ts[n].claim, ts[n].work)]) == Step(cfg, s, ts[n].claim, ts[n].work)
  {
    ExecOne(cfg, s, WorkStep(ts[n].claim, ts[n].work));
    assert Story(ts, n, n) + [WorkStep(ts[n].claim, ts[n].work)] == [WorkStep(ts[n].claim, ts[n].work)];
  }

  lemma StoryGoesOn(cfg: Config, ts: seq<Turn>, s: State, n: nat, k: nat)
    requires n < k < |ts| && OneRound(cfg, s, ts[n]).Parks? && Exec(cfg, OneRound(cfg, s, ts[n]).state, ts[n].gap).Some?
    ensures var last := [WorkStep(ts[k].claim, ts[k].work)];
            Exec(cfg, s, Story(ts, n, k) + last)
            == Exec(cfg, Exec(cfg, OneRound(cfg, s, ts[n]).state, ts[n].gap).value, Story(ts, n + 1, k) + last)
  {
    var t, last := ts[n], [WorkStep(ts[k].claim, ts[k].work)];
    TurnThenGap(cfg, s, t, Story(ts, n + 1, k) + last);
    assert Story(ts, n, k) + last == [WorkStep(t.claim, t.work)] + t.gap + (Story(ts, n + 1, k) + last);
  }

}
