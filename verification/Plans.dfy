/** One dispatch of a fixed plan of writes: it replays what was committed, commits what it may, and stops at
    the first call that nothing can pay for. */
module Plans {
  import opened Tables
  import opened Ledgers
  import opened Approvals
  import opened Runs
  import opened Dispatching
  import opened Working
  import opened RunLaws
  import opened DispatchLaws
  import opened DispatchTheorems
  import opened BatchLaws

  // ---- a plan of writes ---------------------------------------------------------------------

  /** A domain write with well-formed arguments, whose body does not raise on them. */
  ghost predicate Runnable(cfg: Config, p: Proposed) {
    && p.op in cfg.registry
    && var op := cfg.registry[p.op];
       && op.mode == Write && op.valid(p.args)
       && op.body.Plain? && (forall d: Data :: op.body.run(d, p.args).Some?)
       && (op.target.Some? ==> op.target.value.path(p.args).Some?)
  }

  function LevelFor(s: State, w: Work, ceiling: Grants, p: Proposed): Option<Level> {
    UnderCeiling(Some(ceiling), p.op, GrantFor(s, w.principal, p.op))
  }

  ghost predicate PlanReady(cfg: Config, s: State, w: Work, ceiling: Grants) {
    var calls := w.completion.calls;
    && (forall i, j :: 0 <= i < j < |calls| ==> calls[i].id != calls[j].id)
    && (forall i :: 0 <= i < |calls| ==>
          Runnable(cfg, calls[i]) && LevelFor(s, w, ceiling, calls[i]) in {Some(MayUse), Some(AsksFirst)})
  }

  /** No row but `except` holds an answer, or a question, for a call of this plan at this step. */
  ghost predicate Unanswered(rows: seq<Approval>, c: Claimed, w: Work, except: int) {
    forall a, i :: 0 <= a < |rows| && a != except && 0 <= i < |w.completion.calls| ==>
      !Standing(rows[a], c.run, c.step, w.completion.calls[i].id)
  }

  function KeyFor(c: Claimed, p: Proposed): Reservation {
    Reservation(p.op, Key(Some(c.run), Some(c.step), p.id))
  }

  predicate IsCommitted(s: State, c: Claimed, p: Proposed) {
    StoredAction(s.ledger, KeyFor(c, p)).Some?
  }

  function QuestionFor(cfg: Config, c: Claimed, w: Work, i: nat): Approval
    requires i < |w.completion.calls| && w.completion.calls[i].op in cfg.registry
  {
    var p := w.completion.calls[i];
    var v := cfg.registry[p.op].versionId;
    Request(Park(w.principal, v, ArgsDigest(v, p.args), c.run, c.step, p.id, w.clock(i)))
  }

  /** The head of the stream a proposed call's target is on, as a versioned write must state it. */
  function HeadOf(cfg: Config, s: State, p: Proposed): Option<int> {
    if p.op !in cfg.registry || cfg.registry[p.op].target.None? then None
    else match AggregateOf(p.op, cfg.registry[p.op], p.args)
      case None => None
      case Some(a) => Some(VersionOf(s.ledger, a))
  }

  /** Call `i` replays, or states the head it meets: no other writer came between its read and its commit. */
  ghost predicate StatesHead(cfg: Config, s: State, c: Claimed, w: Work, i: nat)
    requires i < |w.completion.calls|
  {
    IsCommitted(s, c, w.completion.calls[i]) || StatedVersion(cfg, w, i) == HeadOf(cfg, s, w.completion.calls[i])
  }

  /** Every call from the `i`-th, as far as the plan gets, replays or states the head it meets. */
  ghost predicate StatesHeads(cfg: Config, s: State, c: Claimed, w: Work, ceiling: Grants, i: nat)
    requires i <= |w.completion.calls|
    decreases |w.completion.calls| - i
  {
    if i == |w.completion.calls| then true
    else if IsCommitted(s, c, w.completion.calls[i]) then StatesHeads(cfg, s, c, w, ceiling, i + 1)
    else
      var d := Dispatch(cfg, s, CtxAt(c, w, ceiling, i), CallFor(cfg, w, i));
      && StatedVersion(cfg, w, i) == HeadOf(cfg, s, w.completion.calls[i])
      && (d.Ran? && !d.outcome.Waiting? ==> StatesHeads(cfg, d.state, c, w, ceiling, i + 1))
  }

  // ---- one call -----------------------------------------------------------------------------

  ghost predicate CallEnds(cfg: Config, s: State, c: Claimed, w: Work, ceiling: Grants, i: nat)
    requires i < |w.completion.calls| && w.completion.calls[i].op in cfg.registry
  {
    var p := w.completion.calls[i];
    var ctx, call := CtxAt(c, w, ceiling, i), CallFor(cfg, w, i);
    var d := Dispatch(cfg, s, ctx, call);
    && d.Ran? && d.state.grants == s.grants && d.state.threads == s.threads
    && if IsCommitted(s, c, p) then d.outcome.Replayed? && d.state == s
       else if LevelFor(s, w, ceiling, p) == Some(AsksFirst)
               && FirstSpendable(s.approvals, ConsumeFor(ctx, call, cfg.registry[p.op], Some(|s.ledger.actions|))).None?
       then && d.outcome.Waiting? && d.outcome.approval == |s.approvals|
            && d.state.approvals == s.approvals + [QuestionFor(cfg, c, w, i)]
            && !IsCommitted(d.state, c, p)
       else && d.outcome.Committed? && IsCommitted(d.state, c, p)
            && Unanswered(d.state.approvals, c, w, -1)
  }

  lemma CallRuns(cfg: Config, s: State, c: Claimed, w: Work, ceiling: Grants, i: nat)
    requires Sound(cfg, s) && PlanReady(cfg, s, w, ceiling) && i < |w.completion.calls|
    requires Unanswered(s.approvals, c, w, -1) && StatesHead(cfg, s, c, w, i)
    ensures CallEnds(cfg, s, c, w, ceiling, i)
  {
    var p := w.completion.calls[i];
    var ctx, call := CtxAt(c, w, ceiling, i), CallFor(cfg, w, i);
    assert ReservationFor(ctx, call) == KeyFor(c, p);
    if !IsCommitted(s, c, p) {
      var m := Reserve(s, KeyFor(c, p));
      var op := cfg.registry[p.op];
      var level := LevelFor(s, w, ceiling, p).value;
      assert Runnable(cfg, p) && EffectiveLevel(m, ctx, p.op) == Some(level);
      assert Dispatch(cfg, s, ctx, call) == WriteCall(cfg, m, ctx, call, op, level);
      if level == AsksFirst && ApprovalFor(m, ctx, call, op, level).None? {
        FreshQuestion(cfg, m, c, w, ceiling, i, call);
      } else {
        ReadyWriteCommits(cfg, m, ctx, call, op, level, p);
        WriteAnswersNothing(cfg, m, c, w, ctx, call, op, level);
      }
    }
    RunsStand(cfg, s, ctx, call);
  }

  lemma FreshQuestion(cfg: Config, s: State, c: Claimed, w: Work, ceiling: Grants, i: nat, call: Call)
    requires i < |w.completion.calls| && w.completion.calls[i].op in cfg.registry && Unanswered(s.approvals, c, w, -1)
    requires call.op == w.completion.calls[i].op && call.args == w.completion.calls[i].args && call.id == w.completion.calls[i].id
    ensures var d := ParkCall(s, CtxAt(c, w, ceiling, i), call, cfg.registry[call.op]);
            && d.outcome.Waiting? && d.outcome.approval == |s.approvals|
            && d.state == s.(approvals := s.approvals + [QuestionFor(cfg, c, w, i)])
  {
    assert FirstStanding(s.approvals, c.run, c.step, call.id) == None;
  }

  /** The version a step states is the head it reads, and its own body cannot move it. */
  lemma ReadyWriteCommits(cfg: Config, s: State, ctx: Ctx, call: Call, op: Operation, level: Level, p: Proposed)
    requires Runnable(cfg, p) && op == cfg.registry[p.op]
    requires call.op == p.op && call.args == p.args && call.expected == HeadOf(cfg, s, p)
    requires StoredAction(s.ledger, ReservationFor(ctx, call)) == None
    requires level == AsksFirst ==> ApprovalFor(s, ctx, call, op, level).Some?
    ensures var d := WriteCall(cfg, s, ctx, call, op, level);
            && d.Ran? && d.outcome.Committed? && d.outcome.action.Some?
            && StoredAction(d.state.ledger, ReservationFor(ctx, call)).Some?
            && Written(cfg, s, ctx, call, op, level).Some?
            && d.state.approvals == Written(cfg, s, ctx, call, op, level).value.0.approvals
  {
    WriteLands(cfg, s, ctx, call, op, level);
  }

  /** Spending turns open rows into consumed ones, neither of which stands in a continuation's way. */
  lemma WriteAnswersNothing(cfg: Config, s: State, c: Claimed, w: Work, ctx: Ctx, call: Call, op: Operation, level: Level)
    requires op.body.Plain? && Written(cfg, s, ctx, call, op, level).Some? && Unanswered(s.approvals, c, w, -1)
    ensures Unanswered(Written(cfg, s, ctx, call, op, level).value.0.approvals, c, w, -1)
  {
  }

  // ---- one round ----------------------------------------------------------------------------

  /** What dispatching the plan from its `i`-th call leaves: a committed prefix, and at its end
      nothing, or the one question of the call it stopped at. */
  ghost predicate Swept(cfg: Config, s: State, c: Claimed, w: Work, ceiling: Grants, i: nat)
    requires i <= |w.completion.calls| && Declared(cfg, w)
  {
    SweptAs(cfg, s, c, w, ceiling, i, DispatchAll(cfg, s, c, w, ceiling, i))
  }

  ghost predicate Declared(cfg: Config, w: Work) {
    forall k :: 0 <= k < |w.completion.calls| ==> w.completion.calls[k].op in cfg.registry
  }

  ghost predicate SweptAs(cfg: Config, s: State, c: Claimed, w: Work, ceiling: Grants, i: nat, b: Batch)
    requires i <= |w.completion.calls| && Declared(cfg, w)
  {
    var calls := w.completion.calls;
    && !b.Aborted? && b.state.grants == s.grants && b.state.threads == s.threads
    && var j := i + |b.results|;
       && j <= |calls| && (b.Finished? <==> j == |calls|)
       && (forall k :: i <= k < j ==> IsCommitted(b.state, c, calls[k]))
       && (b.Finished? ==> Unanswered(b.state.approvals, c, w, -1))
       && (b.ParkedAt? ==>
             && !IsCommitted(b.state, c, calls[j]) && LevelFor(s, w, ceiling, calls[j]) == Some(AsksFirst)
             && b.approval == |b.state.approvals| - 1
             && b.state.approvals[b.approval] == QuestionFor(cfg, c, w, j)
             && Unanswered(b.state.approvals, c, w, b.approval))
  }

  /** `b` is `b1` with one more result in front. */
  predicate OneMoreResult(b: Batch, b1: Batch) {
    match b1
    case Aborted => b.Aborted?
    case Finished(s, rs) => b.Finished? && b.state == s && |b.results| == |rs| + 1
    case ParkedAt(s, rs, a, _) => b.ParkedAt? && b.state == s && |b.results| == |rs| + 1 && b.approval == a
  }

  /** A call that does not park hands the state it leaves to the next. */
  lemma PlanUnfolds(cfg: Config, s: State, c: Claimed, w: Work, ceiling: Grants, i: nat)
    requires i < |w.completion.calls| && w.completion.calls[i].op in cfg.registry && CallEnds(cfg, s, c, w, ceiling, i)
    ensures var d := Dispatch(cfg, s, CtxAt(c, w, ceiling, i), CallFor(cfg, w, i));
            var b := DispatchAll(cfg, s, c, w, ceiling, i);
            if d.outcome.Waiting? then b == ParkedAt(d.state, [], d.outcome.approval, w.completion.calls[i].op)
            else OneMoreResult(b, DispatchAll(cfg, d.state, c, w, ceiling, i + 1))
  {
    var d := Dispatch(cfg, s, CtxAt(c, w, ceiling, i), CallFor(cfg, w, i));
    if !d.outcome.Waiting? {
      var a := ResultOf(d.state, c.run, w.principal, w.notice(i), w.completion.calls[i].id, d.outcome).value;
      assert a.state == d.state;
      assert DispatchAll(cfg, s, c, w, ceiling, i) == Prepend(a.result, DispatchAll(cfg, d.state, c, w, ceiling, i + 1));
    }
  }

  lemma {:induction false} Sweep(cfg: Config, s: State, c: Claimed, w: Work, ceiling: Grants, i: nat)
    requires Sound(cfg, s) && PlanReady(cfg, s, w, ceiling) && i <= |w.completion.calls|
    requires c.run < |s.threads| && RunInv(s.threads[c.run])
    requires Unanswered(s.approvals, c, w, -1) && StatesHeads(cfg, s, c, w, ceiling, i)
    ensures Declared(cfg, w)
    ensures Swept(cfg, s, c, w, ceiling, i)
    decreases |w.completion.calls| - i
  {
    ReadyIsDeclared(cfg, s, w, ceiling);
    if i < |w.completion.calls| {
      CallRuns(cfg, s, c, w, ceiling, i);
      PlanUnfolds(cfg, s, c, w, ceiling, i);
      if !Dispatch(cfg, s, CtxAt(c, w, ceiling, i), CallFor(cfg, w, i)).outcome.Waiting? {
        CallHandsOn(cfg, s, c, w, ceiling, i);
        var s1 := Dispatch(cfg, s, CtxAt(c, w, ceiling, i), CallFor(cfg, w, i)).state;
        Sweep(cfg, s1, c, w, ceiling, i + 1);
        SweptOn(cfg, s, c, w, ceiling, i, s1);
      }
    }
  }

  lemma ReadyIsDeclared(cfg: Config, s: State, w: Work, ceiling: Grants)
    requires PlanReady(cfg, s, w, ceiling)
    ensures Declared(cfg, w)
  {
    forall k | 0 <= k < |w.completion.calls| ensures w.completion.calls[k].op in cfg.registry {
      assert Runnable(cfg, w.completion.calls[k]);
    }
  }

  /** A call that did not park leaves the plane as ready for the next one. */
  lemma CallHandsOn(cfg: Config, s: State, c: Claimed, w: Work, ceiling: Grants, i: nat)
    requires Sound(cfg, s) && PlanReady(cfg, s, w, ceiling) && i < |w.completion.calls| && Declared(cfg, w)
    requires Unanswered(s.approvals, c, w, -1)
    requires CallEnds(cfg, s, c, w, ceiling, i)
    requires !Dispatch(cfg, s, CtxAt(c, w, ceiling, i), CallFor(cfg, w, i)).outcome.Waiting?
    ensures var s1 := Dispatch(cfg, s, CtxAt(c, w, ceiling, i), CallFor(cfg, w, i)).state;
            && Sound(cfg, s1) && PlanReady(cfg, s1, w, ceiling) && Unanswered(s1.approvals, c, w, -1)
            && s1.grants == s.grants && s1.threads == s.threads && IsCommitted(s1, c, w.completion.calls[i])
  {
    var call := CallFor(cfg, w, i);
    DispatchKeepsSound(cfg, s, CtxAt(c, w, ceiling, i), call);
    SameLevels(cfg, s, Dispatch(cfg, s, CtxAt(c, w, ceiling, i), call).state, w, ceiling);
  }

  /** Putting one answered call in front of the rest of the plan. */
  lemma SweptOn(cfg: Config, s: State, c: Claimed, w: Work, ceiling: Grants, i: nat, s1: State)
    requires i < |w.completion.calls| && Declared(cfg, w) && Sound(cfg, s1)
    requires c.run < |s1.threads| && RunInv(s1.threads[c.run])
    requires s1.grants == s.grants && s1.threads == s.threads && IsCommitted(s1, c, w.completion.calls[i])
    requires OneMoreResult(DispatchAll(cfg, s, c, w, ceiling, i), DispatchAll(cfg, s1, c, w, ceiling, i + 1))
    requires Swept(cfg, s1, c, w, ceiling, i + 1)
    ensures Swept(cfg, s, c, w, ceiling, i)
  {
    BatchKeeps(cfg, s1, c, w, ceiling, i + 1);
    SweptBefore(cfg, s, c, w, ceiling, i, s1, DispatchAll(cfg, s, c, w, ceiling, i), DispatchAll(cfg, s1, c, w, ceiling, i + 1));
  }

  lemma SameLevels(cfg: Config, s: State, s1: State, w: Work, ceiling: Grants)
    requires GrantsOf(s1, w.principal) == GrantsOf(s, w.principal)
    ensures PlanReady(cfg, s, w, ceiling) ==> PlanReady(cfg, s1, w, ceiling)
    ensures forall p :: LevelFor(s1, w, ceiling, p) == LevelFor(s, w, ceiling, p)
  {
  }

  /** Putting one answered call in front of what the rest of the plan leaves. */
  lemma SweptBefore(cfg: Config, s: State, c: Claimed, w: Work, ceiling: Grants, i: nat, s1: State, b: Batch, b1: Batch)
    requires i < |w.completion.calls| && Declared(cfg, w)
    requires s1.grants == s.grants && s1.threads == s.threads && IsCommitted(s1, c, w.completion.calls[i])
    requires OneMoreResult(b, b1) && SweptAs(cfg, s1, c, w, ceiling, i + 1, b1) && LedgerGrows(s1.ledger, b1.state.ledger)
    ensures SweptAs(cfg, s, c, w, ceiling, i, b)
  {
    SameLevels(cfg, s, s1, w, ceiling);
    assert StoredAction(b1.state.ledger, KeyFor(c, w.completion.calls[i])).Some?;
  }

  /** An open approval for call `m`, unexpired when the plan gets there. */
  ghost predicate Payable(cfg: Config, rows: seq<Approval>, w: Work, m: nat)
    requires m < |w.completion.calls| && w.completion.calls[m].op in cfg.registry
  {
    var p := w.completion.calls[m];
    var v := cfg.registry[p.op].versionId;
    exists a :: 0 <= a < |rows| && Spendable(rows[a], Consume(w.principal, v, ArgsDigest(v, p.args), None, w.clock(m)))
  }

  /** A committed call replays and leaves the rest of the plan to the same state. */
  lemma ReplayPasses(cfg: Config, s: State, c: Claimed, w: Work, ceiling: Grants, i: nat)
    requires Sound(cfg, s) && PlanReady(cfg, s, w, ceiling) && i < |w.completion.calls|
    requires Unanswered(s.approvals, c, w, -1) && StatesHeads(cfg, s, c, w, ceiling, i)
    requires IsCommitted(s, c, w.completion.calls[i])
    ensures StatesHeads(cfg, s, c, w, ceiling, i + 1)
    ensures OneMoreResult(DispatchAll(cfg, s, c, w, ceiling, i), DispatchAll(cfg, s, c, w, ceiling, i + 1))
  {
    ReadyIsDeclared(cfg, s, w, ceiling);
    CallRuns(cfg, s, c, w, ceiling, i);
    PlanUnfolds(cfg, s, c, w, ceiling, i);
  }

  /** A call that is paid for is answered. */
  lemma PaidPasses(cfg: Config, s: State, c: Claimed, w: Work, ceiling: Grants, m: nat)
    requires Sound(cfg, s) && PlanReady(cfg, s, w, ceiling) && m < |w.completion.calls|
    requires Unanswered(s.approvals, c, w, -1) && StatesHeads(cfg, s, c, w, ceiling, m)
    requires w.completion.calls[m].op in cfg.registry && Payable(cfg, s.approvals, w, m)
    requires !DispatchAll(cfg, s, c, w, ceiling, m).Aborted?
    ensures |DispatchAll(cfg, s, c, w, ceiling, m).results| >= 1
  {
    CallRuns(cfg, s, c, w, ceiling, m);
    PlanUnfolds(cfg, s, c, w, ceiling, m);
    PaidCallRuns(cfg, s, c, w, ceiling, m, CallFor(cfg, w, m));
  }

  /** What the plan comes to from each of its calls, on one state. */
  function BatchFrom(cfg: Config, s: State, c: Claimed, w: Work, ceiling: Grants): int -> Batch {
    (k: int) => if 0 <= k <= |w.completion.calls| then DispatchAll(cfg, s, c, w, ceiling, k) else Aborted
  }

  lemma {:induction false} ResultsAdd(batch: int -> Batch, i: int, m: int)
    requires i <= m && (forall k :: i <= k < m ==> OneMoreResult(batch(k), batch(k + 1)))
    requires !batch(m).Aborted? && |batch(m).results| >= 1
    ensures !batch(i).Aborted? && i + |batch(i).results| > m
    decreases m - i
  {
    if i < m { ResultsAdd(batch, i + 1, m); }
  }

  lemma {:induction false} HeadsHold(cfg: Config, s: State, c: Claimed, w: Work, ceiling: Grants, m: nat, k: nat)
    requires k <= m < |w.completion.calls| && StatesHeads(cfg, s, c, w, ceiling, 0)
    requires forall j :: 0 <= j < m ==> IsCommitted(s, c, w.completion.calls[j])
    ensures StatesHeads(cfg, s, c, w, ceiling, k)
  {
    if k > 0 { HeadsHold(cfg, s, c, w, ceiling, m, k - 1); }
  }

  /** With the calls before `m` committed and call `m` paid for, the plan gets past `m`. */
  lemma SweepPast(cfg: Config, s: State, c: Claimed, w: Work, ceiling: Grants, m: nat)
    requires Sound(cfg, s) && PlanReady(cfg, s, w, ceiling) && m < |w.completion.calls|
    requires c.run < |s.threads| && RunInv(s.threads[c.run])
    requires Unanswered(s.approvals, c, w, -1) && StatesHeads(cfg, s, c, w, ceiling, 0)
    requires forall k :: 0 <= k < m ==> IsCommitted(s, c, w.completion.calls[k])
    requires w.completion.calls[m].op in cfg.registry && Payable(cfg, s.approvals, w, m)
    ensures !DispatchAll(cfg, s, c, w, ceiling, 0).Aborted? && |DispatchAll(cfg, s, c, w, ceiling, 0).results| > m
  {
    var batch := BatchFrom(cfg, s, c, w, ceiling);
    forall k | 0 <= k < m ensures OneMoreResult(batch(k), batch(k + 1)) {
      PastCommitted(cfg, s, c, w, ceiling, m, k);
    }
    PastPaid(cfg, s, c, w, ceiling, m);
    ResultsAdd(batch, 0, m);
  }

  lemma PastCommitted(cfg: Config, s: State, c: Claimed, w: Work, ceiling: Grants, m: nat, k: nat)
    requires Sound(cfg, s) && PlanReady(cfg, s, w, ceiling) && k < m < |w.completion.calls|
    requires Unanswered(s.approvals, c, w, -1) && StatesHeads(cfg, s, c, w, ceiling, 0)
    requires forall j :: 0 <= j < m ==> IsCommitted(s, c, w.completion.calls[j])
    ensures OneMoreResult(BatchFrom(cfg, s, c, w, ceiling)(k), BatchFrom(cfg, s, c, w, ceiling)(k + 1))
  {
    HeadsHold(cfg, s, c, w, ceiling, m, k);
    ReplayAdds(cfg, s, c, w, ceiling, k);
  }

  lemma ReplayAdds(cfg: Config, s: State, c: Claimed, w: Work, ceiling: Grants, k: nat)
    requires Sound(cfg, s) && PlanReady(cfg, s, w, ceiling) && k < |w.completion.calls|
    requires Unanswered(s.approvals, c, w, -1) && StatesHeads(cfg, s, c, w, ceiling, k)
    requires IsCommitted(s, c, w.completion.calls[k])
    ensures OneMoreResult(BatchFrom(cfg, s, c, w, ceiling)(k), BatchFrom(cfg, s, c, w, ceiling)(k + 1))
  {
    ReplayPasses(cfg, s, c, w, ceiling, k);
    BatchesFrom(cfg, s, c, w, ceiling, k);
    SameBatches(BatchFrom(cfg, s, c, w, ceiling)(k), BatchFrom(cfg, s, c, w, ceiling)(k + 1),
                DispatchAll(cfg, s, c, w, ceiling, k), DispatchAll(cfg, s, c, w, ceiling, k + 1));
  }

  lemma BatchesFrom(cfg: Config, s: State, c: Claimed, w: Work, ceiling: Grants, k: nat)
    requires k < |w.completion.calls|
    ensures BatchFrom(cfg, s, c, w, ceiling)(k) == DispatchAll(cfg, s, c, w, ceiling, k)
    ensures BatchFrom(cfg, s, c, w, ceiling)(k + 1) == DispatchAll(cfg, s, c, w, ceiling, k + 1)
  {
  }

  lemma SameBatches(a: Batch, a1: Batch, b: Batch, b1: Batch)
    requires a == b && a1 == b1 && OneMoreResult(b, b1)
    ensures OneMoreResult(a, a1)
  {
  }

  lemma PastPaid(cfg: Config, s: State, c: Claimed, w: Work, ceiling: Grants, m: nat)
    requires Sound(cfg, s) && PlanReady(cfg, s, w, ceiling) && m < |w.completion.calls|
    requires c.run < |s.threads| && RunInv(s.threads[c.run])
    requires Unanswered(s.approvals, c, w, -1) && StatesHeads(cfg, s, c, w, ceiling, 0)
    requires forall k :: 0 <= k < m ==> IsCommitted(s, c, w.completion.calls[k])
    requires w.completion.calls[m].op in cfg.registry && Payable(cfg, s.approvals, w, m)
    ensures var b := BatchFrom(cfg, s, c, w, ceiling)(m); !b.Aborted? && |b.results| >= 1
  {
    HeadsHold(cfg, s, c, w, ceiling, m, m);
    Sweep(cfg, s, c, w, ceiling, m);
    PaidPasses(cfg, s, c, w, ceiling, m);
  }

  lemma PaidCallRuns(cfg: Config, s: State, c: Claimed, w: Work, ceiling: Grants, m: nat, call: Call)
    requires m < |w.completion.calls| && w.completion.calls[m].op in cfg.registry && Payable(cfg, s.approvals, w, m)
    requires CallEnds(cfg, s, c, w, ceiling, m) && call == CallFor(cfg, w, m)
    ensures !Dispatch(cfg, s, CtxAt(c, w, ceiling, m), call).outcome.Waiting?
    ensures Unanswered(s.approvals, c, w, -1) ==>
              Unanswered(Dispatch(cfg, s, CtxAt(c, w, ceiling, m), call).state.approvals, c, w, -1)
  {
    var p := w.completion.calls[m];
    var v := cfg.registry[p.op].versionId;
    var a :| 0 <= a < |s.approvals|
             && Spendable(s.approvals[a], Consume(w.principal, v, ArgsDigest(v, p.args), None, w.clock(m)));
    assert Spendable(s.approvals[a], ConsumeFor(CtxAt(c, w, ceiling, m), call, cfg.registry[p.op], Some(|s.ledger.actions|)));
  }
}
