/** The token cap over whole histories (`model/service.py`, `work.step`). */
module Budgets {
  import opened Tables
  import opened Runs
  import opened Dispatching
  import opened Working
  import opened Histories
  import opened RunLaws
  import opened BatchLaws
  import opened Lifecycle
  import opened Leases

  /** What a run has spent is what its usage rows add up to, both counts of each. */
  lemma SpendAdds(us: seq<Usage>, u: Usage)
    ensures Spend([]) == 0
    ensures Spend(us + [u]) == Spend(us) + u.input + u.output
  {
    assert (us + [u])[..|us|] == us;
  }

  /** Whatever happened from an empty plane, with no assumption on leases: each answered call was within
      the cap when it was made, so what is recorded never exceeds the cap by more than the last call's
      usage overran its estimate. */
  lemma SpendIsBounded(cfg: Config, data: Data, grants: map<Principal, Grants>, h: seq<Txn>, r: nat)
    requires Exec(cfg, Initial(data, grants), h).Some? && r < |Exec(cfg, Initial(data, grants), h).value.threads|
    ensures var t := Exec(cfg, Initial(data, grants), h).value.threads[r];
            && (forall k :: 0 <= k < |t.usage| ==> Spend(t.usage[..k]) + t.usage[k].estimate <= t.cap)
            && (t.usage != [] ==> var last := t.usage[|t.usage| - 1];
                                  Spend(t.usage) <= t.cap - last.estimate + last.input + last.output)
  {
    InitialIsAlways(cfg, data, grants);
    HistoryKeeps(cfg, Initial(data, grants), h);
    var t := Exec(cfg, Initial(data, grants), h).value.threads[r];
    assert RunInv(t);
    if t.usage != [] {
      var n := |t.usage| - 1;
      assert Spend(t.usage[..n]) + t.usage[n].estimate <= t.cap;
    }
  }

  // ---- a spent run --------------------------------------------------------------------------

  /** A step past the cap makes no model call: it leaves one denial and nothing else in the ledger, no
      usage, no checkpoint and no queue row of its own, and fails the run if it was still running. */
  lemma OverCapStepRefuses(cfg: Config, s: State, c: Claimed, w: Work)
    requires c.run < |s.threads| && Spend(s.threads[c.run].usage) + w.estimate > s.threads[c.run].cap
    ensures Step(cfg, s, c, w).Some?
    ensures var s', t := Step(cfg, s, c, w).value, s.threads[c.run];
            && s'.approvals == s.approvals && s'.data == s.data && s'.grants == s.grants
            && s'.ledger == s.ledger.(events := s'.ledger.events)
            && |s'.ledger.events| == |s.ledger.events| + 1 && s.ledger.events <= s'.ledger.events
            && s'.ledger.events[|s.ledger.events|]
               == Event(Denial, Aggregate("run", OfRun(c.run)), 0, Some(c.run), Some(c.step), w.principal, None,
                        Refusal("budget_exceeded", None, OverBudget(Spend(t.usage), w.estimate, t.cap)), None)
            && s'.threads == s.threads[c.run := s'.threads[c.run]]
            && var t' := s'.threads[c.run];
               && t'.usage == t.usage && t'.checkpoints == t.checkpoints && t'.mailbox == t.mailbox
               && t'.queue == t.queue - {c.step}
               && (if t.state == Running then t'.state == Tables.Failed && t'.failure == Some("budget_exceeded")
                   else t'.state == t.state && t'.failure == t.failure)
  {
  }

  /** The row an answered call leaves: its own step, what its prompt was estimated at, and what the model
      reports it used. */
  function UsageOf(c: Claimed, w: Work): Usage {
    Usage(c.step, w.estimate, w.completion.input, w.completion.output, w.completion.cached)
  }

  /** A step that commits makes a model call exactly when the estimate fits under the cap, and then the run's
      usage gains exactly that call's row. */
  lemma StepAnswersIffWithinCap(cfg: Config, s: State, c: Claimed, w: Work)
    requires Always(cfg, s) && Step(cfg, s, c, w).Some?
    ensures |Step(cfg, s, c, w).value.threads| == |s.threads|
    ensures Step(cfg, s, c, w).value.threads[c.run].usage
         == s.threads[c.run].usage
            + if Spend(s.threads[c.run].usage) + w.estimate <= s.threads[c.run].cap
              then [Usage(c.step, w.estimate, w.completion.input, w.completion.output, w.completion.cached)] else []
  {
    if WithinCap(s.threads[c.run], w.estimate) {
      PlanAnswers(cfg, s, c, w);
      UsageOutlastsThePlan(cfg, s, c, w);
    } else {
      OverCapStepRefuses(cfg, s, c, w);
    }
  }

  /** Past the model call nothing a plan does is billed. */
  lemma PlanAnswers(cfg: Config, s: State, c: Claimed, w: Work)
    requires Always(cfg, s) && c.run < |s.threads| && WithinCap(s.threads[c.run], w.estimate)
    requires !DispatchAll(cfg, Planning(s, c, w), c, w, s.threads[c.run].ceiling, 0).Aborted?
    ensures var ts := DispatchAll(cfg, Planning(s, c, w), c, w, s.threads[c.run].ceiling, 0).state.threads;
            |ts| == |s.threads| && ts[c.run].usage == s.threads[c.run].usage + [UsageOf(c, w)]
  {
    PlanningKeeps(cfg, s, c, w);
    BatchKeeps(cfg, Planning(s, c, w), c, w, s.threads[c.run].ceiling, 0);
    BatchBillsNothing(cfg, Planning(s, c, w), c, w, s.threads[c.run].ceiling, 0);
  }

  lemma {:induction false} BatchBillsNothing(cfg: Config, s: State, c: Claimed, w: Work, ceiling: Grants, i: nat)
    requires i <= |w.completion.calls| && !DispatchAll(cfg, s, c, w, ceiling, i).Aborted? && c.run < |s.threads|
    ensures var ts := DispatchAll(cfg, s, c, w, ceiling, i).state.threads;
            |ts| == |s.threads| && ts[c.run].usage == s.threads[c.run].usage
    decreases |w.completion.calls| - i
  {
    if i < |w.completion.calls| {
      var p, ctx, call := w.completion.calls[i], CtxAt(c, w, ceiling, i), CallFor(cfg, w, i);
      var d := Dispatch(cfg, s, ctx, call);
      RunsStand(cfg, s, ctx, call);
      if !d.outcome.Waiting? {
        NoticeBillsNothing(d.state, c.run, w.principal, w.notice(i), p.id, d.outcome);
        BatchBillsNothing(cfg, ResultOf(d.state, c.run, w.principal, w.notice(i), p.id, d.outcome).value.state, c, w, ceiling, i + 1);
      }
    }
  }

  lemma NoticeBillsNothing(s: State, r: nat, author: Principal, notice: Json, id: string, o: Outcome)
    requires !o.Waiting? && r < |s.threads| && ResultOf(s, r, author, notice, id, o).Some?
    ensures var ts := ResultOf(s, r, author, notice, id, o).value.state.threads;
            |ts| == |s.threads| && ts[r].usage == s.threads[r].usage
  {
  }

  lemma UsageOutlastsThePlan(cfg: Config, s: State, c: Claimed, w: Work)
    requires c.run < |s.threads| && WithinCap(s.threads[c.run], w.estimate) && Step(cfg, s, c, w).Some?
    requires !DispatchAll(cfg, Planning(s, c, w), c, w, s.threads[c.run].ceiling, 0).Aborted?
    requires |DispatchAll(cfg, Planning(s, c, w), c, w, s.threads[c.run].ceiling, 0).state.threads| == |s.threads|
    ensures var ts := DispatchAll(cfg, Planning(s, c, w), c, w, s.threads[c.run].ceiling, 0).state.threads;
            |Step(cfg, s, c, w).value.threads| == |ts| && Step(cfg, s, c, w).value.threads[c.run].usage == ts[c.run].usage
  {
  }

  /** Once spend has reached the cap, a step of the run ends it: `failed`, unless it was cancelled. */
  lemma SpentRunFails(cfg: Config, s: State, c: Claimed, w: Work)
    requires LeasedInv(cfg, s) && Holds(s, c) && Spend(s.threads[c.run].usage) >= s.threads[c.run].cap && w.estimate > 0
    ensures Step(cfg, s, c, w).Some?
    ensures var t, t' := s.threads[c.run], Step(cfg, s, c, w).value.threads[c.run];
            && t'.usage == t.usage && t'.checkpoints == t.checkpoints && t'.queue == map[]
            && t'.state == if t.state == Cancelled then Cancelled else Tables.Failed
  {
    var t := s.threads[c.run];
    assert RunInv(t) && Shape(t);
    if t.state != Cancelled { HeldStepIsNext(t, c); }
    assert t.queue - {c.step} == map[];
  }

  // ---- and it stays spent -------------------------------------------------------------------

  /** Every prompt costs something: the platform policy alone does. */
  predicate Priced(h: seq<Txn>) {
    forall k :: 0 <= k < |h| && h[k].WorkStep? ==> h[k].work.estimate > 0
  }

  ghost predicate SameCalls(t: Thread, t': Thread) {
    t'.usage == t.usage && t'.checkpoints == t.checkpoints && t'.cap == t.cap
  }

  /** Only an answered step adds usage or a checkpoint, and only to its own run. */
  lemma OnlyStepsAnswer(cfg: Config, s: State, x: Txn, r: nat)
    requires Always(cfg, s) && Apply(cfg, s, x).Some? && r < |s.threads|
    requires x.WorkStep? && x.claim.run == r ==> !WithinCap(s.threads[r], x.work.estimate)
    ensures r < |Apply(cfg, s, x).value.threads| && SameCalls(s.threads[r], Apply(cfg, s, x).value.threads[r])
  {
    match x
    case WorkStep(c, w) => StepsAnswerTheirOwn(cfg, s, c, w, r);
    case CallOperation(p, call, now) => CallAnswersNothing(cfg, s, Ctx(p, None, None, now), call, r);
    case _ =>
  }

  lemma StepsAnswerTheirOwn(cfg: Config, s: State, c: Claimed, w: Work, r: nat)
    requires Always(cfg, s) && Step(cfg, s, c, w).Some? && r < |s.threads|
    requires c.run == r ==> !WithinCap(s.threads[r], w.estimate)
    ensures r < |Step(cfg, s, c, w).value.threads| && SameCalls(s.threads[r], Step(cfg, s, c, w).value.threads[r])
  {
    if !WithinCap(s.threads[c.run], w.estimate) {
      OverCapStepRefuses(cfg, s, c, w);
    } else {
      PlanLeavesOthers(cfg, s, c, w, r);
      OtherRunsStand(cfg, s, c, w, DispatchAll(cfg, Planning(s, c, w), c, w, s.threads[c.run].ceiling, 0), r);
    }
  }

  lemma PlanLeavesOthers(cfg: Config, s: State, c: Claimed, w: Work, r: nat)
    requires Always(cfg, s) && c.run < |s.threads| && r < |s.threads| && c.run != r && WithinCap(s.threads[c.run], w.estimate)
    requires !DispatchAll(cfg, Planning(s, c, w), c, w, s.threads[c.run].ceiling, 0).Aborted?
    ensures var ts := DispatchAll(cfg, Planning(s, c, w), c, w, s.threads[c.run].ceiling, 0).state.threads;
            |ts| == |s.threads| && ts[r] == Planning(s, c, w).threads[r]
  {
    PlanningKeeps(cfg, s, c, w);
    BatchKeeps(cfg, Planning(s, c, w), c, w, s.threads[c.run].ceiling, 0);
    assert OnlyNotices(Planning(s, c, w).threads,
                       DispatchAll(cfg, Planning(s, c, w), c, w, s.threads[c.run].ceiling, 0).state.threads, c.run);
  }

  lemma OtherRunsStand(cfg: Config, s: State, c: Claimed, w: Work, b: Batch, r: nat)
    requires c.run < |s.threads| && r < |s.threads| && c.run != r && Step(cfg, s, c, w).Some?
    requires WithinCap(s.threads[c.run], w.estimate)
    requires b == DispatchAll(cfg, Planning(s, c, w), c, w, s.threads[c.run].ceiling, 0) && !b.Aborted?
    requires |b.state.threads| == |s.threads| && b.state.threads[r] == Planning(s, c, w).threads[r]
    ensures |Step(cfg, s, c, w).value.threads| == |s.threads| && Step(cfg, s, c, w).value.threads[r] == s.threads[r]
  {
  }

  lemma CallAnswersNothing(cfg: Config, s: State, ctx: Ctx, call: Call, r: nat)
    requires ctx.at.None? && Dispatch(cfg, s, ctx, call).Ran? && r < |s.threads|
    ensures var ts := Dispatch(cfg, s, ctx, call).state.threads; r < |ts| && SameCalls(s.threads[r], ts[r])
  {
    if Dispatch(cfg, s, ctx, call).outcome.Committed? {
      var from := CommittedFrom(cfg, s, ctx, call);
      BodyAnswersNothing(cfg, from, ctx, cfg.registry[call.op], call.args, r);
    } else {
      RefusedKeepsRuns(cfg, s, ctx, call);
    }
  }

  lemma BodyAnswersNothing(cfg: Config, s: State, ctx: Ctx, op: Operation, args: Json, r: nat)
    requires RunBody(cfg, s, ctx, op, args).Some? && r < |s.threads|
    ensures var ts := RunBody(cfg, s, ctx, op, args).value.0.threads;
            |ts| == |s.threads| && SameCalls(s.threads[r], ts[r])
  {
  }

  /** Once a run has spent its cap it never makes another model call and never checkpoints again,
      whoever steers it, whatever is decided, and whichever workers still hold its steps. */
  lemma {:induction false} SpentRunStaysSpent(cfg: Config, s: State, h: seq<Txn>, r: nat)
    requires Always(cfg, s) && Exec(cfg, s, h).Some? && Priced(h)
    requires r < |s.threads| && Spend(s.threads[r].usage) >= s.threads[r].cap
    ensures r < |Exec(cfg, s, h).value.threads| && SameCalls(s.threads[r], Exec(cfg, s, h).value.threads[r])
  {
    if h != [] {
      var n := |h| - 1;
      SpentRunStaysSpent(cfg, s, h[..n], r);
      HistoryKeeps(cfg, s, h[..n]);
      OnlyStepsAnswer(cfg, Exec(cfg, s, h[..n]).value, h[n], r);
    }
  }

  // ---- the bill -----------------------------------------------------------------------------

  /** The transaction makes a model call for run `r`. */
  ghost predicate Answers(cfg: Config, s: State, x: Txn, r: nat) {
    && x.WorkStep? && x.claim.run == r && r < |s.threads| && Apply(cfg, s, x).Some?
    && r < |Apply(cfg, s, x).value.threads|
    && |Apply(cfg, s, x).value.threads[r].usage| > |s.threads[r].usage|
  }

  /** The transactions of a history that make a model call for run `r`. */
  ghost function CallsFor(cfg: Config, s: State, h: seq<Txn>, r: nat): int -> bool {
    (k: int) => 0 <= k < |h| && Exec(cfg, s, h[..k]).Some? && Answers(cfg, Exec(cfg, s, h[..k]).value, h[k], r)
  }

  /** The `k`-th of the first `n` is the last that does. */
  ghost predicate LastOf(calls: int -> bool, n: int, k: int) {
    0 <= k < n && calls(k) && forall j :: k < j < n ==> !calls(j)
  }

  lemma SameCallAt(cfg: Config, s: State, h: seq<Txn>, r: nat, k: int)
    requires 0 <= k < |h| - 1
    ensures CallsFor(cfg, s, h[..|h| - 1], r)(k) == CallsFor(cfg, s, h, r)(k)
  {
    assert h[..|h| - 1][..k] == h[..k];
  }

  lemma StillLast(calls: int -> bool, calls': int -> bool, n: int, k: int)
    requires LastOf(calls, n, k) && !calls'(n) && forall j :: 0 <= j < n ==> calls(j) == calls'(j)
    ensures LastOf(calls', n + 1, k)
  {
  }

  /** What the provider bills for run `r` over a history: input and output of every call it answered. */
  ghost function Bill(cfg: Config, s: State, h: seq<Txn>, r: nat): nat {
    if h == [] then 0 else
      var n := |h| - 1;
      var before := Exec(cfg, s, h[..n]);
      Bill(cfg, s, h[..n], r)
        + if before.Some? && Answers(cfg, before.value, h[n], r)
          then h[n].work.completion.input + h[n].work.completion.output else 0
  }

  lemma CallAddsNoRun(cfg: Config, s: State, ctx: Ctx, call: Call)
    requires ctx.at.None? && Dispatch(cfg, s, ctx, call).Ran?
    ensures |Dispatch(cfg, s, ctx, call).state.threads| == |s.threads|
  {
    if Dispatch(cfg, s, ctx, call).outcome.Committed? {
      var from := CommittedFrom(cfg, s, ctx, call);
    } else {
      RefusedKeepsRuns(cfg, s, ctx, call);
    }
  }

  /** A run starts with nothing billed and nothing settled. */
  lemma NewRunsOweNothing(cfg: Config, s: State, x: Txn, r: nat)
    requires Always(cfg, s) && Apply(cfg, s, x).Some? && |s.threads| <= r < |Apply(cfg, s, x).value.threads|
    ensures Apply(cfg, s, x).value.threads[r].usage == [] && Apply(cfg, s, x).value.threads[r].checkpoints == []
  {
    match x
    case WorkStep(c, w) => StepAnswersIffWithinCap(cfg, s, c, w);
    case CallOperation(p, call, now) => CallAddsNoRun(cfg, s, Ctx(p, None, None, now), call);
    case _ =>
  }

  lemma OneMoreBilled(cfg: Config, s: State, x: Txn, r: nat)
    requires Always(cfg, s) && Apply(cfg, s, x).Some? && r < |s.threads|
    ensures r < |Apply(cfg, s, x).value.threads|
    ensures Spend(Apply(cfg, s, x).value.threads[r].usage)
         == Spend(s.threads[r].usage)
            + if Answers(cfg, s, x, r) then x.work.completion.input + x.work.completion.output else 0
    ensures x.WorkStep? && x.claim.run == r ==>
              (Answers(cfg, s, x, r) <==> Spend(s.threads[r].usage) + x.work.estimate <= s.threads[r].cap)
  {
    if x.WorkStep? && x.claim.run == r {
      StepAnswersIffWithinCap(cfg, s, x.claim, x.work);
      SpendAdds(s.threads[r].usage, UsageOf(x.claim, x.work));
      assert s.threads[r].usage + [] == s.threads[r].usage;
    } else {
      OnlyStepsAnswer(cfg, s, x, r);
    }
  }

  /** What the tables say a run has spent is what it was billed. */
  lemma {:induction false} SpendIsBilled(cfg: Config, data: Data, grants: map<Principal, Grants>, h: seq<Txn>, r: nat)
    requires Exec(cfg, Initial(data, grants), h).Some?
    ensures var ts := Exec(cfg, Initial(data, grants), h).value.threads;
            Bill(cfg, Initial(data, grants), h, r) == if r < |ts| then Spend(ts[r].usage) else 0
  {
    if h != [] {
      var n, s := |h| - 1, Initial(data, grants);
      SpendIsBilled(cfg, data, grants, h[..n], r);
      InitialIsAlways(cfg, data, grants);
      HistoryKeeps(cfg, s, h[..n]);
      var before := Exec(cfg, s, h[..n]).value;
      if r < |before.threads| {
        OneMoreBilled(cfg, before, h[n], r);
      } else if r < |Exec(cfg, s, h).value.threads| {
        NewRunsOweNothing(cfg, before, h[n], r);
      }
    }
  }

  lemma {:induction false} PrefixRuns(cfg: Config, s: State, h: seq<Txn>, k: nat)
    requires Exec(cfg, s, h).Some? && k <= |h|
    ensures Exec(cfg, s, h[..k]).Some?
  {
    if k < |h| {
      PrefixRuns(cfg, s, h[..|h| - 1], k);
      assert h[..|h| - 1][..k] == h[..k];
    } else {
      assert h[..k] == h;
    }
  }

  /** The cap, over any history whatever: a worked step makes its model call exactly when what the run was
      billed before and what the prompt is estimated at come to no more than the cap the run was created
      with. */
  lemma CallsAreMadeWithinCap(cfg: Config, data: Data, grants: map<Principal, Grants>, h: seq<Txn>, k: nat)
    requires Exec(cfg, Initial(data, grants), h).Some? && k < |h| && h[k].WorkStep?
    ensures Exec(cfg, Initial(data, grants), h[..k]).Some?
    ensures var s, r := Exec(cfg, Initial(data, grants), h[..k]).value, h[k].claim.run;
            && r < |s.threads|
            && (Answers(cfg, s, h[k], r) <==>
                  Bill(cfg, Initial(data, grants), h[..k], r) + h[k].work.estimate <= s.threads[r].cap)
            && (Answers(cfg, s, h[k], r) ==>
                  Apply(cfg, s, h[k]).value.threads[r].usage
                  == s.threads[r].usage + [Usage(h[k].claim.step, h[k].work.estimate, h[k].work.completion.input,
                                                 h[k].work.completion.output, h[k].work.completion.cached)])
  {
    var s0 := Initial(data, grants);
    PrefixRuns(cfg, s0, h, k);
    PrefixRuns(cfg, s0, h, k + 1);
    assert h[..k + 1][..k] == h[..k];
    InitialIsAlways(cfg, data, grants);
    HistoryKeeps(cfg, s0, h[..k]);
    SpendIsBilled(cfg, data, grants, h[..k], h[k].claim.run);
    OneMoreBilled(cfg, Exec(cfg, s0, h[..k]).value, h[k], h[k].claim.run);
    StepAnswersIffWithinCap(cfg, Exec(cfg, s0, h[..k]).value, h[k].claim, h[k].work);
  }

  /** The bill is nothing, or no more than the cap, less what the last call was estimated at, and with what that
      call really used. */
  ghost predicate IsBounded(bill: int, cap: int, calls: int -> bool, h: seq<Txn>) {
    bill == 0
    || exists k :: LastOf(calls, |h|, k) && h[k].WorkStep?
         && bill <= cap - h[k].work.estimate + h[k].work.completion.input + h[k].work.completion.output
  }

  lemma CalledLast(bill: int, cap: int, calls: int -> bool, h: seq<Txn>)
    requires h != [] && calls(|h| - 1) && h[|h| - 1].WorkStep?
    requires var w := h[|h| - 1].work; bill <= cap - w.estimate + w.completion.input + w.completion.output
    ensures IsBounded(bill, cap, calls, h)
  {
    assert LastOf(calls, |h|, |h| - 1);
  }

  lemma CalledBefore(bill: int, cap: int, calls: int -> bool, calls': int -> bool, h: seq<Txn>)
    requires h != [] && IsBounded(bill, cap, calls, h[..|h| - 1]) && !calls'(|h| - 1)
    requires forall j :: 0 <= j < |h| - 1 ==> calls(j) == calls'(j)
    ensures IsBounded(bill, cap, calls', h)
  {
    var n := |h| - 1;
    if bill != 0 {
      var k :| LastOf(calls, n, k) && h[..n][k].WorkStep?
               && bill <= cap - h[..n][k].work.estimate + h[..n][k].work.completion.input + h[..n][k].work.completion.output;
      StillLast(calls, calls', n, k);
      assert h[..n][k] == h[k];
    }
  }

  /** So over any history the bill of every run is bounded by the cap it was created with. */
  lemma {:induction false} BillIsBounded(cfg: Config, data: Data, grants: map<Principal, Grants>, h: seq<Txn>, r: nat)
    requires Exec(cfg, Initial(data, grants), h).Some? && r < |Exec(cfg, Initial(data, grants), h).value.threads|
    ensures IsBounded(Bill(cfg, Initial(data, grants), h, r), Exec(cfg, Initial(data, grants), h).value.threads[r].cap,
                      CallsFor(cfg, Initial(data, grants), h, r), h)
  {
    var n, s0 := |h| - 1, Initial(data, grants);
    if h != [] {
      InitialIsAlways(cfg, data, grants);
      HistoryKeeps(cfg, s0, h[..n]);
      var before, last := Exec(cfg, s0, h[..n]).value, Exec(cfg, s0, h).value;
      if r < |before.threads| {
        BillIsBounded(cfg, data, grants, h[..n], r);
        SpendIsBilled(cfg, data, grants, h[..n], r);
        OneMoreBounded(cfg, s0, h, r, before, last);
      } else {
        NewRunsOweNothing(cfg, before, h[n], r);
        SpendIsBilled(cfg, data, grants, h, r);
      }
    }
  }

  lemma OneMoreBounded(cfg: Config, s: State, h: seq<Txn>, r: nat, before: State, last: State)
    requires h != [] && Exec(cfg, s, h[..|h| - 1]) == Some(before) && Apply(cfg, before, h[|h| - 1]) == Some(last)
    requires Always(cfg, before) && r < |before.threads| && r < |last.threads|
    requires Bill(cfg, s, h[..|h| - 1], r) == Spend(before.threads[r].usage)
    requires IsBounded(Bill(cfg, s, h[..|h| - 1], r), before.threads[r].cap, CallsFor(cfg, s, h[..|h| - 1], r), h[..|h| - 1])
    ensures IsBounded(Bill(cfg, s, h, r), last.threads[r].cap, CallsFor(cfg, s, h, r), h)
  {
    var n := |h| - 1;
    CapStands(cfg, before, h[n], r);
    LastIsCalled(cfg, s, h, r, before);
    if Answers(cfg, before, h[n], r) {
      OneMoreBilled(cfg, before, h[n], r);
      CalledLast(Bill(cfg, s, h, r), last.threads[r].cap, CallsFor(cfg, s, h, r), h);
    } else {
      forall j | 0 <= j < n ensures CallsFor(cfg, s, h[..n], r)(j) == CallsFor(cfg, s, h, r)(j) {
        SameCallAt(cfg, s, h, r, j);
      }
      CalledBefore(Bill(cfg, s, h, r), last.threads[r].cap, CallsFor(cfg, s, h[..n], r), CallsFor(cfg, s, h, r), h);
    }
  }

  lemma CapStands(cfg: Config, s: State, x: Txn, r: nat)
    requires Always(cfg, s) && Apply(cfg, s, x).Some? && r < |s.threads| && r < |Apply(cfg, s, x).value.threads|
    ensures Apply(cfg, s, x).value.threads[r].cap == s.threads[r].cap
  {
    ApplyKeeps(cfg, s, x);
    assert RunLater(s.threads[r], Apply(cfg, s, x).value.threads[r]);
  }

  lemma LastIsCalled(cfg: Config, s: State, h: seq<Txn>, r: nat, before: State)
    requires h != [] && Exec(cfg, s, h[..|h| - 1]) == Some(before)
    ensures CallsFor(cfg, s, h, r)(|h| - 1) == Answers(cfg, before, h[|h| - 1], r)
    ensures Bill(cfg, s, h, r)
         == Bill(cfg, s, h[..|h| - 1], r)
            + if Answers(cfg, before, h[|h| - 1], r)
              then h[|h| - 1].work.completion.input + h[|h| - 1].work.completion.output else 0
  {
  }
}
