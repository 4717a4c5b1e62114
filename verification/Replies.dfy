/** What the agent is shown to have said at a step is what the step that settled it said, however
    often the step was worked: the last plan journaled for a checkpointed step is the one it kept. */
module Replies {
  import opened Tables
  import opened Ledgers
  import opened Runs
  import opened Dispatching
  import opened Working
  import opened Histories
  import opened RunLaws
  import opened DispatchTheorems
  import opened Lifecycle
  import opened Leases
  import opened Guarantees
  import opened Budgets
  import opened Mailboxes
  import opened Transcripts

  // ---- who journals plans -------------------------------------------------------------------

  /** Events were added, and a plan among them is for this step of this run. */
  ghost predicate PlansOnlyAt(es: seq<Event>, es': seq<Event>, run: nat, step: nat) {
    && es <= es'
    && forall i :: |es| <= i < |es'| && es'[i].payload.Planned? ==> es'[i].run == Some(run) && es'[i].step == Some(step)
  }

  ghost predicate NoPlans(es: seq<Event>, es': seq<Event>) {
    es <= es' && forall i :: |es| <= i < |es'| ==> !es'[i].payload.Planned?
  }

  lemma NoPlansOn(a: seq<Event>, b: seq<Event>, c: seq<Event>)
    requires NoPlans(a, b) && NoPlans(b, c)
    ensures NoPlans(a, c)
  {
    forall i | |a| <= i < |c| ensures !c[i].payload.Planned? {
      if i < |b| { assert c[i] == b[i]; }
    }
  }

  lemma {:induction false} LastPlanStands(es: seq<Event>, es': seq<Event>, run: nat, step: nat, r: nat, k: nat)
    requires PlansOnlyAt(es, es', run, step) && (run != r || step != k)
    ensures LastPlan(es', r, k) == LastPlan(es, r, k)
    decreases |es'|
  {
    if |es'| > |es| {
      var n := |es'| - 1;
      assert PlansOnlyAt(es, es'[..n], run, step);
      assert !IsPlan(es'[n], r, k);
      LastPlanStands(es, es'[..n], run, step, r, k);
    } else {
      assert es' == es;
    }
  }

  lemma {:induction false} QuietEventsStand(es: seq<Event>, es': seq<Event>, r: nat, k: nat)
    requires NoPlans(es, es')
    ensures LastPlan(es', r, k) == LastPlan(es, r, k)
    decreases |es'|
  {
    LastPlanStands(es, es', r + 1, k, r, k);
  }

  lemma DispatchPlansNothing(cfg: Config, s: State, ctx: Ctx, call: Call)
    requires Dispatch(cfg, s, ctx, call).Ran?
    ensures NoPlans(s.ledger.events, Dispatch(cfg, s, ctx, call).state.ledger.events)
  {
    ParkPlansNothing(cfg, s, ctx, call);
    DenialPlansNothing(cfg, s, ctx, call);
    CommitPlansNothing(cfg, s, ctx, call);
    ReplayIsSilent(cfg, s, ctx, call);
  }

  lemma ParkPlansNothing(cfg: Config, s: State, ctx: Ctx, call: Call)
    ensures var d := Dispatch(cfg, s, ctx, call);
            d.Ran? && d.outcome.Waiting? ==> NoPlans(s.ledger.events, d.state.ledger.events)
  {
    var d := Dispatch(cfg, s, ctx, call);
    if d.Ran? && d.outcome.Waiting? { WaitingFrame(cfg, s, ctx, call); }
  }

  lemma DenialPlansNothing(cfg: Config, s: State, ctx: Ctx, call: Call)
    ensures var d := Dispatch(cfg, s, ctx, call);
            d.Ran? && d.outcome.Denied? ==> NoPlans(s.ledger.events, d.state.ledger.events)
  {
    var d := Dispatch(cfg, s, ctx, call);
    if d.Ran? && d.outcome.Denied? {
      RefusalFrame(cfg, s, ctx, call);
      DeniedAddsOne(s, d.state, ctx, call, d.outcome.reason, d.outcome.event, d.outcome.detail);
    }
  }

  lemma DeniedAddsOne(s: State, s': State, ctx: Ctx, call: Call, reason: string, at: nat, detail: Detail)
    requires OnlyDenied(s, s', ctx, call, reason, at, detail)
    ensures NoPlans(s.ledger.events, s'.ledger.events)
  {
  }

  lemma CommitPlansNothing(cfg: Config, s: State, ctx: Ctx, call: Call)
    ensures var d := Dispatch(cfg, s, ctx, call);
            d.Ran? && d.outcome.Committed? ==> NoPlans(s.ledger.events, d.state.ledger.events)
  {
    var d := Dispatch(cfg, s, ctx, call);
    if d.Ran? && d.outcome.Committed? {
      var reserved := Reserve(s, ReservationFor(ctx, call));
      assert d == Admit(cfg, reserved, ctx, call);
      AdmittedPlansNothing(cfg, reserved, ctx, call, d.outcome.action, d.outcome.result);
    }
  }

  lemma BodyMovesNoLedger(cfg: Config, s: State, ctx: Ctx, op: Operation, args: Json)
    requires RunBody(cfg, s, ctx, op, args).Some?
    ensures RunBody(cfg, s, ctx, op, args).value.0.ledger == s.ledger
  {
  }

  lemma AdmittedPlansNothing(cfg: Config, s: State, ctx: Ctx, call: Call, i: Option<nat>, result: Result)
    requires call.op in cfg.registry && StoredAction(s.ledger, ReservationFor(ctx, call)) == None
    requires Admit(cfg, s, ctx, call).Ran? && Admit(cfg, s, ctx, call).outcome == Committed(i, result)
    ensures NoPlans(s.ledger.events, Admit(cfg, s, ctx, call).state.ledger.events)
  {
    if i.Some? {
      AdmitCommitted(cfg, s, ctx, call, i.value, result);
    } else {
      AdmitRead(cfg, s, ctx, call, result);
      var op := cfg.registry[call.op];
      BodyMovesNoLedger(cfg, ReadFrom(s, ctx, call, op, EffectiveLevel(s, ctx, call.op).value), ctx, op, call.args);
    }
  }

  lemma {:induction false} BatchPlansNothing(cfg: Config, s: State, c: Claimed, w: Work, ceiling: Grants, i: nat)
    requires i <= |w.completion.calls| && !DispatchAll(cfg, s, c, w, ceiling, i).Aborted?
    ensures NoPlans(s.ledger.events, DispatchAll(cfg, s, c, w, ceiling, i).state.ledger.events)
    decreases |w.completion.calls| - i
  {
    if i < |w.completion.calls| {
      var p := w.completion.calls[i];
      var d := Dispatch(cfg, s, CtxAt(c, w, ceiling, i), CallFor(cfg, w, i));
      DispatchPlansNothing(cfg, s, CtxAt(c, w, ceiling, i), CallFor(cfg, w, i));
      if !d.outcome.Waiting? {
        NoticeMovesNoLedger(d.state, c.run, w.principal, w.notice(i), p.id, d.outcome);
        var a := ResultOf(d.state, c.run, w.principal, w.notice(i), p.id, d.outcome).value;
        BatchPlansNothing(cfg, a.state, c, w, ceiling, i + 1);
        NoPlansOn(s.ledger.events, a.state.ledger.events, DispatchAll(cfg, a.state, c, w, ceiling, i + 1).state.ledger.events);
      }
    }
  }

  /** A committed step journals at most one plan, its own; an answered one journals exactly that. */
  lemma StepPlansItself(cfg: Config, s: State, c: Claimed, w: Work)
    requires Step(cfg, s, c, w).Some?
    ensures PlansOnlyAt(s.ledger.events, Step(cfg, s, c, w).value.ledger.events, c.run, c.step)
    ensures WithinCap(s.threads[c.run], w.estimate) ==>
              LastPlan(Step(cfg, s, c, w).value.ledger.events, c.run, c.step) == Some(w.completion.text)
  {
    if WithinCap(s.threads[c.run], w.estimate) {
      var es, planned := s.ledger.events, Planning(s, c, w).ledger.events;
      var b := DispatchAll(cfg, Planning(s, c, w), c, w, s.threads[c.run].ceiling, 0);
      var es' := Step(cfg, s, c, w).value.ledger.events;
      BatchPlansNothing(cfg, Planning(s, c, w), c, w, s.threads[c.run].ceiling, 0);
      StepTailPlansNothing(cfg, s, c, w);
      NoPlansOn(planned, b.state.ledger.events, es');
      QuietEventsStand(planned, es', c.run, c.step);
      assert IsPlan(planned[|es|], c.run, c.step) && |planned| == |es| + 1;
      forall i | |es| <= i < |es'| && es'[i].payload.Planned? ensures es'[i].run == Some(c.run) && es'[i].step == Some(c.step) {
        assert i < |planned|;
        assert es'[i] == planned[i];
      }
    }
  }

  lemma StepTailPlansNothing(cfg: Config, s: State, c: Claimed, w: Work)
    requires c.run < |s.threads| && WithinCap(s.threads[c.run], w.estimate) && Step(cfg, s, c, w).Some?
    requires !DispatchAll(cfg, Planning(s, c, w), c, w, s.threads[c.run].ceiling, 0).Aborted?
    ensures NoPlans(DispatchAll(cfg, Planning(s, c, w), c, w, s.threads[c.run].ceiling, 0).state.ledger.events,
                    Step(cfg, s, c, w).value.ledger.events)
  {
  }

  lemma OthersPlanNothing(cfg: Config, s: State, x: Txn)
    requires Apply(cfg, s, x).Some? && !x.WorkStep?
    ensures NoPlans(s.ledger.events, Apply(cfg, s, x).value.ledger.events)
  {
    match x
    case CallOperation(p, call, now) => DispatchPlansNothing(cfg, s, Ctx(p, None, None, now), call);
    case _ =>
  }

  // ---- the invariant ------------------------------------------------------------------------

  /** Every settled step's last plan is the one its checkpoint kept. */
  ghost predicate Replied(es: seq<Event>, r: nat, cs: seq<Checkpoint>) {
    forall k :: 0 <= k < |cs| ==> LastPlan(es, r, cs[k].step) == Some(cs[k].text)
  }

  ghost predicate AllReplied(s: State) {
    forall r :: 0 <= r < |s.threads| ==> Replied(s.ledger.events, r, s.threads[r].checkpoints)
  }

  lemma NewRunsAreBlank(cfg: Config, s: State, x: Txn)
    requires Always(cfg, s) && Apply(cfg, s, x).Some?
    ensures forall r :: |s.threads| <= r < |Apply(cfg, s, x).value.threads| ==>
              Apply(cfg, s, x).value.threads[r].checkpoints == []
  {
    match x
    case WorkStep(c, w) => StepAddsNoRun(cfg, s, c, w);
    case CallOperation(p, call, now) =>
      if Dispatch(cfg, s, Ctx(p, None, None, now), call).outcome.Committed? {
        CallAddsNoRun(cfg, s, Ctx(p, None, None, now), call);
      } else {
        RefusedKeepsRuns(cfg, s, Ctx(p, None, None, now), call);
      }
    case _ =>
  }

  lemma CallAddsNoRun(cfg: Config, s: State, ctx: Ctx, call: Call)
    requires Dispatch(cfg, s, ctx, call).Ran? && Dispatch(cfg, s, ctx, call).outcome.Committed?
    ensures |Dispatch(cfg, s, ctx, call).state.threads| == |s.threads|
  {
    var from := CommittedFrom(cfg, s, ctx, call);
    if s.threads != [] {
      BodyAnswersNothing(cfg, from, ctx, cfg.registry[call.op], call.args, 0);
    }
  }

  lemma StepAddsNoRun(cfg: Config, s: State, c: Claimed, w: Work)
    requires Always(cfg, s) && Step(cfg, s, c, w).Some?
    ensures |Step(cfg, s, c, w).value.threads| == |s.threads|
  {
    StepAnswersIffWithinCap(cfg, s, c, w);
  }

  lemma OthersKeepReplies(cfg: Config, s: State, x: Txn)
    requires Always(cfg, s) && AllReplied(s) && Apply(cfg, s, x).Some? && !x.WorkStep?
    ensures AllReplied(Apply(cfg, s, x).value)
  {
    var s' := Apply(cfg, s, x).value;
    ApplyKeeps(cfg, s, x);
    NewRunsAreBlank(cfg, s, x);
    OthersPlanNothing(cfg, s, x);
    forall r | 0 <= r < |s'.threads|
      ensures Replied(s'.ledger.events, r, s'.threads[r].checkpoints)
    {
      if r < |s.threads| {
        OnlyStepsAnswer(cfg, s, x, r);
        assert RunLater(s.threads[r], s'.threads[r]);
        RepliesStand(s, s', r);
      }
    }
  }

  lemma RepliesStand(s: State, s': State, r: nat)
    requires r < |s.threads| && Replied(s.ledger.events, r, s.threads[r].checkpoints) && NoPlans(s.ledger.events, s'.ledger.events)
    ensures Replied(s'.ledger.events, r, s.threads[r].checkpoints)
  {
    var cs := s.threads[r].checkpoints;
    forall k | 0 <= k < |cs| ensures LastPlan(s'.ledger.events, r, cs[k].step) == Some(cs[k].text) {
      QuietEventsStand(s.ledger.events, s'.ledger.events, r, cs[k].step);
    }
  }

  /** The checkpoints a held step of a running run leaves. */
  lemma StepCheckpoints(cfg: Config, s: State, c: Claimed, w: Work)
    requires LeasedInv(cfg, s) && c.run < |s.threads| && s.threads[c.run].state == Running && Step(cfg, s, c, w).Some?
    ensures c.run < |Step(cfg, s, c, w).value.threads|
    ensures var cs, cs' := s.threads[c.run].checkpoints, Step(cfg, s, c, w).value.threads[c.run].checkpoints;
            cs' == cs || (WithinCap(s.threads[c.run], w.estimate) && |cs'| == |cs| + 1 && cs <= cs'
                          && cs'[|cs|].step == c.step && cs'[|cs|].text == w.completion.text)
  {
    if WithinCap(s.threads[c.run], w.estimate) {
      RunningStepLeaves(cfg, s, c, w);
    }
  }

  lemma StepKeepsReplies(cfg: Config, s: State, c: Claimed, w: Work)
    requires LeasedInv(cfg, s) && AllReplied(s) && Step(cfg, s, c, w).Some? && Holds(s, c)
    ensures AllReplied(Step(cfg, s, c, w).value)
  {
    var s' := Step(cfg, s, c, w).value;
    StepAddsNoRun(cfg, s, c, w);
    forall r | 0 <= r < |s'.threads| ensures Replied(s'.ledger.events, r, s'.threads[r].checkpoints) {
      if r != c.run {
        OthersReplied(cfg, s, c, w, r);
      } else {
        OwnReplied(cfg, s, c, w);
      }
    }
  }

  lemma OthersReplied(cfg: Config, s: State, c: Claimed, w: Work, r: nat)
    requires Always(cfg, s) && AllReplied(s) && Step(cfg, s, c, w).Some? && r < |s.threads| && r != c.run
    ensures r < |Step(cfg, s, c, w).value.threads|
    ensures Replied(Step(cfg, s, c, w).value.ledger.events, r, Step(cfg, s, c, w).value.threads[r].checkpoints)
  {
    StepsAnswerTheirOwn(cfg, s, c, w, r);
    StepPlansItself(cfg, s, c, w);
    OtherRepliesStand(s, Step(cfg, s, c, w).value, c, r);
  }

  lemma OtherRepliesStand(s: State, s': State, c: Claimed, r: nat)
    requires r < |s.threads| && Replied(s.ledger.events, r, s.threads[r].checkpoints) && r != c.run
    requires PlansOnlyAt(s.ledger.events, s'.ledger.events, c.run, c.step)
    ensures Replied(s'.ledger.events, r, s.threads[r].checkpoints)
  {
    var cs := s.threads[r].checkpoints;
    forall k | 0 <= k < |cs| ensures LastPlan(s'.ledger.events, r, cs[k].step) == Some(cs[k].text) {
      LastPlanStands(s.ledger.events, s'.ledger.events, c.run, c.step, r, cs[k].step);
    }
  }

  /** Its own run's: a held step is the one past every checkpoint, whether its run goes on or was cancelled
      under it. */
  lemma OwnReplied(cfg: Config, s: State, c: Claimed, w: Work)
    requires LeasedInv(cfg, s) && AllReplied(s) && Step(cfg, s, c, w).Some? && Holds(s, c)
    requires c.run < |Step(cfg, s, c, w).value.threads|
    ensures Replied(Step(cfg, s, c, w).value.ledger.events, c.run, Step(cfg, s, c, w).value.threads[c.run].checkpoints)
  {
    var t, s' := s.threads[c.run], Step(cfg, s, c, w).value;
    HeldIsPastCheckpoints(cfg, s, c);
    StepPlansItself(cfg, s, c, w);
    HeldStepCheckpoints(cfg, s, c, w);
    RepliesGrow(s.ledger.events, s'.ledger.events, c.run, c.step, t.checkpoints, s'.threads[c.run].checkpoints, w.completion.text);
  }

  lemma HeldIsPastCheckpoints(cfg: Config, s: State, c: Claimed)
    requires LeasedInv(cfg, s) && Holds(s, c)
    ensures Climbing(s.threads[c.run].checkpoints) && c.step == |s.threads[c.run].checkpoints| + 1
    ensures s.threads[c.run].state in {Running, Cancelled}
  {
    assert Shape(s.threads[c.run]);
    if s.threads[c.run].state != Cancelled { HeldStepIsNext(s.threads[c.run], c); }
  }

  lemma HeldStepCheckpoints(cfg: Config, s: State, c: Claimed, w: Work)
    requires LeasedInv(cfg, s) && Holds(s, c) && Step(cfg, s, c, w).Some? && c.run < |Step(cfg, s, c, w).value.threads|
    ensures var cs, cs' := s.threads[c.run].checkpoints, Step(cfg, s, c, w).value.threads[c.run].checkpoints;
            cs' == cs || (WithinCap(s.threads[c.run], w.estimate) && |cs'| == |cs| + 1 && cs <= cs'
                          && cs'[|cs|].step == c.step && cs'[|cs|].text == w.completion.text)
  {
    HeldIsPastCheckpoints(cfg, s, c);
    if s.threads[c.run].state == Cancelled {
      StepKeeps(cfg, s, c, w);
      assert RunLater(s.threads[c.run], Step(cfg, s, c, w).value.threads[c.run]);
    } else {
      StepCheckpoints(cfg, s, c, w);
    }
  }

  /** One more plan, for a step past every checkpoint, and perhaps that step's own checkpoint. */
  lemma RepliesGrow(es: seq<Event>, es': seq<Event>, r: nat, step: nat, cs: seq<Checkpoint>, cs': seq<Checkpoint>, text: string)
    requires PlansOnlyAt(es, es', r, step) && Replied(es, r, cs) && Climbing(cs) && step == |cs| + 1
    requires cs' == cs || (|cs'| == |cs| + 1 && cs <= cs' && cs'[|cs|].step == step && cs'[|cs|].text == text
                           && LastPlan(es', r, step) == Some(text))
    ensures Replied(es', r, cs')
  {
    forall k | 0 <= k < |cs'| ensures LastPlan(es', r, cs'[k].step) == Some(cs'[k].text) {
      if k < |cs| {
        assert cs'[k] == cs[k] && cs[k].step == k + 1;
        LastPlanStands(es, es', r, step, r, k + 1);
      }
    }
  }

  lemma {:induction false} HistoryKeepsReplies(cfg: Config, s: State, h: seq<Txn>)
    requires LeasedInv(cfg, s) && AllReplied(s) && Honoured(cfg, s, h) && Exec(cfg, s, h).Some?
    ensures AllReplied(Exec(cfg, s, h).value)
  {
    if h != [] {
      var n := |h| - 1;
      var before := Exec(cfg, s, h[..n]).value;
      HistoryKeepsReplies(cfg, s, h[..n]);
      HonouredHistoryKeeps(cfg, s, h[..n]);
      if h[n].WorkStep? {
        StepKeepsReplies(cfg, before, h[n].claim, h[n].work);
      } else {
        OthersKeepReplies(cfg, before, h[n]);
      }
    }
  }

  // ---- the transcript -----------------------------------------------------------------------

  /** The exchange a run's own rows record: each step's portion of the mailbox, then the text its
      checkpoint kept, when there is any. */
  function Exchange(t: Thread, n: nat): seq<Line>
    requires n <= |t.checkpoints|
  {
    if n == 0 then [] else
      var text := t.checkpoints[n - 1].text;
      Exchange(t, n - 1) + Hear(Portion(t, n)) + if text != "" then [Spoke(n, text)] else []
  }

  lemma {:induction false} ToldIsExchange(t: Thread, es: seq<Event>, r: nat, said: map<nat, string>, n: nat)
    requires Climbing(t.checkpoints) && n <= |t.checkpoints|
    requires Says(said, es, r) && Replied(es, r, t.checkpoints)
    ensures Told(t, said, n) == Exchange(t, n)
  {
    if n > 0 {
      ToldIsExchange(t, es, r, said, n - 1);
      assert t.checkpoints[n - 1].step == n;
      assert LastPlan(es, r, n) == Some(t.checkpoints[n - 1].text);
    }
  }

  /** The transcript the loop merges from checkpoints, mailbox and journaled plans is, for every run an
      honoured history reaches, the exchange its checkpoints record: plans of attempts that crashed,
      parked, were worked again or were cancelled leave no trace in it. */
  lemma TranscriptIsTheExchange(cfg: Config, data: Data, grants: map<Principal, Grants>, h: seq<Txn>, r: nat, said: map<nat, string>)
    requires Honoured(cfg, Initial(data, grants), h) && Exec(cfg, Initial(data, grants), h).Some?
    requires r < |Exec(cfg, Initial(data, grants), h).value.threads|
    requires Says(said, Exec(cfg, Initial(data, grants), h).value.ledger.events, r)
    ensures var t := Exec(cfg, Initial(data, grants), h).value.threads[r];
            Watermark(t) <= |t.mailbox|
            && Conversation(t.checkpoints, t.mailbox[..Watermark(t)], said) == Exchange(t, |t.checkpoints|)
  {
    var s := Exec(cfg, Initial(data, grants), h).value;
    InitialIsLeased(cfg, data, grants);
    HonouredHistoryKeeps(cfg, Initial(data, grants), h);
    HistoryKeepsReplies(cfg, Initial(data, grants), h);
    RunIsWellRead(cfg, s, r);
    TranscriptIsTold(s.threads[r], said);
    ToldIsExchange(s.threads[r], s.ledger.events, r, said, |s.threads[r].checkpoints|);
  }

  lemma RunIsWellRead(cfg: Config, s: State, r: nat)
    requires LeasedInv(cfg, s) && r < |s.threads|
    ensures ReadWithin(s.threads[r]) && Climbing(s.threads[r].checkpoints)
  {
    assert RunInv(s.threads[r]) && Shape(s.threads[r]);
  }
}
