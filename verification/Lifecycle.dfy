/** What every transaction keeps with no assumption on leases, and so what every history keeps. */
module Lifecycle {
  import opened Tables
  import opened Ledgers
  import opened Approvals
  import opened Runs
  import opened Dispatching
  import opened Working
  import opened Histories
  import opened RunLaws
  import opened DispatchLaws
  import opened DispatchTheorems
  import opened BatchLaws

  /** Approvals belong to runs that exist. */
  ghost predicate Owned(rows: seq<Approval>, runs: nat) {
    forall a :: 0 <= a < |rows| ==> rows[a].run < runs
  }

  /** The invariant no lease is needed for. */
  ghost predicate Always(cfg: Config, s: State) {
    Sound(cfg, s) && AllRuns(s.threads) && Owned(s.approvals, |s.threads|)
  }

  /** How a plane may change over any stretch of history. */
  ghost predicate Grows(s: State, s': State) {
    && LedgerGrows(s.ledger, s'.ledger)
    && ApprovalsGrow(s.approvals, s'.approvals)
    && RunsGrow(s.threads, s'.threads)
  }

  lemma GrowsOn(a: State, b: State, c: State)
    requires Grows(a, b) && Grows(b, c)
    ensures Grows(a, c)
  {
    LedgerGrowsOn(a.ledger, b.ledger, c.ledger);
    ApprovalsGrowOn(a.approvals, b.approvals, c.approvals);
    RunsGrowOn(a.threads, b.threads, c.threads);
  }

  lemma InitialIsAlways(cfg: Config, data: Data, grants: map<Principal, Grants>)
    ensures Always(cfg, Initial(data, grants))
  {
    var l := Initial(data, grants).ledger;
    forall a: Aggregate ensures GaplessOn(l, a) {
      assert Stream(l.events, a) == [];
    }
  }

  // ---- one run's row ------------------------------------------------------------------------

  lemma ReplacingARun(cfg: Config, s: State, r: nat, t: Thread)
    requires Always(cfg, s) && r < |s.threads| && RunInv(t) && RunLater(s.threads[r], t)
    ensures Always(cfg, s.(threads := s.threads[r := t])) && Grows(s, s.(threads := s.threads[r := t]))
  {
  }

  lemma Journaling(cfg: Config, s: State, kind: EventKind, a: Aggregate, run: Option<nat>, step: Option<nat>,
                   p: Principal, op: Option<string>, note: Payload)
    requires Always(cfg, s) && kind != OperationCommit
    ensures var s' := s.(ledger := AppendTo(s.ledger, kind, a, run, step, p, op, note));
            Always(cfg, s') && Grows(s, s')
  {
    var s' := s.(ledger := AppendTo(s.ledger, kind, a, run, step, p, op, note));
    AppendKeepsLedger(s.ledger, s'.ledger.events[|s.ledger.events|], cfg.registry.Keys);
    LicencesStand(s.ledger, s.approvals, s'.ledger, s'.approvals);
  }

  // ---- the transactions ---------------------------------------------------------------------

  lemma CreateKeeps(cfg: Config, s: State, p: Principal, run: NewRun)
    requires Always(cfg, s) && Create(s, p, run).Some?
    ensures Always(cfg, Create(s, p, run).value) && Grows(s, Create(s, p, run).value)
  {
    Journaling(cfg, s, RunJournal, RunAggregate(|s.threads|), Some(|s.threads|), Some(FIRST_STEP), p, None, CreatedNote);
  }

  lemma CancelKeeps(cfg: Config, s: State, r: nat, p: Principal)
    requires Always(cfg, s) && Cancel(s, r, p).Some?
    ensures Always(cfg, Cancel(s, r, p).value) && Grows(s, Cancel(s, r, p).value)
  {
    var rows := CloseAll(s.approvals, r);
    LicencesStand(s.ledger, s.approvals, s.ledger, rows);
    var closed := s.(approvals := rows);
    var t := s.threads[r].(state := Cancelled, queue := map[]);
    ReplacingARun(cfg, closed, r, t);
    Journaling(cfg, closed.(threads := s.threads[r := t]), RunJournal, RunAggregate(r), Some(r), None, p, None, CancelledNote);
  }

  lemma ReapKeeps(cfg: Config, s: State, when: int)
    requires Always(cfg, s)
    ensures Always(cfg, Reap(s, when)) && Grows(s, Reap(s, when))
  {
    forall r | 0 <= r < |s.threads|
      ensures RunInv(Reaped(s.threads[r], when)) && RunLater(s.threads[r], Reaped(s.threads[r], when))
    {
      assert RunInv(s.threads[r]);
      if s.threads[r].state == Cancelled { assert Reaped(s.threads[r], when).queue == map[]; }
      MovesKeep(s.threads[r], Reaped(s.threads[r], when));
    }
  }

  lemma SettleKeeps(cfg: Config, s: State, a: nat, answered: Approval)
    requires Always(cfg, s) && a < |s.approvals| && s.approvals[a].state == Requested
    requires answered.state != Requested && Later(s.approvals[a], answered) && GrantedRow(answered, cfg.classes)
    requires answered.consumedBy == s.approvals[a].consumedBy
    requires Settle(s, a, answered).Some?
    ensures Always(cfg, Settle(s, a, answered).value) && Grows(s, Settle(s, a, answered).value)
  {
    SettleKeepsSound(cfg, s, a, answered);
    var t := s.threads[answered.run];
    assert RunInv(t);
    MovesKeep(t, Resume(t, answered.step).value);
  }

  lemma ExpireKeeps(cfg: Config, s: State, a: nat, when: int)
    requires Always(cfg, s) && Expire(s, a, when).Some?
    ensures Always(cfg, Expire(s, a, when).value) && Grows(s, Expire(s, a, when).value)
  {
    if s.approvals[a].state == Requested {
      assert GrantedRow(s.approvals[a], cfg.classes);
      SettleKeeps(cfg, s, a, s.approvals[a].(state := Expired, reason := Some(EXPIRED)));
    }
  }

  lemma SettleKeepsRuns(s: State, a: nat, answered: Approval)
    requires AllRuns(s.threads) && Owned(s.approvals, |s.threads|) && a < |s.approvals|
    requires answered.run == s.approvals[a].run && Settle(s, a, answered).Some?
    ensures var s' := Settle(s, a, answered).value;
            AllRuns(s'.threads) && RunsGrow(s.threads, s'.threads) && Owned(s'.approvals, |s'.threads|)
  {
    var t := s.threads[answered.run];
    assert RunInv(t);
    MovesKeep(t, Resume(t, answered.step).value);
  }

  lemma BodyKeepsRuns(cfg: Config, s: State, ctx: Ctx, op: Operation, args: Json)
    requires AllRuns(s.threads) && Owned(s.approvals, |s.threads|) && RunBody(cfg, s, ctx, op, args).Some?
    ensures var s' := RunBody(cfg, s, ctx, op, args).value.0;
            AllRuns(s'.threads) && RunsGrow(s.threads, s'.threads) && Owned(s'.approvals, |s'.threads|)
  {
    match op.body
    case Plain(_) =>
    case Decide(parse) =>
      var d := parse(args);
      if d.approval < |s.approvals| && s.approvals[d.approval].state == Requested {
        SettleKeepsRuns(s, d.approval, Answer(s.approvals[d.approval], d, ctx.principal));
      }
  }

  lemma SpendingAsksNothing(rows: seq<Approval>, c: Consume)
    ensures SameQuestions(rows, ConsumeAll(rows, c)) && ApprovalsGrow(rows, ConsumeAll(rows, c))
  {
  }

  /** The state an answered call's body ran on: some approvals spent, nothing else moved. */
  function BodyFrom(cfg: Config, s: State, ctx: Ctx, call: Call): State
    requires call.op in cfg.registry && EffectiveLevel(s, ctx, call.op).Some?
  {
    var op := cfg.registry[call.op];
    if EffectiveLevel(s, ctx, call.op).value != AsksFirst then s
    else
      var action := if op.mode == Read then None else Some(|s.ledger.actions|);
      s.(approvals := ConsumeAll(s.approvals, ConsumeFor(ctx, call, op, action)))
  }

  lemma AdmittedFrom(cfg: Config, s: State, ctx: Ctx, call: Call)
    requires call.op in cfg.registry && StoredAction(s.ledger, ReservationFor(ctx, call)) == None
    requires Admit(cfg, s, ctx, call).Ran? && Admit(cfg, s, ctx, call).outcome.Committed?
    ensures EffectiveLevel(s, ctx, call.op).Some?
    ensures var after := RunBody(cfg, BodyFrom(cfg, s, ctx, call), ctx, cfg.registry[call.op], call.args);
            var s' := Admit(cfg, s, ctx, call).state;
            after.Some? && s'.threads == after.value.0.threads && s'.approvals == after.value.0.approvals
  {
    var o := Admit(cfg, s, ctx, call).outcome;
    if o.action.Some? {
      AdmitCommitted(cfg, s, ctx, call, o.action.value, o.result);
    } else {
      AdmitRead(cfg, s, ctx, call, o.result);
    }
  }

  lemma CommittedFrom(cfg: Config, s: State, ctx: Ctx, call: Call) returns (from: State)
    requires Dispatch(cfg, s, ctx, call).Ran? && Dispatch(cfg, s, ctx, call).outcome.Committed?
    ensures call.op in cfg.registry
    ensures from.threads == s.threads
    ensures SameQuestions(s.approvals, from.approvals) && ApprovalsGrow(s.approvals, from.approvals)
    ensures RunBody(cfg, from, ctx, cfg.registry[call.op], call.args).Some?
    ensures var after := RunBody(cfg, from, ctx, cfg.registry[call.op], call.args).value.0;
            var s' := Dispatch(cfg, s, ctx, call).state;
            s'.threads == after.threads && s'.approvals == after.approvals
  {
    var reserved := Reserve(s, ReservationFor(ctx, call));
    AdmittedFrom(cfg, reserved, ctx, call);
    from := BodyFrom(cfg, reserved, ctx, call);
    var op := cfg.registry[call.op];
    SpendingAsksNothing(s.approvals, ConsumeFor(ctx, call, op, if op.mode == Read then None else Some(|s.ledger.actions|)));
  }

  /** A call from outside every run: the only dispatch that may move a run, by deciding. */
  lemma CallKeepsRuns(cfg: Config, s: State, ctx: Ctx, call: Call)
    requires Always(cfg, s) && ctx.at.None? && Dispatch(cfg, s, ctx, call).Ran?
    ensures var s' := Dispatch(cfg, s, ctx, call).state;
            AllRuns(s'.threads) && RunsGrow(s.threads, s'.threads) && Owned(s'.approvals, |s'.threads|)
  {
    if Dispatch(cfg, s, ctx, call).outcome.Committed? {
      CommittedKeepsRuns(cfg, s, ctx, call);
    } else {
      RefusedKeepsRuns(cfg, s, ctx, call);
    }
  }

  lemma CommittedKeepsRuns(cfg: Config, s: State, ctx: Ctx, call: Call)
    requires AllRuns(s.threads) && Owned(s.approvals, |s.threads|)
    requires Dispatch(cfg, s, ctx, call).Ran? && Dispatch(cfg, s, ctx, call).outcome.Committed?
    ensures var s' := Dispatch(cfg, s, ctx, call).state;
            AllRuns(s'.threads) && RunsGrow(s.threads, s'.threads) && Owned(s'.approvals, |s'.threads|)
  {
    var from := CommittedFrom(cfg, s, ctx, call);
    forall a | 0 <= a < |from.approvals| ensures from.approvals[a].run < |s.threads| {
      assert Later(s.approvals[a], from.approvals[a]);
    }
    BodyKeepsRuns(cfg, from, ctx, cfg.registry[call.op], call.args);
  }

  /** Outside every run nothing can park, so a call that commits nothing leaves runs and approvals. */
  lemma RefusedKeepsRuns(cfg: Config, s: State, ctx: Ctx, call: Call)
    requires ctx.at.None? && Dispatch(cfg, s, ctx, call).Ran? && !Dispatch(cfg, s, ctx, call).outcome.Committed?
    ensures Dispatch(cfg, s, ctx, call).state.threads == s.threads
    ensures Dispatch(cfg, s, ctx, call).state.approvals == s.approvals
  {
    DeniedQuestions(cfg, s, ctx, call);
    ReplayIsSilent(cfg, s, ctx, call);
    NothingParksOutside(cfg, s, ctx, call);
  }

  lemma NothingParksOutside(cfg: Config, s: State, ctx: Ctx, call: Call)
    requires ctx.at.None?
    ensures Dispatch(cfg, s, ctx, call).Ran? ==> !Dispatch(cfg, s, ctx, call).outcome.Waiting?
  {
    var d := Dispatch(cfg, s, ctx, call);
    if d.Ran? && d.outcome.Waiting? { WaitingFrame(cfg, s, ctx, call); }
  }

  lemma PlanningKeeps(cfg: Config, s: State, c: Claimed, w: Work)
    requires Always(cfg, s) && c.run < |s.threads| && WithinCap(s.threads[c.run], w.estimate)
    ensures Always(cfg, Planning(s, c, w)) && Grows(s, Planning(s, c, w))
  {
    var t := s.threads[c.run];
    var u := Usage(c.step, w.estimate, w.completion.input, w.completion.output, w.completion.cached);
    AnswerKeeps(t, u);
    ReplacingARun(cfg, s, c.run, t.(usage := t.usage + [u]));
    Journaling(cfg, s.(threads := s.threads[c.run := t.(usage := t.usage + [u])]), RunJournal, RunAggregate(c.run),
               Some(c.run), Some(c.step), w.principal, None, Planned(w.completion.text, w.completion.calls));
  }

  /** The plan's dispatches, from a plane that keeps `Always` to one that does. */
  lemma BatchKeepsAlways(cfg: Config, s: State, c: Claimed, w: Work, ceiling: Grants)
    requires Always(cfg, s) && c.run < |s.threads| && !DispatchAll(cfg, s, c, w, ceiling, 0).Aborted?
    ensures var s' := DispatchAll(cfg, s, c, w, ceiling, 0).state; Always(cfg, s') && Grows(s, s')
  {
    BatchKeeps(cfg, s, c, w, ceiling, 0);
    var s' := DispatchAll(cfg, s, c, w, ceiling, 0).state;
    forall a | 0 <= a < |s'.approvals| ensures s'.approvals[a].run < |s'.threads| {
      if a < |s.approvals| { assert Later(s.approvals[a], s'.approvals[a]); }
    }
  }

  lemma StepKeeps(cfg: Config, s: State, c: Claimed, w: Work)
    requires Always(cfg, s) && Step(cfg, s, c, w).Some?
    ensures Always(cfg, Step(cfg, s, c, w).value) && Grows(s, Step(cfg, s, c, w).value)
  {
    var t := s.threads[c.run];
    var s' := Step(cfg, s, c, w).value;
    if !WithinCap(t, w.estimate) {
      var stopped := Stop(t, c.step, Tables.Failed, Some(BUDGET_EXCEEDED));
      StopKeeps(t, c.step, Tables.Failed, Some(BUDGET_EXCEEDED));
      ReplacingARun(cfg, s, c.run, stopped);
      Journaling(cfg, s.(threads := s.threads[c.run := stopped]), Denial, RunAggregate(c.run), Some(c.run), Some(c.step),
                 w.principal, None, Refusal(BUDGET_EXCEEDED, None, OverBudget(Spend(t.usage), w.estimate, t.cap)));
      return;
    }
    var planned := Planning(s, c, w);
    var b := DispatchAll(cfg, planned, c, w, t.ceiling, 0);
    PlanningKeeps(cfg, s, c, w);
    BatchKeepsAlways(cfg, planned, c, w, t.ceiling);
    GrowsOn(s, planned, b.state);
    if b.ParkedAt? {
      ParkStepKeeps(cfg, b.state, c, w, b.approval, b.op);
    } else {
      var read := ReadUpTo(t, w.visible);
      DrainIsRange(t, w.visible);
      BatchKeeps(cfg, planned, c, w, t.ceiling, 0);
      AdvanceKeeps(b.state.threads[c.run], c.step, Checkpoint(c.step, read, w.completion.text, b.results));
      ReplacingARun(cfg, b.state, c.run, s'.threads[c.run]);
    }
    GrowsOn(s, b.state, s');
  }

  lemma ParkStepKeeps(cfg: Config, s: State, c: Claimed, w: Work, a: nat, op: string)
    requires Always(cfg, s) && c.run < |s.threads|
    ensures Always(cfg, ParkStep(s, c, w, a, op)) && Grows(s, ParkStep(s, c, w, a, op))
  {
    var t := Stop(s.threads[c.run], c.step, WaitingApproval, None);
    StopKeeps(s.threads[c.run], c.step, WaitingApproval, None);
    ReplacingARun(cfg, s, c.run, t);
    Journaling(cfg, s.(threads := s.threads[c.run := t]), RunJournal, RunAggregate(c.run), Some(c.run), Some(c.step),
               w.principal, None, ParkedNote(a, op));
  }

  /** Every transaction, of whoever and whenever, keeps the plane's invariant and only ever moves it
      forwards. */
  lemma ApplyKeeps(cfg: Config, s: State, x: Txn)
    requires Always(cfg, s) && Apply(cfg, s, x).Some?
    ensures Always(cfg, Apply(cfg, s, x).value) && Grows(s, Apply(cfg, s, x).value)
  {
    match x
    case CreateRun(p, run) => CreateKeeps(cfg, s, p, run);
    case SendMessage(r, body, p) =>
      PostKeeps(s.threads[r], Steer, body, p);
      ReplacingARun(cfg, s, r, Post(s.threads[r], Steer, body, p).thread);
    case CancelRun(r, p) => CancelKeeps(cfg, s, r, p);
    case ClaimStep(c, now) =>
      var t := Apply(cfg, s, x).value.threads[c.run];
      MovesKeep(s.threads[c.run], t);
      ReplacingARun(cfg, s, c.run, t);
    case WorkStep(c, w) => StepKeeps(cfg, s, c, w);
    case CallOperation(p, call, now) =>
      DispatchKeepsSound(cfg, s, Ctx(p, None, None, now), call);
      CallKeepsRuns(cfg, s, Ctx(p, None, None, now), call);
    case ReapLeases(when) => ReapKeeps(cfg, s, when);
    case ExpireApproval(a, when) => ExpireKeeps(cfg, s, a, when);
    case SetGrants(g) =>
  }

  lemma {:induction false} HistoryKeeps(cfg: Config, s: State, h: seq<Txn>)
    requires Always(cfg, s) && Exec(cfg, s, h).Some?
    ensures Always(cfg, Exec(cfg, s, h).value) && Grows(s, Exec(cfg, s, h).value)
  {
    if h != [] {
      var before := Exec(cfg, s, h[..|h| - 1]).value;
      HistoryKeeps(cfg, s, h[..|h| - 1]);
      ApplyKeeps(cfg, before, h[|h| - 1]);
      GrowsOn(s, before, Exec(cfg, s, h).value);
    }
  }
}
