/** What answering a question does, and that a question refused is never put again
    (`modules/governance/service.py`, `tick._continue`, `identity/service.park_approval`). */
module Answers {
  import opened Tables
  import opened Ledgers
  import opened Approvals
  import opened Runs
  import opened Dispatching
  import opened DispatchLaws
  import opened DispatchTheorems
  import opened Lifecycle
  import opened Leases

  // ---- one answer ---------------------------------------------------------------------------

  /** Row `a` was answered, and the step that asked it is queued again unless its run was cancelled. */
  ghost predicate HandsBack(s: State, s': State, a: nat, answered: Approval)
    requires a < |s.approvals| && s.approvals[a].run < |s.threads|
  {
    var r := s.approvals[a].run;
    && s' == s.(approvals := s.approvals[a := answered], threads := s'.threads)
    && s'.threads == if s.threads[r].state == Cancelled then s.threads
                     else s.threads[r := s.threads[r].(state := Queued, queue := map[s.approvals[a].step := None])]
  }

  /** What a decision does: an approval opens the request and names who granted it; a rejection closes it
      with its reason, so that nothing ever spends it; and a request that was answered before, or is not
      there, is left alone and reported. */
  ghost predicate DecisionTaken(s: State, s': State, p: Principal, d: Decision, result: Result)
    requires Owned(s.approvals, |s.threads|)
  {
    if d.approval >= |s.approvals| then s' == s && result == Decided(false, None, false)
    else
      var a := s.approvals[d.approval];
      if a.state != Requested then s' == s && result == Decided(false, Some(a.state), false)
      else if d.approve then
        && HandsBack(s, s', d.approval, a.(state := Open, grantedBy := Some(p)))
        && result == Decided(true, Some(Open), s.threads[a.run].state == WaitingApproval)
      else
        && HandsBack(s, s', d.approval, a.(state := Rejected, reason := d.reason))
        && result == Decided(true, Some(Rejected), s.threads[a.run].state == WaitingApproval)
  }

  lemma SettleHands(s: State, a: nat, answered: Approval)
    requires ShapedAndAgreed(s) && Owned(s.approvals, |s.threads|)
    requires a < |s.approvals| && s.approvals[a].state == Requested && answered.state != Requested
    requires answered.run == s.approvals[a].run && answered.step == s.approvals[a].step
    ensures Settle(s, a, answered).Some? && HandsBack(s, Settle(s, a, answered).value, a, answered)
  {
    SettleResumes(s, a, answered);
    var r, s' := answered.run, Settle(s, a, answered).value;
    assert s'.threads == s.threads[r := s'.threads[r]];
  }

  lemma DecidingAnswers(s: State, p: Principal, d: Decision)
    requires ShapedAndAgreed(s) && Owned(s.approvals, |s.threads|)
    ensures DecideApproval(s, p, d).Some?
    ensures DecisionTaken(s, DecideApproval(s, p, d).value.0, p, d, DecideApproval(s, p, d).value.1)
  {
    if d.approval < |s.approvals| && s.approvals[d.approval].state == Requested {
      SettleHands(s, d.approval, Runs.Answer(s.approvals[d.approval], d, p));
    }
  }

  /** A request is expired exactly when its time has come; one somebody answered meanwhile is left alone. */
  lemma ExpiryIff(s: State, a: nat, when: int)
    requires ShapedAndAgreed(s) && Owned(s.approvals, |s.threads|)
    ensures Expire(s, a, when).Some? <==> a < |s.approvals| && s.approvals[a].expiresAt <= when
    ensures Expire(s, a, when).Some? ==>
              if s.approvals[a].state != Requested then Expire(s, a, when).value == s
              else HandsBack(s, Expire(s, a, when).value, a, s.approvals[a].(state := Expired, reason := Some("expired")))
  {
    if a < |s.approvals| && s.approvals[a].state == Requested {
      SettleHands(s, a, s.approvals[a].(state := Expired, reason := Some("expired")));
    }
  }

  // ---- deciding as an operation -------------------------------------------------------------

  /** The decider is a person or the system. */
  ghost predicate MayDecide(cfg: Config, p: Principal) {
    p in cfg.classes && (cfg.classes[p] == User || cfg.classes[p] == System)
  }

  /** The plane as the deciding body finds it: what the call itself had to be paid with is spent. */
  lemma PaidPlane(cfg: Config, s: State, ctx: Ctx, call: Call)
    requires LeasedInv(cfg, s) && call.op in cfg.registry && EffectiveLevel(s, ctx, call.op).Some?
    ensures var from := BodyFrom(cfg, s, ctx, call);
            ShapedAndAgreed(from) && Owned(from.approvals, |from.threads|) && from == s.(approvals := from.approvals)
  {
    var from, op := BodyFrom(cfg, s, ctx, call), cfg.registry[call.op];
    SpendingAsksNothing(s.approvals, ConsumeFor(ctx, call, op, if op.mode == Read then None else Some(|s.ledger.actions|)));
    StillOwned(s.approvals, from.approvals, |s.threads|);
    AgreementStands(s.approvals, s.threads, from.approvals, from.threads);
  }

  lemma StillOwned(rows: seq<Approval>, rows': seq<Approval>, runs: nat)
    requires Owned(rows, runs) && ApprovalsGrow(rows, rows') && |rows'| == |rows|
    ensures Owned(rows', runs)
  {
    forall a | 0 <= a < |rows'| ensures rows'[a].run < runs {
      assert Later(rows[a], rows'[a]);
    }
  }

  /** The operation that decides, called from outside every run under a fresh key: it commits exactly when
      the call is cleared, states the version of a target it has, and the caller is a person or the system. */
  lemma DecisionCommitsIff(cfg: Config, s: State, ctx: Ctx, call: Call)
    requires LeasedInv(cfg, s) && ctx.at.None? && call.op in cfg.registry && cfg.registry[call.op].mode == Write
    requires StoredAction(s.ledger, ReservationFor(ctx, call)) == None && cfg.registry[call.op].body.Decide?
    ensures (Dispatch(cfg, s, ctx, call).Ran? && Dispatch(cfg, s, ctx, call).outcome.Committed?) <==>
              && Cleared(cfg, s, ctx, call) && MayDecide(cfg, ctx.principal)
              && (cfg.registry[call.op].target.Some? ==> call.expected.Some?)
              && (exists a :: GoesTo(call.op, cfg.registry[call.op], call.args, a))
              && (cfg.registry[call.op].target.Some? ==> forall a :: GoesTo(call.op, cfg.registry[call.op], call.args, a) ==>
                    call.expected.value == |Stream(s.ledger.events, a)|)
  {
    var m, op := Reserve(s, ReservationFor(ctx, call)), cfg.registry[call.op];
    ReserveKeepsSound(cfg, s, ReservationFor(ctx, call));
    ChecksOf(s, ctx, call, op, Some(|s.ledger.actions|));
    assert EffectiveLevel(m, ctx, call.op) == EffectiveLevel(s, ctx, call.op);
    DecisionAdmitted(cfg, m, ctx, call);
    if AggregateOf(call.op, op, call.args).Some? {
      assert GoesTo(call.op, op, call.args, AggregateOf(call.op, op, call.args).value);
      assert GaplessOn(s.ledger, AggregateOf(call.op, op, call.args).value);
    }
  }

  lemma DecisionAdmitted(cfg: Config, s: State, ctx: Ctx, call: Call)
    requires LeasedInv(cfg, s) && ctx.at.None? && call.op in cfg.registry && cfg.registry[call.op].mode == Write
    requires StoredAction(s.ledger, ReservationFor(ctx, call)) == None && cfg.registry[call.op].body.Decide?
    ensures var op, level := cfg.registry[call.op], EffectiveLevel(s, ctx, call.op);
            (Admit(cfg, s, ctx, call).Ran? && Admit(cfg, s, ctx, call).outcome.Committed?) <==>
              && level in {Some(MayUse), Some(AsksFirst)} && op.valid(call.args)
              && (op.target.Some? ==> call.expected.Some?) && AggregateOf(call.op, op, call.args).Some?
              && (level == Some(AsksFirst) ==> ApprovalFor(s, ctx, call, op, AsksFirst).Some?)
              && MayDecide(cfg, ctx.principal)
              && (op.target.Some? ==> call.expected.value == VersionOf(s.ledger, AggregateOf(call.op, op, call.args).value))
  {
    var op, level := cfg.registry[call.op], EffectiveLevel(s, ctx, call.op);
    if Admit(cfg, s, ctx, call).Ran? && Admit(cfg, s, ctx, call).outcome.Committed? {
      var o := Admit(cfg, s, ctx, call).outcome;
      if o.action.None? { AdmitRead(cfg, s, ctx, call, o.result); }
      AdmitCommitted(cfg, s, ctx, call, o.action.value, o.result);
    }
    if level in {Some(MayUse), Some(AsksFirst)} && op.valid(call.args) && (op.target.Some? ==> call.expected.Some?)
       && AggregateOf(call.op, op, call.args).Some? && MayDecide(cfg, ctx.principal)
       && (level == Some(AsksFirst) ==> ApprovalFor(s, ctx, call, op, AsksFirst).Some?)
    {
      PaidPlane(cfg, s, ctx, call);
      DecidingAnswers(BodyFrom(cfg, s, ctx, call), ctx.principal, op.body.parse(call.args));
      assert Written(cfg, s, ctx, call, op, level.value).Some?;
      WriteLands(cfg, s, ctx, call, op, level.value);
    }
  }

  /** A decision does not depend on the ledger. */
  lemma SameDecision(s: State, m: State, s': State, m': State, p: Principal, d: Decision, result: Result)
    requires Owned(s.approvals, |s.threads|) && DecisionTaken(s, s', p, d, result)
    requires m == s.(ledger := m.ledger) && m' == s'.(ledger := m.ledger) && s'.ledger == s.ledger
    ensures Owned(m.approvals, |m.threads|) && DecisionTaken(m, m', p, d, result)
  {
  }

  lemma AdmittedDecision(cfg: Config, s: State, ctx: Ctx, call: Call) returns (after: State)
    requires LeasedInv(cfg, s) && ctx.at.None? && call.op in cfg.registry && cfg.registry[call.op].mode == Write
    requires StoredAction(s.ledger, ReservationFor(ctx, call)) == None && cfg.registry[call.op].body.Decide?
    requires Admit(cfg, s, ctx, call).Ran? && Admit(cfg, s, ctx, call).outcome.Committed?
    ensures EffectiveLevel(s, ctx, call.op).Some?
    ensures var from := BodyFrom(cfg, s, ctx, call);
            && from == s.(approvals := from.approvals) && Owned(from.approvals, |s.threads|)
            && DecisionTaken(from, after, ctx.principal, cfg.registry[call.op].body.parse(call.args), Admit(cfg, s, ctx, call).outcome.result)
    ensures after.ledger == s.ledger && Admit(cfg, s, ctx, call).state.(ledger := s.ledger) == after
  {
    var o, op := Admit(cfg, s, ctx, call).outcome, cfg.registry[call.op];
    if o.action.None? { AdmitRead(cfg, s, ctx, call, o.result); }
    AdmitCommitted(cfg, s, ctx, call, o.action.value, o.result);
    PaidPlane(cfg, s, ctx, call);
    var from := BodyFrom(cfg, s, ctx, call);
    DecidingAnswers(from, ctx.principal, op.body.parse(call.args));
    after := DecideApproval(from, ctx.principal, op.body.parse(call.args)).value.0;
  }

  /** And what it then does is the decision, and nothing else to runs, approvals, data or grants. */
  lemma DecisionEffect(cfg: Config, s: State, ctx: Ctx, call: Call) returns (paid: seq<Approval>)
    requires LeasedInv(cfg, s) && ctx.at.None? && call.op in cfg.registry && cfg.registry[call.op].mode == Write
    requires StoredAction(s.ledger, ReservationFor(ctx, call)) == None && cfg.registry[call.op].body.Decide?
    requires Dispatch(cfg, s, ctx, call).Ran? && Dispatch(cfg, s, ctx, call).outcome.Committed?
    ensures PaidWith(s, paid, ctx, call.op, cfg.registry[call.op].versionId, call.args, Some(|s.ledger.actions|))
    ensures Owned(paid, |s.threads|)
    ensures var Ran(s', o) := Dispatch(cfg, s, ctx, call);
            DecisionTaken(s.(approvals := paid), s'.(ledger := s.ledger), ctx.principal, cfg.registry[call.op].body.parse(call.args), o.result)
  {
    var m, op := Reserve(s, ReservationFor(ctx, call)), cfg.registry[call.op];
    var d := Dispatch(cfg, s, ctx, call);
    assert d == Admit(cfg, m, ctx, call);
    ReserveKeepsSound(cfg, s, ReservationFor(ctx, call));
    paid := BodyFrom(cfg, m, ctx, call).approvals;
    var after := AdmittedDecision(cfg, m, ctx, call);
    SpendIsPayment(s, ctx, call, op, Some(|s.ledger.actions|));
    SameDecision(m.(approvals := paid), s.(approvals := paid), after, d.state.(ledger := s.ledger), ctx.principal,
                 op.body.parse(call.args), d.outcome.result);
  }
}
