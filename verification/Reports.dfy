/** What a step reports is what happened: every result a checkpoint keeps is borne out by the ledger, every lost
    race is explained to its run, and a parked step says what it waits on (`work._result`, `work._settle`). */
module Reports {
  import opened Tables
  import opened Ledgers
  import opened Runs
  import opened Dispatching
  import opened Working
  import opened Histories
  import opened RunLaws
  import opened DispatchLaws
  import opened DispatchTheorems
  import opened Verdicts
  import opened BatchLaws
  import opened Lifecycle
  import opened Leases
  import opened Guarantees
  import opened Budgets
  import Conflicts

  // ---- one result ---------------------------------------------------------------------------

  /** Event `e` was written for this call by `who`, from this step. */
  ghost predicate IsAbout(l: Ledger, e: int, who: Principal, r: nat, step: nat, op: string) {
    && 0 <= e < |l.events| && l.events[e].principal == who
    && l.events[e].run == Some(r) && l.events[e].step == Some(step) && l.events[e].op == Some(op)
  }

  /** The call's own commit, with its arguments, its result and its id; or a read's audit. */
  ghost predicate Answering(l: Ledger, e: int, p: Proposed, answer: Result)
    requires 0 <= e < |l.events|
  {
    || (&& l.events[e].kind == OperationCommit && l.events[e].payload == Committing(p.args, answer)
        && l.events[e].action.Some? && l.events[e].action.value < |l.actions|
        && l.actions[l.events[e].action.value].key.call == p.id)
    || (l.events[e].kind == ReadAudit && l.events[e].payload == Reading(p.args))
  }

  ghost predicate Refusing(l: Ledger, e: int, p: Proposed, reason: string)
    requires 0 <= e < |l.events|
  {
    && l.events[e].kind == Denial && l.events[e].payload.Refusal?
    && l.events[e].payload.reason == reason && l.events[e].payload.call == Some(p.id)
  }

  /** The ledger bears a result out: a call reported committed, or denied, left its event past position `from`;
      one reported replayed names the action the same call was committed as. */
  ghost predicate IsBorneOut(l: Ledger, from: nat, who: Principal, r: nat, step: nat, p: Proposed, result: ToolResult) {
    && result.id == p.id
    && match result
       case WasCommitted(_, answer) => exists e :: from <= e && IsAbout(l, e, who, r, step, p.op) && Answering(l, e, p, answer)
       case WasReplayed(_, i) =>
         && i < |l.actions| && l.actions[i].key == Key(Some(r), Some(step), p.id)
         && l.actions[i].event < |l.events| && l.events[l.actions[i].event].op == Some(p.op)
       case WasDenied(_, reason) => exists e :: from <= e && IsAbout(l, e, who, r, step, p.op) && Refusing(l, e, p, reason)
  }

  lemma StaysBorneOut(l: Ledger, l': Ledger, from: nat, from': nat, who: Principal, r: nat, step: nat, p: Proposed, result: ToolResult)
    requires IsBorneOut(l, from', who, r, step, p, result) && LedgerGrows(l, l') && from <= from'
    ensures IsBorneOut(l', from, who, r, step, p, result)
  {
    match result
    case WasCommitted(_, answer) =>
      var e :| from' <= e && IsAbout(l, e, who, r, step, p.op) && Answering(l, e, p, answer);
      assert l'.events[e] == l.events[e];
      assert IsAbout(l', e, who, r, step, p.op) && Answering(l', e, p, answer);
    case WasReplayed(_, i) =>
    case WasDenied(_, reason) =>
      var e :| from' <= e && IsAbout(l, e, who, r, step, p.op) && Refusing(l, e, p, reason);
      assert l'.events[e] == l.events[e];
      assert IsAbout(l', e, who, r, step, p.op) && Refusing(l', e, p, reason);
  }

  // ---- one call -----------------------------------------------------------------------------

  /** What an answered dispatch leaves in the ledger, as its caller will report it. */
  ghost predicate DispatchBearsOut(s: State, d: Dispatched, who: Principal, r: nat, step: nat, p: Proposed)
    requires d.Ran? && !d.outcome.Waiting?
  {
    IsBorneOut(d.state.ledger, |s.ledger.events|, who, r, step, p,
               match d.outcome
               case Committed(_, answer) => WasCommitted(p.id, answer)
               case Replayed(i) => WasReplayed(p.id, i)
               case Denied(reason, _, _) => WasDenied(p.id, reason))
  }

  lemma CommittedBearsOut(cfg: Config, s: State, ctx: Ctx, call: Call, p: Proposed)
    requires Sound(cfg, s) && ctx.at.Some? && call.op == p.op && call.args == p.args && call.id == p.id
    requires Dispatch(cfg, s, ctx, call).Ran? && Dispatch(cfg, s, ctx, call).outcome.Committed?
    ensures DispatchBearsOut(s, Dispatch(cfg, s, ctx, call), ctx.principal, ctx.at.value.run, ctx.at.value.step, p)
  {
    var Ran(s', o) := Dispatch(cfg, s, ctx, call);
    var n := |s.ledger.events|;
    if o.action.Some? {
      CommitIsAuthorised(cfg, s, ctx, call, o.action.value, o.result);
      DispatchKeepsSound(cfg, s, ctx, call);
      assert PairedEvent(s'.ledger, n) && PairedAction(s'.ledger, o.action.value);
    } else {
      ReadsArePlain(cfg, s, ctx, call);
      ReadEffect(cfg, s, ctx, call);
    }
    assert IsAbout(s'.ledger, n, ctx.principal, ctx.at.value.run, ctx.at.value.step, p.op);
    assert Answering(s'.ledger, n, p, o.result);
  }

  /** From inside a run only a domain read is ever answered without an action. */
  lemma ReadsArePlain(cfg: Config, s: State, ctx: Ctx, call: Call)
    requires ctx.at.Some? && Dispatch(cfg, s, ctx, call).Ran?
    requires Dispatch(cfg, s, ctx, call).outcome.Committed? && Dispatch(cfg, s, ctx, call).outcome.action.None?
    ensures call.op in cfg.registry && cfg.registry[call.op].mode == Read && cfg.registry[call.op].body.Plain?
    ensures StoredAction(s.ledger, ReservationFor(ctx, call)) == None
  {
    AdmitRead(cfg, Reserve(s, ReservationFor(ctx, call)), ctx, call, Dispatch(cfg, s, ctx, call).outcome.result);
  }

  lemma DenialBearsOut(cfg: Config, s: State, ctx: Ctx, call: Call, p: Proposed)
    requires ctx.at.Some? && call.op == p.op && call.id == p.id
    requires Dispatch(cfg, s, ctx, call).Ran? && Dispatch(cfg, s, ctx, call).outcome.Denied?
    ensures DispatchBearsOut(s, Dispatch(cfg, s, ctx, call), ctx.principal, ctx.at.value.run, ctx.at.value.step, p)
  {
    RefusalFrame(cfg, s, ctx, call);
    var Ran(s', o) := Dispatch(cfg, s, ctx, call);
    assert IsAbout(s'.ledger, |s.ledger.events|, ctx.principal, ctx.at.value.run, ctx.at.value.step, p.op);
    assert Refusing(s'.ledger, |s.ledger.events|, p, o.reason);
  }

  lemma DispatchIsBorneOut(cfg: Config, s: State, ctx: Ctx, call: Call, p: Proposed)
    requires Sound(cfg, s) && ctx.at.Some? && call.op == p.op && call.args == p.args && call.id == p.id
    requires Dispatch(cfg, s, ctx, call).Ran? && !Dispatch(cfg, s, ctx, call).outcome.Waiting?
    ensures DispatchBearsOut(s, Dispatch(cfg, s, ctx, call), ctx.principal, ctx.at.value.run, ctx.at.value.step, p)
  {
    match Dispatch(cfg, s, ctx, call).outcome
    case Committed(_, _) => CommittedBearsOut(cfg, s, ctx, call, p);
    case Denied(_, _, _) => DenialBearsOut(cfg, s, ctx, call, p);
    case Replayed(i) =>
      ReplayIsSilent(cfg, s, ctx, call);
      ReplayIff(cfg, s, ctx, call, i);
  }

  /** One call of a plan, and what its caller makes of the answer. */
  lemma CallIsBorneOut(cfg: Config, s: State, c: Claimed, w: Work, ceiling: Grants, i: nat)
    requires Sound(cfg, s) && i < |w.completion.calls|
    requires var d := Dispatch(cfg, s, CtxAt(c, w, ceiling, i), CallFor(cfg, w, i));
             d.Ran? && !d.outcome.Waiting?
             && ResultOf(d.state, c.run, w.principal, w.notice(i), w.completion.calls[i].id, d.outcome).Some?
    ensures var d := Dispatch(cfg, s, CtxAt(c, w, ceiling, i), CallFor(cfg, w, i));
            var a := ResultOf(d.state, c.run, w.principal, w.notice(i), w.completion.calls[i].id, d.outcome).value;
            && a.state.ledger == d.state.ledger
            && IsBorneOut(a.state.ledger, |s.ledger.events|, w.principal, c.run, c.step, w.completion.calls[i], a.result)
  {
    var d := Dispatch(cfg, s, CtxAt(c, w, ceiling, i), CallFor(cfg, w, i));
    DispatchIsBorneOut(cfg, s, CtxAt(c, w, ceiling, i), CallFor(cfg, w, i), w.completion.calls[i]);
    NoticeMovesNoLedger(d.state, c.run, w.principal, w.notice(i), w.completion.calls[i].id, d.outcome);
  }

  // ---- a plan -------------------------------------------------------------------------------

  /** The results of the calls from the `i`-th on, each borne out. */
  ghost predicate AllBorneOut(l: Ledger, from: nat, who: Principal, r: nat, step: nat, calls: seq<Proposed>, i: nat, results: seq<ToolResult>) {
    && i + |results| <= |calls|
    && forall k :: 0 <= k < |results| ==> IsBorneOut(l, from, who, r, step, calls[i + k], results[k])
  }

  lemma OneMoreBorneOut(l: Ledger, l': Ledger, from: nat, who: Principal, r: nat, step: nat, calls: seq<Proposed>, i: nat,
                        result: ToolResult, results: seq<ToolResult>, from': nat)
    requires i < |calls| && IsBorneOut(l, from, who, r, step, calls[i], result) && LedgerGrows(l, l') && from <= from'
    requires AllBorneOut(l', from', who, r, step, calls, i + 1, results)
    ensures AllBorneOut(l', from, who, r, step, calls, i, [result] + results)
  {
    StaysBorneOut(l, l', from, from, who, r, step, calls[i], result);
    forall k | 0 <= k < |[result] + results|
      ensures IsBorneOut(l', from, who, r, step, calls[i + k], ([result] + results)[k])
    {
      if k > 0 { StaysBorneOut(l', l', from, from', who, r, step, calls[i + 1 + (k - 1)], results[k - 1]); }
    }
  }

  /** The plan's results so far, and all of them when it went through. */
  ghost predicate PlanBorneOut(s: State, c: Claimed, w: Work, i: nat, b: Batch)
    requires !b.Aborted?
  {
    && AllBorneOut(b.state.ledger, |s.ledger.events|, w.principal, c.run, c.step, w.completion.calls, i, b.results)
    && (b.Finished? ==> i + |b.results| == |w.completion.calls|)
  }

  lemma {:induction false} PlanIsBorneOut(cfg: Config, s: State, c: Claimed, w: Work, ceiling: Grants, i: nat)
    requires Sound(cfg, s) && c.run < |s.threads| && RunInv(s.threads[c.run]) && i <= |w.completion.calls|
    requires !DispatchAll(cfg, s, c, w, ceiling, i).Aborted?
    ensures PlanBorneOut(s, c, w, i, DispatchAll(cfg, s, c, w, ceiling, i))
    decreases |w.completion.calls| - i
  {
    if i < |w.completion.calls| && !Dispatch(cfg, s, CtxAt(c, w, ceiling, i), CallFor(cfg, w, i)).outcome.Waiting? {
      var a := AnsweredThenRest(cfg, s, c, w, ceiling, i);
      PlanIsBorneOut(cfg, a.state, c, w, ceiling, i + 1);
      RestGrows(cfg, a.state, c, w, ceiling, i + 1);
      PlanBorneOutOn(s, a, c, w, i, DispatchAll(cfg, a.state, c, w, ceiling, i + 1));
    } else {
      NothingYet(cfg, s, c, w, ceiling, i);
      NothingToBearOut(s, c, w, i, DispatchAll(cfg, s, c, w, ceiling, i));
    }
  }

  lemma RestGrows(cfg: Config, s: State, c: Claimed, w: Work, ceiling: Grants, i: nat)
    requires Sound(cfg, s) && c.run < |s.threads| && RunInv(s.threads[c.run]) && i <= |w.completion.calls|
    requires !DispatchAll(cfg, s, c, w, ceiling, i).Aborted?
    ensures LedgerGrows(s.ledger, DispatchAll(cfg, s, c, w, ceiling, i).state.ledger)
  {
    BatchKeeps(cfg, s, c, w, ceiling, i);
  }

  lemma PlanBorneOutOn(s: State, a: Reported, c: Claimed, w: Work, i: nat, b: Batch)
    requires i < |w.completion.calls| && !b.Aborted? && PlanBorneOut(a.state, c, w, i + 1, b)
    requires LedgerGrows(s.ledger, a.state.ledger) && LedgerGrows(a.state.ledger, b.state.ledger)
    requires IsBorneOut(a.state.ledger, |s.ledger.events|, w.principal, c.run, c.step, w.completion.calls[i], a.result)
    ensures PlanBorneOut(s, c, w, i, Prepend(a.result, b))
  {
    OneMoreBorneOut(a.state.ledger, b.state.ledger, |s.ledger.events|, w.principal, c.run, c.step, w.completion.calls, i,
                    a.result, b.results, |a.state.ledger.events|);
  }

  lemma NothingYet(cfg: Config, s: State, c: Claimed, w: Work, ceiling: Grants, i: nat)
    requires i <= |w.completion.calls|
    requires i < |w.completion.calls| ==>
               var d := Dispatch(cfg, s, CtxAt(c, w, ceiling, i), CallFor(cfg, w, i)); d.Ran? && d.outcome.Waiting?
    ensures var b := DispatchAll(cfg, s, c, w, ceiling, i);
            !b.Aborted? && b.results == [] && (b.Finished? ==> i == |w.completion.calls|)
  {
  }

  lemma NothingToBearOut(s: State, c: Claimed, w: Work, i: nat, b: Batch)
    requires i <= |w.completion.calls| && !b.Aborted? && b.results == [] && (b.Finished? ==> i == |w.completion.calls|)
    ensures PlanBorneOut(s, c, w, i, b)
  {
  }

  /** An answered call in front of the rest of its plan. */
  lemma AnsweredThenRest(cfg: Config, s: State, c: Claimed, w: Work, ceiling: Grants, i: nat) returns (a: Reported)
    requires Sound(cfg, s) && c.run < |s.threads| && RunInv(s.threads[c.run]) && i < |w.completion.calls|
    requires !DispatchAll(cfg, s, c, w, ceiling, i).Aborted?
    requires !Dispatch(cfg, s, CtxAt(c, w, ceiling, i), CallFor(cfg, w, i)).outcome.Waiting?
    ensures DispatchAll(cfg, s, c, w, ceiling, i) == Prepend(a.result, DispatchAll(cfg, a.state, c, w, ceiling, i + 1))
    ensures Sound(cfg, a.state) && c.run < |a.state.threads| && RunInv(a.state.threads[c.run])
    ensures LedgerGrows(s.ledger, a.state.ledger)
    ensures IsBorneOut(a.state.ledger, |s.ledger.events|, w.principal, c.run, c.step, w.completion.calls[i], a.result)
  {
    var d := Dispatch(cfg, s, CtxAt(c, w, ceiling, i), CallFor(cfg, w, i));
    CallKeeps(cfg, s, c, w, ceiling, i);
    CallIsBorneOut(cfg, s, c, w, ceiling, i);
    a := ResultOf(d.state, c.run, w.principal, w.notice(i), w.completion.calls[i].id, d.outcome).value;
  }

  // ---- a checkpoint -------------------------------------------------------------------------

  /** Event `e` journals a plan of this step, with this text. */
  ghost predicate PlanAt(l: Ledger, e: int, r: nat, cp: Checkpoint) {
    && 0 <= e < |l.events| && l.events[e].payload.Planned? && l.events[e].payload.text == cp.text
    && l.events[e] == Event(RunJournal, Aggregate("run", OfRun(r)), 0, Some(r), Some(cp.step), l.events[e].principal, None,
                            l.events[e].payload, None)
  }

  /** The checkpoint's text is that of a plan journaled for its step, and it keeps one result for each call of
      that plan, each borne out by an event written after the plan was. */
  ghost predicate IsTrue(l: Ledger, r: nat, cp: Checkpoint) {
    exists e :: PlanAt(l, e, r, cp) && |cp.results| == |l.events[e].payload.calls|
      && AllBorneOut(l, e + 1, l.events[e].principal, r, cp.step, l.events[e].payload.calls, 0, cp.results)
  }

  lemma StaysTrue(l: Ledger, l': Ledger, r: nat, cp: Checkpoint)
    requires IsTrue(l, r, cp) && LedgerGrows(l, l')
    ensures IsTrue(l', r, cp)
  {
    var e :| PlanAt(l, e, r, cp) && |cp.results| == |l.events[e].payload.calls|
      && AllBorneOut(l, e + 1, l.events[e].principal, r, cp.step, l.events[e].payload.calls, 0, cp.results);
    assert l'.events[e] == l.events[e];
    forall k | 0 <= k < |cp.results|
      ensures IsBorneOut(l', e + 1, l.events[e].principal, r, cp.step, l.events[e].payload.calls[k], cp.results[k])
    {
      StaysBorneOut(l, l', e + 1, e + 1, l.events[e].principal, r, cp.step, l.events[e].payload.calls[0 + k], cp.results[k]);
    }
    assert PlanAt(l', e, r, cp);
  }

  ghost predicate AllTrue(l: Ledger, r: nat, cs: seq<Checkpoint>) {
    forall k :: 0 <= k < |cs| ==> IsTrue(l, r, cs[k])
  }

  lemma AllStayTrue(l: Ledger, l': Ledger, r: nat, cs: seq<Checkpoint>)
    requires AllTrue(l, r, cs) && LedgerGrows(l, l')
    ensures AllTrue(l', r, cs)
  {
    forall k | 0 <= k < |cs| ensures IsTrue(l', r, cs[k]) {
      StaysTrue(l, l', r, cs[k]);
    }
  }

  /** The plan is journaled before any of its calls is dispatched. */
  lemma PlanningIsFirst(s: State, c: Claimed, w: Work)
    requires c.run < |s.threads|
    ensures var es := Planning(s, c, w).ledger.events;
            es == s.ledger.events + [Event(RunJournal, Aggregate("run", OfRun(c.run)), 0, Some(c.run), Some(c.step), w.principal, None,
                                           Planned(w.completion.text, w.completion.calls), None)]
  {
  }

  lemma FinishedIsTrue(cfg: Config, s: State, c: Claimed, w: Work, read: nat)
    requires Always(cfg, s) && c.run < |s.threads| && WithinCap(s.threads[c.run], w.estimate)
    requires DispatchAll(cfg, Planning(s, c, w), c, w, s.threads[c.run].ceiling, 0).Finished?
    ensures var b := DispatchAll(cfg, Planning(s, c, w), c, w, s.threads[c.run].ceiling, 0);
            IsTrue(b.state.ledger, c.run, Checkpoint(c.step, read, w.completion.text, b.results))
  {
    var planned := Planning(s, c, w);
    var b := DispatchAll(cfg, planned, c, w, s.threads[c.run].ceiling, 0);
    var e := |s.ledger.events|;
    PlanningKeeps(cfg, s, c, w);
    PlanningIsFirst(s, c, w);
    PlanIsBorneOut(cfg, planned, c, w, s.threads[c.run].ceiling, 0);
    BatchKeeps(cfg, planned, c, w, s.threads[c.run].ceiling, 0);
    assert b.state.ledger.events[e] == planned.ledger.events[e];
    assert PlanAt(b.state.ledger, e, c.run, Checkpoint(c.step, read, w.completion.text, b.results));
  }

  /** A step keeps its run's checkpoints, or adds its own. */
  lemma StepCheckpoints(cfg: Config, s: State, c: Claimed, w: Work)
    requires Always(cfg, s) && Step(cfg, s, c, w).Some?
    ensures |Step(cfg, s, c, w).value.threads| == |s.threads|
    ensures var cs, cs' := s.threads[c.run].checkpoints, Step(cfg, s, c, w).value.threads[c.run].checkpoints;
            cs' == cs
            || (&& WithinCap(s.threads[c.run], w.estimate)
                && var b := DispatchAll(cfg, Planning(s, c, w), c, w, s.threads[c.run].ceiling, 0);
                   && b.Finished? && Step(cfg, s, c, w).value.ledger == b.state.ledger
                   && cs' == cs + [Checkpoint(c.step, ReadUpTo(s.threads[c.run], w.visible), w.completion.text, b.results)])
  {
    StepAnswersIffWithinCap(cfg, s, c, w);
    if WithinCap(s.threads[c.run], w.estimate) {
      PlanningKeeps(cfg, s, c, w);
      BatchKeeps(cfg, Planning(s, c, w), c, w, s.threads[c.run].ceiling, 0);
      BatchEnds(cfg, s, c, w, DispatchAll(cfg, Planning(s, c, w), c, w, s.threads[c.run].ceiling, 0));
    }
  }

  lemma BatchEnds(cfg: Config, s: State, c: Claimed, w: Work, b: Batch)
    requires c.run < |s.threads| && WithinCap(s.threads[c.run], w.estimate) && Step(cfg, s, c, w).Some?
    requires b == DispatchAll(cfg, Planning(s, c, w), c, w, s.threads[c.run].ceiling, 0) && !b.Aborted?
    requires |b.state.threads| == |s.threads|
    ensures |Step(cfg, s, c, w).value.threads| == |s.threads|
    ensures var cs, cs' := b.state.threads[c.run].checkpoints, Step(cfg, s, c, w).value.threads[c.run].checkpoints;
            cs' == cs
            || (b.Finished? && Step(cfg, s, c, w).value.ledger == b.state.ledger
                && cs' == cs + [Checkpoint(c.step, ReadUpTo(s.threads[c.run], w.visible), w.completion.text, b.results)])
  {
  }

  lemma StepIsTrue(cfg: Config, s: State, c: Claimed, w: Work)
    requires Always(cfg, s) && Step(cfg, s, c, w).Some? && AllTrue(s.ledger, c.run, s.threads[c.run].checkpoints)
    ensures |Step(cfg, s, c, w).value.threads| == |s.threads|
    ensures AllTrue(Step(cfg, s, c, w).value.ledger, c.run, Step(cfg, s, c, w).value.threads[c.run].checkpoints)
  {
    var s' := Step(cfg, s, c, w).value;
    StepKeeps(cfg, s, c, w);
    StepCheckpoints(cfg, s, c, w);
    AllStayTrue(s.ledger, s'.ledger, c.run, s.threads[c.run].checkpoints);
    if s'.threads[c.run].checkpoints != s.threads[c.run].checkpoints {
      FinishedIsTrue(cfg, s, c, w, ReadUpTo(s.threads[c.run], w.visible));
      OneMoreTrue(s'.ledger, c.run, s.threads[c.run].checkpoints, s'.threads[c.run].checkpoints[|s.threads[c.run].checkpoints|]);
    }
  }

  lemma OneMoreTrue(l: Ledger, r: nat, cs: seq<Checkpoint>, cp: Checkpoint)
    requires AllTrue(l, r, cs) && IsTrue(l, r, cp)
    ensures AllTrue(l, r, cs + [cp])
  {
  }

  lemma ApplyIsTrue(cfg: Config, s: State, x: Txn, r: nat)
    requires Always(cfg, s) && Apply(cfg, s, x).Some? && r < |Apply(cfg, s, x).value.threads|
    requires r < |s.threads| ==> AllTrue(s.ledger, r, s.threads[r].checkpoints)
    ensures AllTrue(Apply(cfg, s, x).value.ledger, r, Apply(cfg, s, x).value.threads[r].checkpoints)
  {
    if r >= |s.threads| {
      NewRunsOweNothing(cfg, s, x, r);
    } else if x.WorkStep? && x.claim.run == r {
      StepIsTrue(cfg, s, x.claim, x.work);
    } else {
      ApplyKeeps(cfg, s, x);
      OnlyStepsAnswer(cfg, s, x, r);
      AllStayTrue(s.ledger, Apply(cfg, s, x).value.ledger, r, s.threads[r].checkpoints);
    }
  }

  /** In every state any history reaches, with no assumption on leases: each checkpoint of each run keeps the
      text of a plan its step journaled, and one result for each call of that plan, and each of them is borne
      out by the ledger. */
  lemma {:induction false} EveryCheckpointIsTrue(cfg: Config, data: Data, grants: map<Principal, Grants>, h: seq<Txn>, r: nat)
    requires Exec(cfg, Initial(data, grants), h).Some? && r < |Exec(cfg, Initial(data, grants), h).value.threads|
    ensures var s := Exec(cfg, Initial(data, grants), h).value;
            forall k :: 0 <= k < |s.threads[r].checkpoints| ==> IsTrue(s.ledger, r, s.threads[r].checkpoints[k])
  {
    var n, s0 := |h| - 1, Initial(data, grants);
    if h != [] {
      InitialIsAlways(cfg, data, grants);
      HistoryKeeps(cfg, s0, h[..n]);
      var before := Exec(cfg, s0, h[..n]).value;
      if r < |before.threads| { EveryCheckpointIsTrue(cfg, data, grants, h[..n], r); }
      ApplyIsTrue(cfg, before, h[n], r);
    }
  }

  // ---- lost races ---------------------------------------------------------------------------

  /** One message for each lost race among the results, in order, numbered on from `n`. */
  ghost function Notes(w: Work, results: seq<ToolResult>, i: nat, n: nat): seq<Message> {
    if results == [] then []
    else if results[0].WasDenied? && results[0].reason == "version_conflict" then
      [Message(n + 1, Conflict, w.notice(i), w.principal)] + Notes(w, results[1..], i + 1, n + 1)
    else Notes(w, results[1..], i + 1, n)
  }

  /** One answer, and the message it earns a run that is not over. */
  lemma NoticeIsPosted(s: State, r: nat, author: Principal, notice: Json, id: string, o: Outcome)
    requires !o.Waiting? && r < |s.threads| && RunInv(s.threads[r]) && ResultOf(s, r, author, notice, id, o).Some?
    ensures var a := ResultOf(s, r, author, notice, id, o).value;
            && |a.state.threads| == |s.threads| && RunInv(a.state.threads[r])
            && (Conflicts.HasEnded(a.state.threads[r]) <==> Conflicts.HasEnded(s.threads[r]))
            && a.state.threads[r].mailbox
               == s.threads[r].mailbox
                  + if a.result.WasDenied? && a.result.reason == "version_conflict" && !Conflicts.HasEnded(s.threads[r])
                    then [Message(|s.threads[r].mailbox| + 1, Conflict, notice, author)] else []
  {
    if Post(s.threads[r], Conflict, notice, author).Posted? {
      PostKeeps(s.threads[r], Conflict, notice, author);
    }
  }

  /** One more answer in front of the rest of the plan's. */
  lemma NotesAdd(w: Work, result: ToolResult, results: seq<ToolResult>, i: nat, before: seq<Message>, mid: seq<Message>,
                 after: seq<Message>, over: bool)
    requires mid == before + if over then [] else FirstNote(w, result, i, |before|)
    requires after == mid + if over then [] else Notes(w, results, i + 1, |mid|)
    ensures after == before + if over then [] else Notes(w, [result] + results, i, |before|)
  {
    if !over {
      var first := FirstNote(w, result, i, |before|);
      NotesUnfold(w, result, results, i, |before|);
      OneAfterAnother(before, first, Notes(w, results, i + 1, |mid|));
    }
  }

  lemma OneAfterAnother<T>(a: seq<T>, b: seq<T>, c: seq<T>)
    ensures (a + b) + c == a + (b + c)
  {
  }

  ghost function FirstNote(w: Work, result: ToolResult, i: nat, n: nat): seq<Message> {
    if result.WasDenied? && result.reason == "version_conflict" then [Message(n + 1, Conflict, w.notice(i), w.principal)] else []
  }

  lemma NotesUnfold(w: Work, result: ToolResult, results: seq<ToolResult>, i: nat, n: nat)
    ensures var first := FirstNote(w, result, i, n);
            Notes(w, [result] + results, i, n) == first + Notes(w, results, i + 1, n + |first|)
  {
    assert ([result] + results)[1..] == results;
  }

  lemma RestOfPlan(cfg: Config, s: State, c: Claimed, w: Work, ceiling: Grants, i: nat) returns (a: Reported)
    requires i < |w.completion.calls| && c.run < |s.threads| && RunInv(s.threads[c.run])
    requires !DispatchAll(cfg, s, c, w, ceiling, i).Aborted?
    requires !Dispatch(cfg, s, CtxAt(c, w, ceiling, i), CallFor(cfg, w, i)).outcome.Waiting?
    ensures DispatchAll(cfg, s, c, w, ceiling, i) == Prepend(a.result, DispatchAll(cfg, a.state, c, w, ceiling, i + 1))
    ensures |a.state.threads| == |s.threads| && RunInv(a.state.threads[c.run])
    ensures Conflicts.HasEnded(a.state.threads[c.run]) <==> Conflicts.HasEnded(s.threads[c.run])
    ensures a.state.threads[c.run].mailbox
         == s.threads[c.run].mailbox
            + if Conflicts.HasEnded(s.threads[c.run]) then [] else FirstNote(w, a.result, i, |s.threads[c.run].mailbox|)
  {
    var d := Dispatch(cfg, s, CtxAt(c, w, ceiling, i), CallFor(cfg, w, i));
    RunsStand(cfg, s, CtxAt(c, w, ceiling, i), CallFor(cfg, w, i));
    NoticeIsPosted(d.state, c.run, w.principal, w.notice(i), w.completion.calls[i].id, d.outcome);
    a := ResultOf(d.state, c.run, w.principal, w.notice(i), w.completion.calls[i].id, d.outcome).value;
  }

  lemma {:induction false} PlanExplains(cfg: Config, s: State, c: Claimed, w: Work, ceiling: Grants, i: nat)
    requires c.run < |s.threads| && RunInv(s.threads[c.run]) && i <= |w.completion.calls|
    requires !DispatchAll(cfg, s, c, w, ceiling, i).Aborted?
    ensures var b, t := DispatchAll(cfg, s, c, w, ceiling, i), s.threads[c.run];
            && |b.state.threads| == |s.threads|
            && b.state.threads[c.run].mailbox == t.mailbox + if Conflicts.HasEnded(t) then [] else Notes(w, b.results, i, |t.mailbox|)
    decreases |w.completion.calls| - i
  {
    if i < |w.completion.calls| && !Dispatch(cfg, s, CtxAt(c, w, ceiling, i), CallFor(cfg, w, i)).outcome.Waiting? {
      var a := RestOfPlan(cfg, s, c, w, ceiling, i);
      PlanExplains(cfg, a.state, c, w, ceiling, i + 1);
      var b := DispatchAll(cfg, a.state, c, w, ceiling, i + 1);
      NotesAdd(w, a.result, b.results, i, s.threads[c.run].mailbox, a.state.threads[c.run].mailbox,
               b.state.threads[c.run].mailbox, Conflicts.HasEnded(s.threads[c.run]));
    } else {
      StoppedSaysNothing(cfg, s, c, w, ceiling, i);
    }
  }

  lemma StoppedSaysNothing(cfg: Config, s: State, c: Claimed, w: Work, ceiling: Grants, i: nat)
    requires i <= |w.completion.calls|
    requires i < |w.completion.calls| ==>
               var d := Dispatch(cfg, s, CtxAt(c, w, ceiling, i), CallFor(cfg, w, i)); d.Ran? && d.outcome.Waiting?
    ensures var b := DispatchAll(cfg, s, c, w, ceiling, i);
            !b.Aborted? && b.results == [] && b.state.threads == s.threads
  {
    if i < |w.completion.calls| { RunsStand(cfg, s, CtxAt(c, w, ceiling, i), CallFor(cfg, w, i)); }
  }

  /** A step tells its run of each race it lost, in the order it lost them and nothing else; a run that is over
      is told nothing. */
  lemma LostRacesAreExplained(cfg: Config, s: State, c: Claimed, w: Work)
    requires Always(cfg, s) && Step(cfg, s, c, w).Some? && WithinCap(s.threads[c.run], w.estimate)
    ensures var b, t := DispatchAll(cfg, Planning(s, c, w), c, w, s.threads[c.run].ceiling, 0), s.threads[c.run];
            && !b.Aborted? && c.run < |Step(cfg, s, c, w).value.threads|
            && Step(cfg, s, c, w).value.threads[c.run].mailbox
               == t.mailbox + if Conflicts.HasEnded(t) then [] else Notes(w, b.results, 0, |t.mailbox|)
  {
    PlanningKeeps(cfg, s, c, w);
    PlanExplains(cfg, Planning(s, c, w), c, w, s.threads[c.run].ceiling, 0);
    MailOutlastsThePlan(cfg, s, c, w, DispatchAll(cfg, Planning(s, c, w), c, w, s.threads[c.run].ceiling, 0));
  }

  lemma MailOutlastsThePlan(cfg: Config, s: State, c: Claimed, w: Work, b: Batch)
    requires c.run < |s.threads| && WithinCap(s.threads[c.run], w.estimate) && Step(cfg, s, c, w).Some?
    requires b == DispatchAll(cfg, Planning(s, c, w), c, w, s.threads[c.run].ceiling, 0) && !b.Aborted?
    requires |b.state.threads| == |s.threads|
    ensures c.run < |Step(cfg, s, c, w).value.threads|
    ensures Step(cfg, s, c, w).value.threads[c.run].mailbox == b.state.threads[c.run].mailbox
  {
  }

  // ---- a parked step ------------------------------------------------------------------------

  /** What a plan that stopped waits on: the unanswered question about the first call it did not get past. */
  ghost predicate WaitsOn(b: Batch, c: Claimed, calls: seq<Proposed>, j: nat)
    requires b.ParkedAt?
  {
    && j < |calls| && b.op == calls[j].op
    && b.approval < |b.state.approvals|
    && var a := b.state.approvals[b.approval];
       a.state == Requested && a.run == c.run && a.step == c.step && a.call == calls[j].id
  }

  lemma {:induction false} StoppedPlanWaits(cfg: Config, s: State, c: Claimed, w: Work, ceiling: Grants, i: nat)
    requires i <= |w.completion.calls| && DispatchAll(cfg, s, c, w, ceiling, i).ParkedAt?
    ensures var b := DispatchAll(cfg, s, c, w, ceiling, i);
            WaitsOn(b, c, w.completion.calls, i + |b.results|)
    decreases |w.completion.calls| - i
  {
    if Dispatch(cfg, s, CtxAt(c, w, ceiling, i), CallFor(cfg, w, i)).outcome.Waiting? {
      StopsHere(cfg, s, c, w, ceiling, i);
    } else {
      var a := StopsLater(cfg, s, c, w, ceiling, i);
      StoppedPlanWaits(cfg, a.state, c, w, ceiling, i + 1);
    }
  }

  lemma StopsHere(cfg: Config, s: State, c: Claimed, w: Work, ceiling: Grants, i: nat)
    requires i < |w.completion.calls|
    requires var d := Dispatch(cfg, s, CtxAt(c, w, ceiling, i), CallFor(cfg, w, i)); d.Ran? && d.outcome.Waiting?
    ensures var b := DispatchAll(cfg, s, c, w, ceiling, i);
            b.ParkedAt? && b.results == [] && WaitsOn(b, c, w.completion.calls, i)
  {
    WaitingFrame(cfg, s, CtxAt(c, w, ceiling, i), CallFor(cfg, w, i));
  }

  lemma StopsLater(cfg: Config, s: State, c: Claimed, w: Work, ceiling: Grants, i: nat) returns (a: Reported)
    requires i < |w.completion.calls| && DispatchAll(cfg, s, c, w, ceiling, i).ParkedAt?
    requires !Dispatch(cfg, s, CtxAt(c, w, ceiling, i), CallFor(cfg, w, i)).outcome.Waiting?
    ensures DispatchAll(cfg, s, c, w, ceiling, i) == Prepend(a.result, DispatchAll(cfg, a.state, c, w, ceiling, i + 1))
  {
    var d := Dispatch(cfg, s, CtxAt(c, w, ceiling, i), CallFor(cfg, w, i));
    a := ResultOf(d.state, c.run, w.principal, w.notice(i), w.completion.calls[i].id, d.outcome).value;
  }

  /** A parked step journals the question it waits on and the operation that asked, leaves its queue row and no
      checkpoint, and sets a running run waiting; a run that ended under it keeps its state. */
  lemma ParkedStepSays(cfg: Config, s: State, c: Claimed, w: Work)
    requires Always(cfg, s) && Step(cfg, s, c, w).Some? && WithinCap(s.threads[c.run], w.estimate)
    requires DispatchAll(cfg, Planning(s, c, w), c, w, s.threads[c.run].ceiling, 0).ParkedAt?
    ensures var b, s' := DispatchAll(cfg, Planning(s, c, w), c, w, s.threads[c.run].ceiling, 0), Step(cfg, s, c, w).value;
            && WaitsOn(b, c, w.completion.calls, |b.results|)
            && s'.approvals == b.state.approvals
            && s'.ledger == b.state.ledger.(events := b.state.ledger.events
                 + [Event(RunJournal, Aggregate("run", OfRun(c.run)), 0, Some(c.run), Some(c.step), w.principal, None,
                          ParkedNote(b.approval, b.op), None)])
            && c.run < |s'.threads|
            && var t, t' := s.threads[c.run], s'.threads[c.run];
               && t'.checkpoints == t.checkpoints && c.step !in t'.queue
               && (if t.state == Running then t'.state == WaitingApproval && t'.failure == None
                   else t.state != Done ==> t'.state == t.state)
  {
    var b := DispatchAll(cfg, Planning(s, c, w), c, w, s.threads[c.run].ceiling, 0);
    PlanningKeeps(cfg, s, c, w);
    BatchKeeps(cfg, Planning(s, c, w), c, w, s.threads[c.run].ceiling, 0);
    StoppedPlanWaits(cfg, Planning(s, c, w), c, w, s.threads[c.run].ceiling, 0);
    ParkedAtItsEnd(b.state, c, w, b.approval, b.op);
  }

  lemma ParkedAtItsEnd(s: State, c: Claimed, w: Work, a: nat, op: string)
    requires c.run < |s.threads|
    ensures var s', t := ParkStep(s, c, w, a, op), s.threads[c.run];
            && s'.approvals == s.approvals
            && s'.ledger == s.ledger.(events := s.ledger.events
                 + [Event(RunJournal, Aggregate("run", OfRun(c.run)), 0, Some(c.run), Some(c.step), w.principal, None, ParkedNote(a, op), None)])
            && |s'.threads| == |s.threads|
            && var t' := s'.threads[c.run];
               && t'.checkpoints == t.checkpoints && c.step !in t'.queue
               && (if t.state == Running then t'.state == WaitingApproval && t'.failure == None else t'.state == t.state)
  {
  }

  // ---- a settled step -----------------------------------------------------------------------

  lemma FinishedFrom(cfg: Config, s: State, c: Claimed, w: Work, end: State, cp: Checkpoint)
    requires c.run < |s.threads| && WithinCap(s.threads[c.run], w.estimate)
    requires var b := DispatchAll(cfg, Planning(s, c, w), c, w, s.threads[c.run].ceiling, 0);
             b.Finished? && end == b.state
             && cp == Checkpoint(c.step, ReadUpTo(s.threads[c.run], w.visible), w.completion.text, b.results)
    requires c.run < |end.threads| && Advance(end.threads[c.run], c.step, cp).Some?
    ensures Step(cfg, s, c, w) == Some(end.(threads := end.threads[c.run := Advance(end.threads[c.run], c.step, cp).value]))
  {
  }

  /** A running run as a finished step leaves it: billed, told of its lost races, with one checkpoint more, and
      queued at the next step, or done if its plan called nothing. */
  ghost function AfterFinishing(t: Thread, c: Claimed, w: Work, results: seq<ToolResult>): Thread {
    t.(state := if results != [] then Queued else Done,
       failure := None,
       queue := if results != [] then map[c.step + 1 := None] else map[],
       mailbox := t.mailbox + Notes(w, results, 0, |t.mailbox|),
       checkpoints := t.checkpoints + [Checkpoint(c.step, ReadUpTo(t, w.visible), w.completion.text, results)],
       usage := t.usage + [Usage(c.step, w.estimate, w.completion.input, w.completion.output, w.completion.cached)])
  }

  /** A held step of a running run whose plan was answered to its end, one result to a call, leaves its run
      exactly so, and everything else as its plan did. */
  lemma FinishedStepLeaves(cfg: Config, s: State, c: Claimed, w: Work)
    requires LeasedInv(cfg, s) && Holds(s, c) && s.threads[c.run].state == Running && WithinCap(s.threads[c.run], w.estimate)
    requires DispatchAll(cfg, Planning(s, c, w), c, w, s.threads[c.run].ceiling, 0).Finished?
    ensures c.step == |s.threads[c.run].checkpoints| + 1
    ensures var b := DispatchAll(cfg, Planning(s, c, w), c, w, s.threads[c.run].ceiling, 0);
            && |b.results| == |w.completion.calls|
            && Step(cfg, s, c, w)
               == Some(b.state.(threads := s.threads[c.run := AfterFinishing(s.threads[c.run], c, w, b.results)]))
  {
    var t := s.threads[c.run];
    var b := DispatchAll(cfg, Planning(s, c, w), c, w, t.ceiling, 0);
    assert Shape(t);
    HeldStepIsNext(t, c);
    FinishedPlanLeaves(cfg, s, c, w);
    var t' := b.state.threads[c.run];
    FinishedThread(t, t', c, w, b.results);
    FinishedFrom(cfg, s, c, w, b.state, Checkpoint(c.step, ReadUpTo(t, w.visible), w.completion.text, b.results));
    RunReplacedTwice(s.threads, b.state.threads, c.run, t', AfterFinishing(t, c, w, b.results));
  }

  lemma FinishedPlanLeaves(cfg: Config, s: State, c: Claimed, w: Work)
    requires Always(cfg, s) && c.run < |s.threads| && s.threads[c.run].state == Running && WithinCap(s.threads[c.run], w.estimate)
    requires DispatchAll(cfg, Planning(s, c, w), c, w, s.threads[c.run].ceiling, 0).Finished?
    ensures var b, t := DispatchAll(cfg, Planning(s, c, w), c, w, s.threads[c.run].ceiling, 0), s.threads[c.run];
            && |b.results| == |w.completion.calls|
            && b.state.threads == s.threads[c.run := t.(mailbox := t.mailbox + Notes(w, b.results, 0, |t.mailbox|),
                                                        usage := t.usage + [UsageOf(c, w)])]
  {
    var t := s.threads[c.run];
    var b := DispatchAll(cfg, Planning(s, c, w), c, w, t.ceiling, 0);
    PlanningKeeps(cfg, s, c, w);
    BatchKeeps(cfg, Planning(s, c, w), c, w, t.ceiling, 0);
    PlanExplains(cfg, Planning(s, c, w), c, w, t.ceiling, 0);
    PlanAnswers(cfg, s, c, w);
    OnlyMailAndBill(s, c, w, b.state.threads);
  }

  lemma FinishedThread(t: Thread, t': Thread, c: Claimed, w: Work, results: seq<ToolResult>)
    requires t.state == Running && t.queue.Keys == {c.step}
    requires t' == t.(mailbox := t.mailbox + Notes(w, results, 0, |t.mailbox|), usage := t.usage + [UsageOf(c, w)])
    ensures Advance(t', c.step, Checkpoint(c.step, ReadUpTo(t, w.visible), w.completion.text, results))
         == Some(AfterFinishing(t, c, w, results))
  {
    AdvancedExactly(t', Checkpoint(c.step, ReadUpTo(t, w.visible), w.completion.text, results));
  }

  lemma RunReplacedTwice(ts: seq<Thread>, mid: seq<Thread>, r: nat, t: Thread, t': Thread)
    requires r < |ts| && mid == ts[r := t]
    ensures mid[r := t'] == ts[r := t']
  {
  }

  /** After its plan a running run differs from before its step by its mail and its bill. */
  lemma OnlyMailAndBill(s: State, c: Claimed, w: Work, ts: seq<Thread>)
    requires c.run < |s.threads| && s.threads[c.run].state == Running && OnlyNotices(Planning(s, c, w).threads, ts, c.run)
    ensures ts == s.threads[c.run := s.threads[c.run].(mailbox := ts[c.run].mailbox, usage := ts[c.run].usage)]
  {
  }

  lemma AdvancedExactly(t: Thread, cp: Checkpoint)
    requires t.state == Running && t.queue.Keys == {cp.step}
    ensures Advance(t, cp.step, cp)
         == Some(t.(state := if cp.results != [] then Queued else Done, failure := None,
                    queue := if cp.results != [] then map[cp.step + 1 := None] else map[],
                    checkpoints := t.checkpoints + [cp]))
  {
    var left := t.queue - {cp.step};
    assert left.Keys == {} && left == map[];
  }

  // ---- what a step asks for -----------------------------------------------------------------

  /** A plan's versioned write always states the version its step read: it is refused for stating none just when
      its target does not parse, and a race it loses is reported with that version. */
  lemma StepsStateWhatTheyRead(cfg: Config, s: State, c: Claimed, w: Work, ceiling: Grants, i: nat)
    requires Sound(cfg, s) && i < |w.completion.calls| && w.completion.calls[i].op in cfg.registry
    requires StoredAction(s.ledger, Reservation(w.completion.calls[i].op,
                                                Key(Some(c.run), Some(c.step), w.completion.calls[i].id))) == None
    ensures var p := w.completion.calls[i];
            var op, d := cfg.registry[p.op], Dispatch(cfg, s, CtxAt(c, w, ceiling, i), CallFor(cfg, w, i));
            && (DeniedFor(d, "expected_version_required") <==>
                  && (Allowed(s, w.principal, Some(ceiling), p.op, MayUse) || Allowed(s, w.principal, Some(ceiling), p.op, AsksFirst))
                  && op.valid(p.args) && op.mode == Write && op.target.Some? && op.target.value.path(p.args) == None)
            && (DeniedFor(d, "version_conflict") ==>
                  && op.target.Some? && op.target.value.path(p.args).Some?
                  && var n := |Stream(s.ledger.events, Aggregate(op.target.value.kind, OfTarget(op.target.value.path(p.args).value)))|;
                     w.stated(i) != n && d.outcome.detail == Conflicting(w.stated(i), n))
  {
    var ctx, call := CtxAt(c, w, ceiling, i), CallFor(cfg, w, i);
    EachRefusalHasItsCause(cfg, s, ctx, call);
    if DeniedFor(Dispatch(cfg, s, ctx, call), "version_conflict") {
      ConflictIsReal(cfg, s, ctx, call);
    }
  }
}
