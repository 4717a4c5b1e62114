/** A lost version race is told to the run that lost it: the notices in its mailbox are the conflict
    denials the ledger carries for it. */
module Conflicts {
  import opened Tables
  import opened Ledgers
  import opened Runs
  import opened Dispatching
  import opened Working
  import opened Histories
  import opened RunLaws
  import opened DispatchTheorems
  import opened BatchLaws
  import opened Lifecycle
  import opened Budgets
  import opened Guarantees

  // ---- counting -----------------------------------------------------------------------------

  predicate IsConflict(e: Event, r: nat) {
    e.kind == Denial && e.run == Some(r) && e.payload.Refusal? && e.payload.reason == VERSION_CONFLICT
  }

  /** The races a run lost, as the ledger carries them. */
  function Lost(es: seq<Event>, r: nat): nat {
    if es == [] then 0 else Lost(es[..|es| - 1], r) + if IsConflict(es[|es| - 1], r) then 1 else 0
  }

  /** The races a run was told it lost. */
  function Notices(ms: seq<Message>): nat {
    if ms == [] then 0 else Notices(ms[..|ms| - 1]) + if ms[|ms| - 1].kind == Conflict then 1 else 0
  }

  lemma LostOneMore(es: seq<Event>, e: Event, r: nat)
    ensures Lost(es + [e], r) == Lost(es, r) + if IsConflict(e, r) then 1 else 0
  {
    assert (es + [e])[..|es|] == es;
  }

  lemma NoticesOneMore(ms: seq<Message>, m: Message)
    ensures Notices(ms + [m]) == Notices(ms) + if m.kind == Conflict then 1 else 0
  {
    assert (ms + [m])[..|ms|] == ms;
  }

  lemma LastEvent(es: seq<Event>, es': seq<Event>, r: nat)
    requires |es'| == |es| + 1 && es <= es'
    ensures Lost(es', r) == Lost(es, r) + if IsConflict(es'[|es|], r) then 1 else 0
  {
    assert es' == es + [es'[|es|]];
    LostOneMore(es, es'[|es|], r);
  }

  // ---- one call -----------------------------------------------------------------------------

  predicate LosesRace(d: Dispatched, ctx: Ctx, r: nat) {
    d.Ran? && d.outcome.Denied? && d.outcome.reason == VERSION_CONFLICT && RunOf(ctx) == Some(r)
  }

  lemma DenialCounts(cfg: Config, s: State, ctx: Ctx, call: Call, r: nat)
    ensures var d := Dispatch(cfg, s, ctx, call);
            d.Ran? && d.outcome.Denied? ==>
              Lost(d.state.ledger.events, r) == Lost(s.ledger.events, r) + if LosesRace(d, ctx, r) then 1 else 0
  {
    var d := Dispatch(cfg, s, ctx, call);
    if d.Ran? && d.outcome.Denied? {
      RefusalFrame(cfg, s, ctx, call);
      LastEvent(s.ledger.events, d.state.ledger.events, r);
    }
  }

  lemma ParkCounts(cfg: Config, s: State, ctx: Ctx, call: Call, r: nat)
    ensures var d := Dispatch(cfg, s, ctx, call);
            d.Ran? && d.outcome.Waiting? ==> Lost(d.state.ledger.events, r) == Lost(s.ledger.events, r)
  {
    var d := Dispatch(cfg, s, ctx, call);
    if d.Ran? && d.outcome.Waiting? { WaitingFrame(cfg, s, ctx, call); }
  }

  lemma AdmittedCounts(cfg: Config, s: State, ctx: Ctx, call: Call, i: Option<nat>, result: Result, r: nat)
    requires call.op in cfg.registry && StoredAction(s.ledger, ReservationFor(ctx, call)) == None
    requires Admit(cfg, s, ctx, call).Ran? && Admit(cfg, s, ctx, call).outcome == Committed(i, result)
    ensures Lost(Admit(cfg, s, ctx, call).state.ledger.events, r) == Lost(s.ledger.events, r)
  {
    var s' := Admit(cfg, s, ctx, call).state;
    if i.Some? {
      AdmitCommitted(cfg, s, ctx, call, i.value, result);
    } else {
      AdmitRead(cfg, s, ctx, call, result);
      var op := cfg.registry[call.op];
      BodyKeepsLedger(cfg, ReadFrom(s, ctx, call, op, EffectiveLevel(s, ctx, call.op).value), ctx, op, call.args);
    }
    LastEvent(s.ledger.events, s'.ledger.events, r);
  }

  lemma BodyKeepsLedger(cfg: Config, s: State, ctx: Ctx, op: Operation, args: Json)
    requires RunBody(cfg, s, ctx, op, args).Some?
    ensures RunBody(cfg, s, ctx, op, args).value.0.ledger == s.ledger
  {
  }

  lemma CommitCounts(cfg: Config, s: State, ctx: Ctx, call: Call, r: nat)
    ensures var d := Dispatch(cfg, s, ctx, call);
            d.Ran? && d.outcome.Committed? ==> Lost(d.state.ledger.events, r) == Lost(s.ledger.events, r)
  {
    var d := Dispatch(cfg, s, ctx, call);
    if d.Ran? && d.outcome.Committed? {
      var reserved := Reserve(s, ReservationFor(ctx, call));
      assert d == Admit(cfg, reserved, ctx, call);
      AdmittedCounts(cfg, reserved, ctx, call, d.outcome.action, d.outcome.result, r);
    }
  }

  /** A dispatch adds a conflict denial exactly when it answers one. */
  lemma DispatchCounts(cfg: Config, s: State, ctx: Ctx, call: Call, r: nat)
    requires Dispatch(cfg, s, ctx, call).Ran?
    ensures var d := Dispatch(cfg, s, ctx, call);
            Lost(d.state.ledger.events, r) == Lost(s.ledger.events, r) + if LosesRace(d, ctx, r) then 1 else 0
  {
    DenialCounts(cfg, s, ctx, call, r);
    ParkCounts(cfg, s, ctx, call, r);
    CommitCounts(cfg, s, ctx, call, r);
    ReplayIsSilent(cfg, s, ctx, call);
  }

  // ---- one plan -----------------------------------------------------------------------------

  predicate HasEnded(t: Thread) { t.state in {Cancelled, Failed} }

  /** Between two states run `r` was told of each race it lost, or had ended and was told of none. */
  ghost predicate Tells(t: Thread, t': Thread, es: seq<Event>, es': seq<Event>, r: nat) {
    && (HasEnded(t) ==> HasEnded(t'))
    && Lost(es, r) <= Lost(es', r)
    && Notices(t.mailbox) <= Notices(t'.mailbox) <= Notices(t.mailbox) + Lost(es', r) - Lost(es, r)
    && (!HasEnded(t') ==> Notices(t'.mailbox) - Notices(t.mailbox) == Lost(es', r) - Lost(es, r))
  }

  lemma TellsOn(a: Thread, b: Thread, c: Thread, es: seq<Event>, es1: seq<Event>, es2: seq<Event>, r: nat)
    requires Tells(a, b, es, es1, r) && Tells(b, c, es1, es2, r)
    ensures Tells(a, c, es, es2, r)
  {
  }

  /** A call's notice, posted with its denial. */
  lemma NoticeTells(s: State, r: nat, author: Principal, notice: Json, id: string, o: Outcome)
    requires !o.Waiting? && r < |s.threads| && ResultOf(s, r, author, notice, id, o).Some?
    ensures var s' := ResultOf(s, r, author, notice, id, o).value.state;
            && |s'.threads| == |s.threads| && s'.ledger == s.ledger
            && var t, t' := s.threads[r], s'.threads[r];
               && (HasEnded(t) <==> HasEnded(t'))
               && Notices(t'.mailbox) == Notices(t.mailbox)
                                         + if !HasEnded(t) && o.Denied? && o.reason == VERSION_CONFLICT then 1 else 0
  {
    var t := s.threads[r];
    if o.Denied? && o.reason == VERSION_CONFLICT && !HasEnded(t) {
      NoticesOneMore(t.mailbox, Message(LastSeq(t.mailbox) + 1, Conflict, notice, author));
    }
  }

  lemma {:induction false} BatchTells(cfg: Config, s: State, c: Claimed, w: Work, ceiling: Grants, i: nat)
    requires c.run < |s.threads| && i <= |w.completion.calls| && !DispatchAll(cfg, s, c, w, ceiling, i).Aborted?
    ensures var s' := DispatchAll(cfg, s, c, w, ceiling, i).state;
            && |s'.threads| == |s.threads|
            && Tells(s.threads[c.run], s'.threads[c.run], s.ledger.events, s'.ledger.events, c.run)
    decreases |w.completion.calls| - i
  {
    if i < |w.completion.calls| {
      var p, ctx, call := w.completion.calls[i], CtxAt(c, w, ceiling, i), CallFor(cfg, w, i);
      var d := Dispatch(cfg, s, ctx, call);
      RunsStand(cfg, s, ctx, call);
      DispatchCounts(cfg, s, ctx, call, c.run);
      if !d.outcome.Waiting? {
        NoticeTells(d.state, c.run, w.principal, w.notice(i), p.id, d.outcome);
        var a := ResultOf(d.state, c.run, w.principal, w.notice(i), p.id, d.outcome).value;
        BatchTells(cfg, a.state, c, w, ceiling, i + 1);
        var last := DispatchAll(cfg, a.state, c, w, ceiling, i + 1).state;
        TellsOn(s.threads[c.run], a.state.threads[c.run], last.threads[c.run],
                s.ledger.events, a.state.ledger.events, last.ledger.events, c.run);
      }
    }
  }

  /** No event of a plan is another run's. */
  lemma {:induction false} BatchLosesItsOwn(cfg: Config, s: State, c: Claimed, w: Work, ceiling: Grants, i: nat, r: nat)
    requires r != c.run && i <= |w.completion.calls| && !DispatchAll(cfg, s, c, w, ceiling, i).Aborted?
    ensures Lost(DispatchAll(cfg, s, c, w, ceiling, i).state.ledger.events, r) == Lost(s.ledger.events, r)
    decreases |w.completion.calls| - i
  {
    if i < |w.completion.calls| {
      var p, ctx, call := w.completion.calls[i], CtxAt(c, w, ceiling, i), CallFor(cfg, w, i);
      var d := Dispatch(cfg, s, ctx, call);
      DispatchCounts(cfg, s, ctx, call, r);
      if !d.outcome.Waiting? {
        NoticeMovesNoLedger(d.state, c.run, w.principal, w.notice(i), p.id, d.outcome);
        BatchLosesItsOwn(cfg, ResultOf(d.state, c.run, w.principal, w.notice(i), p.id, d.outcome).value.state, c, w, ceiling, i + 1, r);
      }
    }
  }

  // ---- one step -----------------------------------------------------------------------------

  lemma PlanningTells(s: State, c: Claimed, w: Work, r: nat)
    requires c.run < |s.threads| && r < |s.threads|
    ensures Lost(Planning(s, c, w).ledger.events, r) == Lost(s.ledger.events, r)
    ensures Planning(s, c, w).threads[r].mailbox == s.threads[r].mailbox && Planning(s, c, w).threads[r].state == s.threads[r].state
  {
    LastEvent(s.ledger.events, Planning(s, c, w).ledger.events, r);
  }

  /** What a step's end adds: no conflict, and no message. */
  ghost predicate TailTells(s: State, s': State, c: Claimed, r: nat) {
    && Lost(s'.ledger.events, r) == Lost(s.ledger.events, r)
    && |s'.threads| == |s.threads|
    && (r < |s.threads| ==> s'.threads[r].mailbox == s.threads[r].mailbox && (HasEnded(s.threads[r]) ==> HasEnded(s'.threads[r])))
  }

  lemma ParkTells(s: State, c: Claimed, w: Work, a: nat, op: string, r: nat)
    ensures TailTells(s, ParkStep(s, c, w, a, op), c, r)
  {
    LastEvent(s.ledger.events, ParkStep(s, c, w, a, op).ledger.events, r);
  }

  lemma FinishTells(s: State, c: Claimed, cp: Checkpoint, r: nat)
    requires FinishStep(s, c, cp).Some?
    ensures TailTells(s, FinishStep(s, c, cp).value, c, r)
  {
  }

  lemma RefuseTells(s: State, c: Claimed, w: Work, r: nat)
    requires c.run < |s.threads|
    ensures TailTells(s, RefuseStep(s, c, w), c, r)
  {
    LastEvent(s.ledger.events, RefuseStep(s, c, w).ledger.events, r);
  }

  lemma StepEndTells(cfg: Config, s: State, c: Claimed, w: Work, r: nat)
    requires c.run < |s.threads| && WithinCap(s.threads[c.run], w.estimate) && Step(cfg, s, c, w).Some?
    ensures var b := DispatchAll(cfg, Planning(s, c, w), c, w, s.threads[c.run].ceiling, 0);
            !b.Aborted? && TailTells(b.state, Step(cfg, s, c, w).value, c, r)
  {
    match DispatchAll(cfg, Planning(s, c, w), c, w, s.threads[c.run].ceiling, 0)
    case Aborted =>
    case ParkedAt(s1, _, a, op) => ParkTells(s1, c, w, a, op, r);
    case Finished(s1, results) =>
      FinishTells(s1, c, Checkpoint(c.step, ReadUpTo(s.threads[c.run], w.visible), w.completion.text, results), r);
  }

  lemma StepTells(cfg: Config, s: State, c: Claimed, w: Work)
    requires Step(cfg, s, c, w).Some?
    ensures var s' := Step(cfg, s, c, w).value;
            |s'.threads| == |s.threads| && Tells(s.threads[c.run], s'.threads[c.run], s.ledger.events, s'.ledger.events, c.run)
  {
    if WithinCap(s.threads[c.run], w.estimate) {
      PlanningTells(s, c, w, c.run);
      BatchTells(cfg, Planning(s, c, w), c, w, s.threads[c.run].ceiling, 0);
      StepEndTells(cfg, s, c, w, c.run);
    } else {
      RefuseTells(s, c, w, c.run);
    }
  }

  lemma StepLosesItsOwn(cfg: Config, s: State, c: Claimed, w: Work, r: nat)
    requires Step(cfg, s, c, w).Some? && r != c.run
    ensures Lost(Step(cfg, s, c, w).value.ledger.events, r) == Lost(s.ledger.events, r)
  {
    if WithinCap(s.threads[c.run], w.estimate) {
      LastEvent(s.ledger.events, Planning(s, c, w).ledger.events, r);
      BatchLosesItsOwn(cfg, Planning(s, c, w), c, w, s.threads[c.run].ceiling, 0, r);
      StepEndTells(cfg, s, c, w, r);
    } else {
      RefuseTells(s, c, w, r);
    }
  }

  // ---- every transaction --------------------------------------------------------------------

  lemma OthersLoseNothing(cfg: Config, s: State, x: Txn, r: nat)
    requires Apply(cfg, s, x).Some? && !x.WorkStep?
    ensures Lost(Apply(cfg, s, x).value.ledger.events, r) == Lost(s.ledger.events, r)
  {
    var s' := Apply(cfg, s, x).value;
    match x
    case CallOperation(p, call, now) => DispatchCounts(cfg, s, Ctx(p, None, None, now), call, r);
    case CreateRun(_, _) => LastEvent(s.ledger.events, s'.ledger.events, r);
    case CancelRun(_, _) => LastEvent(s.ledger.events, s'.ledger.events, r);
    case _ =>
  }

  lemma BodyKeepsMail(cfg: Config, s: State, ctx: Ctx, op: Operation, args: Json, r: nat)
    requires RunBody(cfg, s, ctx, op, args).Some? && r < |s.threads|
    ensures var ts := RunBody(cfg, s, ctx, op, args).value.0.threads; |ts| == |s.threads| && ts[r].mailbox == s.threads[r].mailbox
  {
  }

  lemma CallKeepsMail(cfg: Config, s: State, ctx: Ctx, call: Call, r: nat)
    requires ctx.at.None? && Dispatch(cfg, s, ctx, call).Ran? && r < |s.threads|
    ensures var ts := Dispatch(cfg, s, ctx, call).state.threads; r < |ts| && ts[r].mailbox == s.threads[r].mailbox
  {
    if Dispatch(cfg, s, ctx, call).outcome.Committed? {
      var from := CommittedFrom(cfg, s, ctx, call);
      BodyKeepsMail(cfg, from, ctx, cfg.registry[call.op], call.args, r);
    } else {
      RefusedKeepsRuns(cfg, s, ctx, call);
    }
  }

  lemma SendKeepsNotices(s: State, q: nat, body: Json, p: Principal, r: nat)
    requires Send(s, q, body, p).Some? && r < |s.threads|
    ensures var ts := Send(s, q, body, p).value.threads; r < |ts| && Notices(ts[r].mailbox) == Notices(s.threads[r].mailbox)
  {
    NoticesOneMore(s.threads[q].mailbox, Message(LastSeq(s.threads[q].mailbox) + 1, Steer, body, p));
  }

  lemma OthersKeepNotices(cfg: Config, s: State, x: Txn, r: nat)
    requires Always(cfg, s) && Apply(cfg, s, x).Some? && r < |s.threads| && !(x.WorkStep? && x.claim.run == r)
    ensures var ts := Apply(cfg, s, x).value.threads; r < |ts| && Notices(ts[r].mailbox) == Notices(s.threads[r].mailbox)
  {
    match x
    case WorkStep(c, w) => OtherStepsKeepMail(cfg, s, c, w, r);
    case CallOperation(p, call, now) => CallKeepsMail(cfg, s, Ctx(p, None, None, now), call, r);
    case SendMessage(q, body, p) => SendKeepsNotices(s, q, body, p, r);
    case _ =>
  }

  lemma OtherStepsKeepMail(cfg: Config, s: State, c: Claimed, w: Work, r: nat)
    requires Always(cfg, s) && Step(cfg, s, c, w).Some? && r < |s.threads| && r != c.run
    ensures var ts := Step(cfg, s, c, w).value.threads; r < |ts| && ts[r].mailbox == s.threads[r].mailbox
  {
    if WithinCap(s.threads[c.run], w.estimate) {
      PlanLeavesOthers(cfg, s, c, w, r);
      OtherRunsStand(cfg, s, c, w, DispatchAll(cfg, Planning(s, c, w), c, w, s.threads[c.run].ceiling, 0), r);
    }
  }

  // ---- the invariant ------------------------------------------------------------------------

  /** No run is told of a race the ledger does not carry; until it ends it is told of every one. */
  ghost predicate ToldOf(t: Thread, es: seq<Event>, r: nat) {
    && Notices(t.mailbox) <= Lost(es, r)
    && (!HasEnded(t) ==> Notices(t.mailbox) == Lost(es, r))
  }

  ghost predicate AllTold(s: State) {
    && (forall r :: 0 <= r < |s.threads| ==> ToldOf(s.threads[r], s.ledger.events, r))
    && (forall r :: |s.threads| <= r ==> Lost(s.ledger.events, r) == 0)
  }

  lemma NewRunsHearNothing(cfg: Config, s: State, x: Txn, r: nat)
    requires Always(cfg, s) && Apply(cfg, s, x).Some? && |s.threads| <= r < |Apply(cfg, s, x).value.threads|
    ensures x.CreateRun? && Apply(cfg, s, x).value.threads[r].mailbox == []
  {
    match x
    case WorkStep(c, w) => StepTells(cfg, s, c, w);
    case CallOperation(p, call, now) => CallAddsNoRun(cfg, s, Ctx(p, None, None, now), call);
    case _ =>
  }

  lemma CallAddsNoRun(cfg: Config, s: State, ctx: Ctx, call: Call)
    requires ctx.at.None? && Dispatch(cfg, s, ctx, call).Ran?
    ensures |Dispatch(cfg, s, ctx, call).state.threads| == |s.threads|
  {
    if Dispatch(cfg, s, ctx, call).outcome.Committed? {
      var from := CommittedFrom(cfg, s, ctx, call);
      if s.threads != [] { BodyKeepsMail(cfg, from, ctx, cfg.registry[call.op], call.args, 0); }
    } else {
      RefusedKeepsRuns(cfg, s, ctx, call);
    }
  }

  lemma ApplyKeepsTold(cfg: Config, s: State, x: Txn)
    requires Always(cfg, s) && AllTold(s) && Apply(cfg, s, x).Some?
    ensures AllTold(Apply(cfg, s, x).value)
  {
    var s' := Apply(cfg, s, x).value;
    forall r | 0 <= r < |s'.threads| ensures ToldOf(s'.threads[r], s'.ledger.events, r) { RunStaysTold(cfg, s, x, r); }
    forall r | |s'.threads| <= r ensures Lost(s'.ledger.events, r) == 0 { NobodyLoses(cfg, s, x, r); }
  }

  lemma NobodyLoses(cfg: Config, s: State, x: Txn, r: nat)
    requires Always(cfg, s) && AllTold(s) && Apply(cfg, s, x).Some? && |Apply(cfg, s, x).value.threads| <= r
    ensures Lost(Apply(cfg, s, x).value.ledger.events, r) == 0
  {
    ApplyKeeps(cfg, s, x);
    if x.WorkStep? {
      StepLosesItsOwn(cfg, s, x.claim, x.work, r);
    } else {
      OthersLoseNothing(cfg, s, x, r);
    }
  }

  lemma RunStaysTold(cfg: Config, s: State, x: Txn, r: nat)
    requires Always(cfg, s) && AllTold(s) && Apply(cfg, s, x).Some? && r < |Apply(cfg, s, x).value.threads|
    ensures ToldOf(Apply(cfg, s, x).value.threads[r], Apply(cfg, s, x).value.ledger.events, r)
  {
    ApplyKeeps(cfg, s, x);
    if r >= |s.threads| {
      NewRunsHearNothing(cfg, s, x, r);
      OthersLoseNothing(cfg, s, x, r);
    } else {
      assert ToldOf(s.threads[r], s.ledger.events, r);
      assert RunLater(s.threads[r], Apply(cfg, s, x).value.threads[r]);
      if x.WorkStep? && x.claim.run == r {
        StepTells(cfg, s, x.claim, x.work);
      } else {
        OthersKeepNotices(cfg, s, x, r);
        if x.WorkStep? { StepLosesItsOwn(cfg, s, x.claim, x.work, r); } else { OthersLoseNothing(cfg, s, x, r); }
      }
    }
  }

  lemma {:induction false} HistoryKeepsTold(cfg: Config, s: State, h: seq<Txn>)
    requires Always(cfg, s) && AllTold(s) && Exec(cfg, s, h).Some?
    ensures AllTold(Exec(cfg, s, h).value)
  {
    if h != [] {
      var n := |h| - 1;
      HistoryKeepsTold(cfg, s, h[..n]);
      HistoryKeeps(cfg, s, h[..n]);
      ApplyKeepsTold(cfg, Exec(cfg, s, h[..n]).value, h[n]);
    }
  }

  /** Over every history, with no assumption on leases: a run's mailbox never holds more conflict notices
      than the ledger holds conflict denials for it, and until the run is cancelled or fails it holds
      exactly as many, so that each is posted in the transaction of its denial. */
  lemma ConflictsAreTold(cfg: Config, data: Data, grants: map<Principal, Grants>, h: seq<Txn>, r: nat)
    requires Exec(cfg, Initial(data, grants), h).Some? && r < |Exec(cfg, Initial(data, grants), h).value.threads|
    ensures var s := Exec(cfg, Initial(data, grants), h).value;
            && Notices(s.threads[r].mailbox) <= Lost(s.ledger.events, r)
            && (s.threads[r].state !in {Cancelled, Failed} ==> Notices(s.threads[r].mailbox) == Lost(s.ledger.events, r))
  {
    InitialIsAlways(cfg, data, grants);
    HistoryKeepsTold(cfg, Initial(data, grants), h);
    assert ToldOf(Exec(cfg, Initial(data, grants), h).value.threads[r], Exec(cfg, Initial(data, grants), h).value.ledger.events, r);
  }
}
