/** Over whole histories: a question that was refused, withdrawn or expired is never put again, never opened
    and never spent (`identity/service.park_approval`, `runs/service.cancel`). */
module Refusals {
  import opened Tables
  import opened Ledgers
  import opened Approvals
  import opened Runs
  import opened Dispatching
  import opened Working
  import opened Histories
  import opened RunLaws
  import opened DispatchLaws
  import opened DispatchTheorems
  import opened Verdicts
  import opened BatchLaws
  import opened Lifecycle
  import opened Guarantees

  // ---- one question to a continuation -------------------------------------------------------

  /** Two rows are about the same call of the same step. */
  predicate SameCall(a: Approval, b: Approval) {
    a.run == b.run && a.step == b.step && a.call == b.call
  }

  predicate Refused(a: Approval) {
    a.state == Rejected || a.state == Expired
  }

  /** A continuation never stands on two questions, unless its run was cancelled; and even then none that is
      still asked stands beside another. */
  ghost predicate AskedOnce(rows: seq<Approval>, ts: seq<Thread>) {
    forall i, j :: 0 <= i < |rows| && 0 <= j < |rows| && i != j && SameCall(rows[i], rows[j])
                   && (rows[i].state == Requested || Refused(rows[i])) && (rows[j].state == Requested || Refused(rows[j])) ==>
      && Refused(rows[i]) && Refused(rows[j])
      && rows[i].run < |ts| && ts[rows[i].run].state == Cancelled
  }

  /** No call that was refused is asked about again. */
  ghost predicate NotAskedAgain(rows: seq<Approval>, rows': seq<Approval>) {
    forall a, b :: 0 <= a < |rows| && Refused(rows[a]) && |rows| <= b < |rows'| ==> !SameCall(rows[a], rows'[b])
  }

  /** One new question, about a call that stands on none. */
  ghost predicate Asks(rows: seq<Approval>, rows': seq<Approval>) {
    && |rows'| == |rows| + 1 && rows <= rows' && rows'[|rows|].state == Requested
    && forall a :: 0 <= a < |rows| && SameCall(rows[a], rows'[|rows|]) ==> rows[a].state != Requested && !Refused(rows[a])
  }

  /** Questions answered and approvals spent, and nothing else. */
  ghost predicate Moves(rows: seq<Approval>, rows': seq<Approval>) {
    && |rows'| == |rows|
    && forall a :: 0 <= a < |rows| ==>
         && SameCall(rows[a], rows'[a])
         && (rows'[a] == rows[a]
             || (rows[a].state == Open && rows'[a].state == Consumed)
             || (rows[a].state == Requested && rows'[a].state != Requested))
  }

  ghost predicate Orderly(rows: seq<Approval>, rows': seq<Approval>, ts: seq<Thread>) {
    && (AskedOnce(rows, ts) ==> AskedOnce(rows', ts))
    && NotAskedAgain(rows, rows') && ApprovalsGrow(rows, rows')
  }

  lemma OrderlyOn(a: seq<Approval>, b: seq<Approval>, c: seq<Approval>, ts: seq<Thread>)
    requires Orderly(a, b, ts) && Orderly(b, c, ts)
    ensures Orderly(a, c, ts)
  {
    ApprovalsGrowOn(a, b, c);
    forall i, j | 0 <= i < |a| && Refused(a[i]) && |a| <= j < |c| ensures !SameCall(a[i], c[j]) {
      assert Later(a[i], b[i]);
      if j < |b| { assert Later(b[j], c[j]) && !SameCall(a[i], b[j]); }
    }
  }

  lemma AskingIsOrderly(rows: seq<Approval>, rows': seq<Approval>, ts: seq<Thread>)
    requires Asks(rows, rows')
    ensures Orderly(rows, rows', ts)
  {
    assert forall a :: 0 <= a < |rows| ==> rows'[a] == rows[a];
  }

  lemma MovingIsOrderly(rows: seq<Approval>, rows': seq<Approval>, ts: seq<Thread>)
    requires Moves(rows, rows') && ApprovalsGrow(rows, rows')
    ensures Orderly(rows, rows', ts)
  {
    assert forall a :: 0 <= a < |rows| ==> SameCall(rows[a], rows'[a]);
    if AskedOnce(rows, ts) {
      forall i, j | 0 <= i < |rows| && 0 <= j < |rows| && i != j && SameCall(rows'[i], rows'[j])
                    && (rows'[i].state == Requested || Refused(rows'[i])) && (rows'[j].state == Requested || Refused(rows'[j]))
        ensures Refused(rows'[i]) && Refused(rows'[j])
        ensures rows'[i].run < |ts| && ts[rows'[i].run].state == Cancelled
      {
        assert SameCall(rows[i], rows[j]);
      }
    }
  }

  // ---- one dispatch -------------------------------------------------------------------------

  lemma MovesOn(a: seq<Approval>, b: seq<Approval>, c: seq<Approval>)
    requires Moves(a, b) && Moves(b, c)
    ensures Moves(a, c)
  {
    forall i | 0 <= i < |a|
      ensures SameCall(a[i], c[i])
      ensures c[i] == a[i] || (a[i].state == Open && c[i].state == Consumed) || (a[i].state == Requested && c[i].state != Requested)
    {
      assert SameCall(a[i], b[i]) && SameCall(b[i], c[i]);
    }
  }

  lemma SpendingMoves(rows: seq<Approval>, c: Consume)
    ensures Moves(rows, ConsumeAll(rows, c))
  {
  }

  lemma BodyMovesRows(cfg: Config, s: State, ctx: Ctx, op: Operation, args: Json)
    requires RunBody(cfg, s, ctx, op, args).Some?
    ensures Moves(s.approvals, RunBody(cfg, s, ctx, op, args).value.0.approvals)
  {
    match op.body
    case Plain(_) =>
    case Decide(parse) =>
      var d := parse(args);
      if d.approval < |s.approvals| && s.approvals[d.approval].state == Requested {
        var answered := Answer(s.approvals[d.approval], d, ctx.principal);
        assert RunBody(cfg, s, ctx, op, args).value.0.approvals == s.approvals[d.approval := answered];
      }
  }

  lemma CommitMoves(cfg: Config, s: State, ctx: Ctx, call: Call)
    ensures var d := Dispatch(cfg, s, ctx, call);
            d.Ran? && d.outcome.Committed? ==> Moves(s.approvals, d.state.approvals)
  {
    var d := Dispatch(cfg, s, ctx, call);
    if d.Ran? && d.outcome.Committed? {
      var reserved, op := Reserve(s, ReservationFor(ctx, call)), cfg.registry[call.op];
      assert d == Admit(cfg, reserved, ctx, call);
      AdmittedFrom(cfg, reserved, ctx, call);
      var from := BodyFrom(cfg, reserved, ctx, call);
      SpendingMoves(s.approvals, ConsumeFor(ctx, call, op, if op.mode == Read then None else Some(|s.ledger.actions|)));
      BodyMovesRows(cfg, from, ctx, op, call.args);
      MovesOn(s.approvals, from.approvals, d.state.approvals);
    }
  }

  lemma DenialMoves(cfg: Config, s: State, ctx: Ctx, call: Call)
    ensures var d := Dispatch(cfg, s, ctx, call);
            d.Ran? && (d.outcome.Denied? || d.outcome.Replayed?) ==> d.state.approvals == s.approvals
  {
    DeniedQuestions(cfg, s, ctx, call);
    ReplayIsSilent(cfg, s, ctx, call);
  }

  lemma ParkAsks(cfg: Config, s: State, ctx: Ctx, call: Call)
    ensures var d := Dispatch(cfg, s, ctx, call);
            d.Ran? && d.outcome.Waiting? ==> d.state.approvals == s.approvals || Asks(s.approvals, d.state.approvals)
  {
    WaitsIff(cfg, s, ctx, call);
    var d := Dispatch(cfg, s, ctx, call);
    if d.Ran? && d.outcome.Waiting? {
      UnpaidCallAsks(cfg, s, ctx, call);
      FirstOfThem(s.approvals, ctx.at.value, call.id);
      var place := ctx.at.value;
      if NoneStands(s.approvals, place, call.id) {
        NewQuestion(s.approvals, QuestionOf(ctx, place, cfg.registry[call.op].versionId, call), place, call.id);
      }
    }
  }

  lemma NewQuestion(rows: seq<Approval>, q: Approval, place: Place, id: string)
    requires NoneStands(rows, place, id) && q.state == Requested && q.run == place.run && q.step == place.step && q.call == id
    ensures Asks(rows, rows + [q])
  {
    forall a | 0 <= a < |rows| && SameCall(rows[a], q) ensures rows[a].state != Requested && !Refused(rows[a]) {
      assert !Stands(rows[a], place, id);
    }
  }

  lemma DispatchIsOrderly(cfg: Config, s: State, ctx: Ctx, call: Call, ts: seq<Thread>)
    requires Sound(cfg, s) && Dispatch(cfg, s, ctx, call).Ran?
    ensures Orderly(s.approvals, Dispatch(cfg, s, ctx, call).state.approvals, ts)
  {
    var rows := Dispatch(cfg, s, ctx, call).state.approvals;
    DispatchKeepsSound(cfg, s, ctx, call);
    CommitMoves(cfg, s, ctx, call);
    DenialMoves(cfg, s, ctx, call);
    ParkAsks(cfg, s, ctx, call);
    if Asks(s.approvals, rows) { AskingIsOrderly(s.approvals, rows, ts); } else { MovingIsOrderly(s.approvals, rows, ts); }
  }

  // ---- one transaction ----------------------------------------------------------------------

  lemma {:induction false} BatchIsOrderly(cfg: Config, s: State, c: Claimed, w: Work, ceiling: Grants, i: nat, ts: seq<Thread>)
    requires Sound(cfg, s) && c.run < |s.threads| && RunInv(s.threads[c.run]) && i <= |w.completion.calls|
    requires !DispatchAll(cfg, s, c, w, ceiling, i).Aborted?
    ensures Orderly(s.approvals, DispatchAll(cfg, s, c, w, ceiling, i).state.approvals, ts)
    decreases |w.completion.calls| - i
  {
    if i == |w.completion.calls| {
      MovingIsOrderly(s.approvals, s.approvals, ts);
    } else {
      DispatchIsOrderly(cfg, s, CtxAt(c, w, ceiling, i), CallFor(cfg, w, i), ts);
      var d := Dispatch(cfg, s, CtxAt(c, w, ceiling, i), CallFor(cfg, w, i));
      if !d.outcome.Waiting? {
        var s1 := AfterCall(cfg, s, c, w, ceiling, i);
        BatchIsOrderly(cfg, s1, c, w, ceiling, i + 1, ts);
        OrderlyOn(s.approvals, d.state.approvals, DispatchAll(cfg, s1, c, w, ceiling, i + 1).state.approvals, ts);
      }
    }
  }

  lemma RefusedStepAsksNothing(s: State, c: Claimed, w: Work)
    requires c.run < |s.threads|
    ensures RefuseStep(s, c, w).approvals == s.approvals && Planning(s, c, w).approvals == s.approvals
  {
  }

  lemma StepIsOrderly(cfg: Config, s: State, c: Claimed, w: Work)
    requires Always(cfg, s) && Step(cfg, s, c, w).Some?
    ensures Orderly(s.approvals, Step(cfg, s, c, w).value.approvals, s.threads)
  {
    RefusedStepAsksNothing(s, c, w);
    if WithinCap(s.threads[c.run], w.estimate) {
      StepTail(cfg, s, c, w);
      PlanningKeeps(cfg, s, c, w);
      BatchIsOrderly(cfg, Planning(s, c, w), c, w, s.threads[c.run].ceiling, 0, s.threads);
    } else {
      MovingIsOrderly(s.approvals, s.approvals, s.threads);
    }
  }

  lemma CancelIsOrderly(s: State, r: nat, p: Principal)
    requires Cancel(s, r, p).Some?
    ensures var s' := Cancel(s, r, p).value;
            && (AskedOnce(s.approvals, s.threads) ==> AskedOnce(s'.approvals, s'.threads))
            && NotAskedAgain(s.approvals, s'.approvals)
  {
    var rows, rows', ts, ts' := s.approvals, Cancel(s, r, p).value.approvals, s.threads, Cancel(s, r, p).value.threads;
    assert forall a :: 0 <= a < |rows| ==> SameCall(rows[a], rows'[a]);
    if AskedOnce(rows, ts) {
      forall i, j | 0 <= i < |rows| && 0 <= j < |rows| && i != j && SameCall(rows'[i], rows'[j])
                    && (rows'[i].state == Requested || Refused(rows'[i])) && (rows'[j].state == Requested || Refused(rows'[j]))
        ensures Refused(rows'[i]) && Refused(rows'[j])
        ensures rows'[i].run < |ts'| && ts'[rows'[i].run].state == Cancelled
      {
        assert SameCall(rows[i], rows[j]);
      }
    }
  }

  /** A run cancelled stays cancelled, so what holds of the runs as they were holds of them later. */
  lemma AskedOnceLater(rows: seq<Approval>, ts: seq<Thread>, ts': seq<Thread>)
    requires AskedOnce(rows, ts) && RunsGrow(ts, ts')
    ensures AskedOnce(rows, ts')
  {
    assert forall r :: 0 <= r < |ts| ==> RunLater(ts[r], ts'[r]);
  }

  lemma SettlingMoves(s: State, a: nat, answered: Approval)
    requires a < |s.approvals| && s.approvals[a].state == Requested && answered.state != Requested
    requires SameCall(answered, s.approvals[a]) && Settle(s, a, answered).Some?
    ensures Moves(s.approvals, Settle(s, a, answered).value.approvals)
  {
  }

  lemma ApplyAsksOnce(cfg: Config, s: State, x: Txn)
    requires Always(cfg, s) && Apply(cfg, s, x).Some?
    ensures var s' := Apply(cfg, s, x).value;
            && (AskedOnce(s.approvals, s.threads) ==> AskedOnce(s'.approvals, s'.threads))
            && NotAskedAgain(s.approvals, s'.approvals)
  {
    ApplyKeeps(cfg, s, x);
    var s' := Apply(cfg, s, x).value;
    match x
    case CancelRun(r, p) => CancelIsOrderly(s, r, p);
    case _ =>
      OtherIsOrderly(cfg, s, x);
      if AskedOnce(s.approvals, s.threads) { AskedOnceLater(s'.approvals, s.threads, s'.threads); }
  }

  lemma OtherIsOrderly(cfg: Config, s: State, x: Txn)
    requires Always(cfg, s) && Apply(cfg, s, x).Some? && !x.CancelRun?
    ensures Orderly(s.approvals, Apply(cfg, s, x).value.approvals, s.threads)
  {
    ApplyKeeps(cfg, s, x);
    match x
    case WorkStep(c, w) => StepIsOrderly(cfg, s, c, w);
    case CallOperation(p, call, now) => DispatchIsOrderly(cfg, s, Ctx(p, None, None, now), call, s.threads);
    case ExpireApproval(a, when) =>
      if s.approvals[a].state == Requested {
        SettlingMoves(s, a, s.approvals[a].(state := Expired, reason := Some(EXPIRED)));
      }
      MovingIsOrderly(s.approvals, Apply(cfg, s, x).value.approvals, s.threads);
    case _ => MovingIsOrderly(s.approvals, s.approvals, s.threads);
  }

  // ---- histories ----------------------------------------------------------------------------

  lemma {:induction false} HistoryAsksOnce(cfg: Config, s: State, h: seq<Txn>)
    requires Always(cfg, s) && AskedOnce(s.approvals, s.threads) && Exec(cfg, s, h).Some?
    ensures AskedOnce(Exec(cfg, s, h).value.approvals, Exec(cfg, s, h).value.threads)
    ensures NotAskedAgain(s.approvals, Exec(cfg, s, h).value.approvals)
  {
    if h != [] {
      var n := |h| - 1;
      var before, last := Exec(cfg, s, h[..n]).value, Exec(cfg, s, h).value;
      HistoryAsksOnce(cfg, s, h[..n]);
      HistoryKeeps(cfg, s, h[..n]);
      ApplyKeeps(cfg, before, h[n]);
      ApplyAsksOnce(cfg, before, h[n]);
      StillNotAsked(s.approvals, before.approvals, last.approvals);
    }
  }

  lemma StillNotAsked(a: seq<Approval>, b: seq<Approval>, c: seq<Approval>)
    requires NotAskedAgain(a, b) && NotAskedAgain(b, c) && ApprovalsGrow(a, b) && ApprovalsGrow(b, c)
    ensures NotAskedAgain(a, c)
  {
    forall i, j | 0 <= i < |a| && Refused(a[i]) && |a| <= j < |c| ensures !SameCall(a[i], c[j]) {
      assert Later(a[i], b[i]);
      if j < |b| { assert Later(b[j], c[j]) && !SameCall(a[i], b[j]); }
    }
  }

  /** In every state any history reaches, a call of a step stands on at most one question, unless its run was
      cancelled: which of several rows a lookup finds is a question that does not arise. */
  lemma OneQuestionStands(cfg: Config, data: Data, grants: map<Principal, Grants>, h: seq<Txn>, a: nat, b: nat)
    requires Exec(cfg, Initial(data, grants), h).Some?
    requires var rows := Exec(cfg, Initial(data, grants), h).value.approvals;
             && a < |rows| && b < |rows| && SameCall(rows[a], rows[b])
             && (rows[a].state == Requested || Refused(rows[a])) && (rows[b].state == Requested || Refused(rows[b]))
    ensures var s := Exec(cfg, Initial(data, grants), h).value;
            a == b || (s.approvals[a].run < |s.threads| && s.threads[s.approvals[a].run].state == Cancelled
                       && Refused(s.approvals[a]) && Refused(s.approvals[b]))
  {
    InitialIsAlways(cfg, data, grants);
    HistoryAsksOnce(cfg, Initial(data, grants), h);
  }

  /** A question that was rejected, expired or withdrawn stays so, whatever follows: no action ever names it,
      nothing is asked about its call again, and no question about its call is open to an answer, so the
      step that asked it never parks on that call again. */
  lemma RefusalIsFinal(cfg: Config, s: State, h: seq<Txn>, a: nat)
    requires Always(cfg, s) && AskedOnce(s.approvals, s.threads) && Exec(cfg, s, h).Some?
    requires a < |s.approvals| && Refused(s.approvals[a])
    ensures var s' := Exec(cfg, s, h).value;
            && a < |s'.approvals| && s'.approvals[a] == s.approvals[a]
            && (forall i :: 0 <= i < |s'.ledger.actions| ==> s'.ledger.actions[i].approval != Some(a))
            && (forall b :: |s.approvals| <= b < |s'.approvals| ==> !SameCall(s'.approvals[b], s.approvals[a]))
            && (forall b :: 0 <= b < |s'.approvals| && SameCall(s'.approvals[b], s.approvals[a]) ==> s'.approvals[b].state != Requested)
  {
    HistoryAsksOnce(cfg, s, h);
    HistoryKeeps(cfg, s, h);
    var s' := Exec(cfg, s, h).value;
    assert Later(s.approvals[a], s'.approvals[a]);
    forall i | 0 <= i < |s'.ledger.actions| ensures s'.ledger.actions[i].approval != Some(a) {
      assert ActionLicensed(s'.ledger, s'.approvals, i);
    }
  }

  /** The call that was refused, made again from the same step: it is told a refusal of its own, with its
      state and reason, and the plane keeps its approvals as they are. */
  lemma RefusedCallIsTold(cfg: Config, s: State, ctx: Ctx, call: Call, a: nat)
    requires AskedOnce(s.approvals, s.threads) && ctx.at.Some?
    requires call.op in cfg.registry && MustAsk(cfg, s, ctx, call) && StoredAction(s.ledger, ReservationFor(ctx, call)) == None
    requires a < |s.approvals| && Refused(s.approvals[a])
    requires s.approvals[a].run == ctx.at.value.run && s.approvals[a].step == ctx.at.value.step && s.approvals[a].call == call.id
    ensures var d := Dispatch(cfg, s, ctx, call);
            && DeniedFor(d, "approval_unavailable") && d.state.approvals == s.approvals
            && exists b :: 0 <= b < |s.approvals| && SameCall(s.approvals[b], s.approvals[a]) && Refused(s.approvals[b])
                           && d.outcome.detail == Answered(s.approvals[b].state, s.approvals[b].reason)
    ensures ctx.at.value.run < |s.threads| && s.threads[ctx.at.value.run].state != Cancelled ==>
              Dispatch(cfg, s, ctx, call).outcome.detail == Answered(s.approvals[a].state, s.approvals[a].reason)
  {
    var place := ctx.at.value;
    UnpaidCallAsks(cfg, s, ctx, call);
    FirstOfThem(s.approvals, place, call.id);
    assert Stands(s.approvals[a], place, call.id);
    var k :| FirstStands(s.approvals, place, call.id, k);
    assert SameCall(s.approvals[k], s.approvals[a]) && Stands(s.approvals[k], place, call.id);
    if k != a { assert Refused(s.approvals[k]); }
  }

  // ---- cancelling ---------------------------------------------------------------------------

  /** What a cancel does: the run is over and unqueued; every question or open approval of it is withdrawn,
      and no other row moves; and the journal gains one note. There is nothing to cancel only where there is
      no run. */
  lemma CancelWithdraws(s: State, r: nat, p: Principal)
    ensures Cancel(s, r, p).Some? <==> r < |s.threads|
    ensures r < |s.threads| ==>
              var s' := Cancel(s, r, p).value;
              && s'.data == s.data && s'.grants == s.grants
              && s'.threads == s.threads[r := s.threads[r].(state := Cancelled, queue := map[])]
              && |s'.approvals| == |s.approvals|
              && (forall a :: 0 <= a < |s.approvals| ==>
                    s'.approvals[a] == if s.approvals[a].run == r && (s.approvals[a].state == Requested || s.approvals[a].state == Open)
                                       then s.approvals[a].(state := Expired) else s.approvals[a])
              && s'.ledger == s.ledger.(events := s.ledger.events
                   + [Event(RunJournal, Aggregate("run", OfRun(r)), 0, Some(r), None, p, None, CancelledNote, None)])
  {
  }

  /** Nothing a cancelled run was waiting for is ever answered or spent: each of its rows that stood when it
      was cancelled stays as the cancel left it, deciding it changes nothing, and no action names it that did
      not before. */
  lemma WithdrawnForGood(cfg: Config, s: State, r: nat, p: Principal, h: seq<Txn>, a: nat)
    requires Always(cfg, s) && r < |s.threads| && a < |s.approvals| && s.approvals[a].run == r
    requires Cancel(s, r, p).Some? && Exec(cfg, Cancel(s, r, p).value, h).Some?
    ensures var s', row := Exec(cfg, Cancel(s, r, p).value, h).value, s.approvals[a];
            && a < |s'.approvals|
            && s'.approvals[a] == (if row.state == Requested || row.state == Open then row.(state := Expired) else row)
            && (forall who, approve, reason ::
                  DecideApproval(s', who, Decision(a, approve, reason)) == Some((s', Decided(false, Some(s'.approvals[a].state), false))))
            && (forall i :: |s.ledger.actions| <= i < |s'.ledger.actions| ==> s'.ledger.actions[i].approval != Some(a))
  {
    CancelWithdraws(s, r, p);
    CancelKeeps(cfg, s, r, p);
    var s1, s' := Cancel(s, r, p).value, Exec(cfg, Cancel(s, r, p).value, h).value;
    HistoryKeeps(cfg, s1, h);
    assert Later(s1.approvals[a], s'.approvals[a]);
    forall i | |s.ledger.actions| <= i < |s'.ledger.actions| ensures s'.ledger.actions[i].approval != Some(a) {
      assert ActionLicensed(s'.ledger, s'.approvals, i) && SpenderKnown(s.ledger, s.approvals[a]);
    }
  }
}
