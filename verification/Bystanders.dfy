/** What everyone else's transactions leave alone of one run: its checkpoints and usage, the keys of its
    calls, and the answers its calls were given. */
module Bystanders {
  import opened Tables
  import opened Ledgers
  import opened Approvals
  import opened Runs
  import opened Dispatching
  import opened Working
  import opened Histories
  import opened RunLaws
  import opened DispatchTheorems
  import opened Lifecycle
  import opened Budgets
  import opened Guarantees

  /** No key of run `r` names another action than it did, or none. */
  ghost predicate KeysLeft(l: Ledger, l': Ledger, r: nat) {
    forall k: Reservation :: k.key.run == Some(r) ==> StoredAction(l', k) == StoredAction(l, k)
  }

  /** Run `r` was asked nothing new, and what was granted to its calls is still open or was spent. */
  ghost predicate RowsLeft(rows: seq<Approval>, rows': seq<Approval>, r: nat) {
    && |rows| <= |rows'|
    && (forall b :: |rows| <= b < |rows'| ==> rows'[b].run != r)
    && (forall b :: 0 <= b < |rows| ==> rows'[b].run == rows[b].run)
    && (forall b :: 0 <= b < |rows| && rows[b].run == r && rows[b].state in {Open, Consumed} ==>
          rows'[b].state in {Open, Consumed})
  }

  ghost predicate Elsewhere(s: State, s': State, r: nat) {
    KeysLeft(s.ledger, s'.ledger, r) && RowsLeft(s.approvals, s'.approvals, r)
  }

  lemma ElsewhereOn(a: State, b: State, c: State, r: nat)
    requires Elsewhere(a, b, r) && Elsewhere(b, c, r)
    ensures Elsewhere(a, c, r)
  {
    forall k: Reservation | k.key.run == Some(r) ensures StoredAction(c.ledger, k) == StoredAction(a.ledger, k) {
      assert StoredAction(b.ledger, k) == StoredAction(a.ledger, k);
    }
    forall i | |a.approvals| <= i < |c.approvals| ensures c.approvals[i].run != r {
      if i < |b.approvals| { assert b.approvals[i].run != r; }
    }
  }

  // ---- one dispatch -------------------------------------------------------------------------

  lemma SpendingLeavesRows(rows: seq<Approval>, c: Consume, r: nat)
    ensures RowsLeft(rows, ConsumeAll(rows, c), r)
  {
  }

  lemma BodyElsewhere(cfg: Config, s: State, ctx: Ctx, op: Operation, args: Json, r: nat)
    requires RunBody(cfg, s, ctx, op, args).Some?
    ensures var s' := RunBody(cfg, s, ctx, op, args).value.0;
            s'.ledger == s.ledger && RowsLeft(s.approvals, s'.approvals, r)
  {
  }

  lemma AdmittedElsewhere(cfg: Config, s: State, ctx: Ctx, call: Call, i: Option<nat>, result: Result, r: nat)
    requires call.op in cfg.registry && StoredAction(s.ledger, ReservationFor(ctx, call)) == None && RunOf(ctx) != Some(r)
    requires Admit(cfg, s, ctx, call).Ran? && Admit(cfg, s, ctx, call).outcome == Committed(i, result)
    ensures Elsewhere(s, Admit(cfg, s, ctx, call).state, r)
  {
    AdmittedFrom(cfg, s, ctx, call);
    var op, from, s' := cfg.registry[call.op], BodyFrom(cfg, s, ctx, call), Admit(cfg, s, ctx, call).state;
    BodyElsewhere(cfg, from, ctx, op, call.args, r);
    SpendingLeavesRows(s.approvals, ConsumeFor(ctx, call, op, if op.mode == Read then None else Some(|s.ledger.actions|)), r);
    RowsLeftOn(s.approvals, from.approvals, s'.approvals, r);
    AdmittedKeys(cfg, s, ctx, call, i, result, r);
  }

  lemma RowsLeftOn(a: seq<Approval>, b: seq<Approval>, c: seq<Approval>, r: nat)
    requires RowsLeft(a, b, r) && RowsLeft(b, c, r)
    ensures RowsLeft(a, c, r)
  {
    forall i | |a| <= i < |c| ensures c[i].run != r {
      if i < |b| { assert b[i].run != r; }
    }
  }

  lemma AdmittedKeys(cfg: Config, s: State, ctx: Ctx, call: Call, i: Option<nat>, result: Result, r: nat)
    requires call.op in cfg.registry && StoredAction(s.ledger, ReservationFor(ctx, call)) == None && RunOf(ctx) != Some(r)
    requires Admit(cfg, s, ctx, call).Ran? && Admit(cfg, s, ctx, call).outcome == Committed(i, result)
    ensures KeysLeft(s.ledger, Admit(cfg, s, ctx, call).state.ledger, r)
  {
    if i.Some? {
      AdmitCommitted(cfg, s, ctx, call, i.value, result);
    } else {
      AdmitRead(cfg, s, ctx, call, result);
      var op := cfg.registry[call.op];
      BodyElsewhere(cfg, ReadFrom(s, ctx, call, op, EffectiveLevel(s, ctx, call.op).value), ctx, op, call.args, r);
    }
  }

  lemma CommitElsewhere(cfg: Config, s: State, ctx: Ctx, call: Call, r: nat)
    requires RunOf(ctx) != Some(r)
    ensures var d := Dispatch(cfg, s, ctx, call);
            d.Ran? && d.outcome.Committed? ==> Elsewhere(s, d.state, r)
  {
    var d := Dispatch(cfg, s, ctx, call);
    if d.Ran? && d.outcome.Committed? {
      var reserved := Reserve(s, ReservationFor(ctx, call));
      assert d == Admit(cfg, reserved, ctx, call);
      AdmittedElsewhere(cfg, reserved, ctx, call, d.outcome.action, d.outcome.result, r);
      assert Elsewhere(s, reserved, r);
      ElsewhereOn(s, reserved, d.state, r);
    }
  }

  lemma DenialElsewhere(cfg: Config, s: State, ctx: Ctx, call: Call, r: nat)
    requires RunOf(ctx) != Some(r)
    ensures var d := Dispatch(cfg, s, ctx, call);
            d.Ran? && d.outcome.Denied? ==> Elsewhere(s, d.state, r)
  {
    var d := Dispatch(cfg, s, ctx, call);
    if d.Ran? && d.outcome.Denied? { RefusalFrame(cfg, s, ctx, call); }
  }

  lemma ParkElsewhere(cfg: Config, s: State, ctx: Ctx, call: Call, r: nat)
    requires RunOf(ctx) != Some(r)
    ensures var d := Dispatch(cfg, s, ctx, call);
            d.Ran? && d.outcome.Waiting? ==> Elsewhere(s, d.state, r)
  {
    var d := Dispatch(cfg, s, ctx, call);
    if d.Ran? && d.outcome.Waiting? {
      WaitingFrame(cfg, s, ctx, call);
      AskingElsewhere(s, d.state, d.outcome.approval, ReservationFor(ctx, call), r);
    }
  }

  lemma AskingElsewhere(s: State, s': State, a: nat, k: Reservation, r: nat)
    requires s'.ledger == s.ledger.(keys := s.ledger.keys[k := None]) && k.key.run != Some(r)
    requires s'.approvals == s.approvals
             || (a == |s.approvals| && |s'.approvals| == a + 1 && s.approvals <= s'.approvals && s'.approvals[a].run != r)
    ensures Elsewhere(s, s', r)
  {
  }

  /** A call from elsewhere touches no key and no answer of the run. */
  lemma DispatchElsewhere(cfg: Config, s: State, ctx: Ctx, call: Call, r: nat)
    requires RunOf(ctx) != Some(r) && Dispatch(cfg, s, ctx, call).Ran?
    ensures Elsewhere(s, Dispatch(cfg, s, ctx, call).state, r)
  {
    CommitElsewhere(cfg, s, ctx, call, r);
    DenialElsewhere(cfg, s, ctx, call, r);
    ParkElsewhere(cfg, s, ctx, call, r);
    ReplayIsSilent(cfg, s, ctx, call);
  }

  // ---- another run's step -------------------------------------------------------------------

  lemma {:induction false} BatchElsewhere(cfg: Config, s: State, c: Claimed, w: Work, ceiling: Grants, i: nat, r: nat)
    requires i <= |w.completion.calls| && c.run != r && !DispatchAll(cfg, s, c, w, ceiling, i).Aborted?
    ensures Elsewhere(s, DispatchAll(cfg, s, c, w, ceiling, i).state, r)
    decreases |w.completion.calls| - i
  {
    if i < |w.completion.calls| {
      var p := w.completion.calls[i];
      var d := Dispatch(cfg, s, CtxAt(c, w, ceiling, i), CallFor(cfg, w, i));
      DispatchElsewhere(cfg, s, CtxAt(c, w, ceiling, i), CallFor(cfg, w, i), r);
      if !d.outcome.Waiting? {
        NoticeMovesNoLedger(d.state, c.run, w.principal, w.notice(i), p.id, d.outcome);
        var a := ResultOf(d.state, c.run, w.principal, w.notice(i), p.id, d.outcome).value;
        BatchElsewhere(cfg, a.state, c, w, ceiling, i + 1, r);
        SameTables(s, d.state, a.state, r);
        ElsewhereOn(s, a.state, DispatchAll(cfg, a.state, c, w, ceiling, i + 1).state, r);
      }
    }
  }

  lemma SameTables(s: State, s1: State, s2: State, r: nat)
    requires Elsewhere(s, s1, r) && s2.ledger == s1.ledger && s2.approvals == s1.approvals
    ensures Elsewhere(s, s2, r)
  {
  }

  lemma RefusedElsewhere(s: State, c: Claimed, w: Work, r: nat)
    requires c.run < |s.threads|
    ensures Elsewhere(s, RefuseStep(s, c, w), r) && Elsewhere(s, Planning(s, c, w), r)
  {
  }

  lemma TailElsewhere(b: Batch, s: State, s': State, r: nat)
    requires TailQuiet(b, s') && Elsewhere(s, b.state, r)
    ensures Elsewhere(s, s', r)
  {
    forall k: Reservation | k.key.run == Some(r) ensures StoredAction(s'.ledger, k) == StoredAction(s.ledger, k) {
      assert StoredAction(b.state.ledger, k) == StoredAction(s.ledger, k);
    }
  }

  lemma StepElsewhere(cfg: Config, s: State, c: Claimed, w: Work, r: nat)
    requires c.run != r && Step(cfg, s, c, w).Some?
    ensures Elsewhere(s, Step(cfg, s, c, w).value, r)
  {
    RefusedElsewhere(s, c, w, r);
    if WithinCap(s.threads[c.run], w.estimate) {
      StepTail(cfg, s, c, w);
      BatchElsewhere(cfg, Planning(s, c, w), c, w, s.threads[c.run].ceiling, 0, r);
      var b := DispatchAll(cfg, Planning(s, c, w), c, w, s.threads[c.run].ceiling, 0);
      ElsewhereOn(s, Planning(s, c, w), b.state, r);
      TailElsewhere(b, s, Step(cfg, s, c, w).value, r);
    }
  }

  // ---- everyone else ------------------------------------------------------------------------

  /** The transaction neither works run `r` nor cancels it. */
  predicate LeavesAlone(x: Txn, r: nat) {
    && !(x.WorkStep? && x.claim.run == r)
    && !(x.CancelRun? && x.which == r)
  }

  lemma SettleElsewhere(s: State, a: nat, answered: Approval, r: nat)
    requires a < |s.approvals| && s.approvals[a].state == Requested && answered.run == s.approvals[a].run
    requires Settle(s, a, answered).Some?
    ensures Elsewhere(s, Settle(s, a, answered).value, r)
  {
  }

  lemma ApplyElsewhere(cfg: Config, s: State, x: Txn, r: nat)
    requires Apply(cfg, s, x).Some? && LeavesAlone(x, r)
    ensures Elsewhere(s, Apply(cfg, s, x).value, r)
  {
    match x
    case WorkStep(c, w) => StepElsewhere(cfg, s, c, w, r);
    case CallOperation(p, call, now) => DispatchElsewhere(cfg, s, Ctx(p, None, None, now), call, r);
    case ExpireApproval(a, when) =>
      if s.approvals[a].state == Requested {
        SettleElsewhere(s, a, s.approvals[a].(state := Expired, reason := Some(EXPIRED)), r);
      }
    case _ =>
  }

  /** Nobody in the history works run `r`. */
  ghost predicate Unworked(h: seq<Txn>, r: nat) {
    forall k :: 0 <= k < |h| ==> !(h[k].WorkStep? && h[k].claim.run == r)
  }

  lemma CancelSticks(cfg: Config, s: State, x: Txn, r: nat)
    requires Apply(cfg, s, x).Some? && r < |s.threads| && x.CancelRun? && x.which == r
    ensures r < |Apply(cfg, s, x).value.threads| && Apply(cfg, s, x).value.threads[r].state == Cancelled
  {
  }

  lemma NotCancelled(cfg: Config, s: State, x: Txn, r: nat)
    requires Always(cfg, s) && Apply(cfg, s, x).Some? && r < |s.threads| && !(x.WorkStep? && x.claim.run == r)
    requires r < |Apply(cfg, s, x).value.threads| && Apply(cfg, s, x).value.threads[r].state != Cancelled
    ensures LeavesAlone(x, r)
  {
    if x.CancelRun? && x.which == r { CancelSticks(cfg, s, x, r); }
  }

  /** Whatever else happens on the plane, a run nobody works or cancels keeps its checkpoints and usage,
      the keys of its calls and the answers they were given, and is asked nothing new. */
  lemma {:induction false} HistoryLeavesRun(cfg: Config, s: State, h: seq<Txn>, r: nat)
    requires Always(cfg, s) && Exec(cfg, s, h).Some? && Unworked(h, r) && r < |s.threads|
    requires r < |Exec(cfg, s, h).value.threads| && Exec(cfg, s, h).value.threads[r].state != Cancelled
    ensures Elsewhere(s, Exec(cfg, s, h).value, r)
    ensures SameCalls(s.threads[r], Exec(cfg, s, h).value.threads[r])
  {
    if h != [] {
      var n := |h| - 1;
      var before, last := Exec(cfg, s, h[..n]).value, Exec(cfg, s, h).value;
      HistoryKeeps(cfg, s, h[..n]);
      ApplyKeeps(cfg, before, h[n]);
      assert RunLater(before.threads[r], last.threads[r]);
      HistoryLeavesRun(cfg, s, h[..n], r);
      NotCancelled(cfg, before, h[n], r);
      ApplyElsewhere(cfg, before, h[n], r);
      OnlyStepsAnswer(cfg, before, h[n], r);
      ElsewhereOn(s, before, last, r);
    }
  }
}
