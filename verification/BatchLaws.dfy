/** What dispatching a step's whole plan keeps. */
module BatchLaws {
  import opened Tables
  import opened Ledgers
  import opened Approvals
  import opened Runs
  import opened Dispatching
  import opened Working
  import opened RunLaws
  import opened DispatchLaws
  import opened DispatchTheorems

  // ---- questions ----------------------------------------------------------------------------

  /** No question was asked, answered or withdrawn. */
  ghost predicate SameQuestions(rows: seq<Approval>, rows': seq<Approval>) {
    && |rows'| == |rows|
    && forall a :: 0 <= a < |rows| ==> (rows'[a].state == Requested <==> rows[a].state == Requested)
  }

  /** Row `a` is the one question standing at this step that was not standing before, if any. */
  ghost predicate OneMoreQuestion(rows: seq<Approval>, rows': seq<Approval>, a: nat, run: nat, step: nat) {
    && |rows| <= |rows'| <= |rows| + 1
    && a < |rows'| && rows'[a].state == Requested && rows'[a].run == run && rows'[a].step == step
    && (|rows'| == |rows| + 1 ==> a == |rows|)
    && forall b :: 0 <= b < |rows| ==> (rows'[b].state == Requested <==> rows[b].state == Requested)
  }

  lemma DispatchQuestions(cfg: Config, s: State, ctx: Ctx, call: Call)
    requires ctx.at.Some? && Dispatch(cfg, s, ctx, call).Ran?
    ensures var Ran(s', o) := Dispatch(cfg, s, ctx, call);
            if o.Waiting?
            then OneMoreQuestion(s.approvals, s'.approvals, o.approval, ctx.at.value.run, ctx.at.value.step)
            else SameQuestions(s.approvals, s'.approvals)
  {
    WaitingQuestions(cfg, s, ctx, call);
    DeniedQuestions(cfg, s, ctx, call);
    AnsweredQuestions(cfg, s, ctx, call);
    ReplayIsSilent(cfg, s, ctx, call);
  }

  lemma WaitingQuestions(cfg: Config, s: State, ctx: Ctx, call: Call)
    requires ctx.at.Some?
    ensures var d := Dispatch(cfg, s, ctx, call);
            d.Ran? && d.outcome.Waiting? ==>
              OneMoreQuestion(s.approvals, d.state.approvals, d.outcome.approval, ctx.at.value.run, ctx.at.value.step)
  {
    var d := Dispatch(cfg, s, ctx, call);
    if d.Ran? && d.outcome.Waiting? { WaitingFrame(cfg, s, ctx, call); }
  }

  lemma DeniedQuestions(cfg: Config, s: State, ctx: Ctx, call: Call)
    ensures var d := Dispatch(cfg, s, ctx, call);
            d.Ran? && d.outcome.Denied? ==> d.state.approvals == s.approvals && d.state.threads == s.threads
  {
    var d := Dispatch(cfg, s, ctx, call);
    if d.Ran? && d.outcome.Denied? { RefusalFrame(cfg, s, ctx, call); }
  }

  lemma AnsweredQuestions(cfg: Config, s: State, ctx: Ctx, call: Call)
    requires ctx.at.Some?
    ensures var d := Dispatch(cfg, s, ctx, call);
            d.Ran? && d.outcome.Committed? ==> SameQuestions(s.approvals, d.state.approvals)
  {
    var d := Dispatch(cfg, s, ctx, call);
    if d.Ran? && d.outcome.Committed? {
      var reserved := Reserve(s, ReservationFor(ctx, call));
      assert d == Admit(cfg, reserved, ctx, call);
      CommittedQuestions(cfg, reserved, ctx, call, d.outcome.action, d.outcome.result);
    }
  }

  lemma CommittedQuestions(cfg: Config, s: State, ctx: Ctx, call: Call, i: Option<nat>, result: Result)
    requires ctx.at.Some? && call.op in cfg.registry && StoredAction(s.ledger, ReservationFor(ctx, call)) == None
    requires Admit(cfg, s, ctx, call).Ran? && Admit(cfg, s, ctx, call).outcome == Committed(i, result)
    ensures SameQuestions(s.approvals, Admit(cfg, s, ctx, call).state.approvals)
  {
    if i.Some? {
      AdmitCommitted(cfg, s, ctx, call, i.value, result);
    } else {
      AdmitRead(cfg, s, ctx, call, result);
    }
  }

  // ---- notices ------------------------------------------------------------------------------

  /** A step's notices only ever land on a thread that is not `done`, so they move nothing else. */
  ghost predicate Noticed(t: Thread, t': Thread) {
    t.mailbox <= t'.mailbox && t' == t.(mailbox := t'.mailbox) && (t.state in {Cancelled, Failed} ==> t' == t)
  }

  /** Every run but the step's own stands, and that one only gains notices (which wake it if it had
      finished meanwhile). */
  ghost predicate OnlyNotices(ts: seq<Thread>, ts': seq<Thread>, r: nat)
    requires r < |ts|
  {
    && |ts'| == |ts|
    && RunInv(ts'[r]) && RunLater(ts[r], ts'[r]) && ts'[r].checkpoints == ts[r].checkpoints
    && (ts[r].state != Done ==> Noticed(ts[r], ts'[r]))
    && forall q :: 0 <= q < |ts| && q != r ==> ts'[q] == ts[q]
  }

  // ---- the plan -----------------------------------------------------------------------------

  ghost predicate Kept(cfg: Config, s: State, s': State) {
    && Sound(cfg, s') && LedgerGrows(s.ledger, s'.ledger) && ApprovalsGrow(s.approvals, s'.approvals)
  }

  lemma KeptOn(cfg: Config, a: State, b: State, c: State)
    requires Kept(cfg, a, b) && Kept(cfg, b, c)
    ensures Kept(cfg, a, c)
  {
    LedgerGrowsOn(a.ledger, b.ledger, c.ledger);
    ApprovalsGrowOn(a.approvals, b.approvals, c.approvals);
  }

  lemma RunsStand(cfg: Config, s: State, ctx: Ctx, call: Call)
    requires ctx.at.Some? && Dispatch(cfg, s, ctx, call).Ran?
    ensures Dispatch(cfg, s, ctx, call).state.threads == s.threads
    ensures Dispatch(cfg, s, ctx, call).state.grants == s.grants
  {
    InRunIgnoresRuns(cfg, s, ctx, call, s.threads);
    GrantsStand(cfg, s, ctx, call);
    assert s.(threads := s.threads) == s;
  }

  /** The state after one call of the plan and its notice. */
  lemma CallKeeps(cfg: Config, s: State, c: Claimed, w: Work, ceiling: Grants, i: nat)
    requires Sound(cfg, s) && c.run < |s.threads| && RunInv(s.threads[c.run]) && i < |w.completion.calls|
    requires var p := w.completion.calls[i];
             var d := Dispatch(cfg, s, CtxAt(c, w, ceiling, i), CallFor(cfg, w, i));
             d.Ran? && !d.outcome.Waiting? && ResultOf(d.state, c.run, w.principal, w.notice(i), p.id, d.outcome).Some?
    ensures var p := w.completion.calls[i];
            var d := Dispatch(cfg, s, CtxAt(c, w, ceiling, i), CallFor(cfg, w, i));
            var a := ResultOf(d.state, c.run, w.principal, w.notice(i), p.id, d.outcome).value;
            && Kept(cfg, s, a.state) && SameQuestions(s.approvals, a.state.approvals)
            && OnlyNotices(s.threads, a.state.threads, c.run) && a.state.grants == s.grants
  {
    var p := w.completion.calls[i];
    var ctx, call := CtxAt(c, w, ceiling, i), CallFor(cfg, w, i);
    var d := Dispatch(cfg, s, ctx, call);
    DispatchKeepsSound(cfg, s, ctx, call);
    DispatchQuestions(cfg, s, ctx, call);
    RunsStand(cfg, s, ctx, call);
    NoticeKeeps(cfg, s, d.state, c.run, w.principal, w.notice(i), p.id, d.outcome);
  }

  lemma NoticeKeeps(cfg: Config, s: State, s1: State, r: nat, author: Principal, notice: Json, id: string, o: Outcome)
    requires !o.Waiting? && ResultOf(s1, r, author, notice, id, o).Some?
    requires r < |s1.threads| && RunInv(s1.threads[r]) && Sound(cfg, s1)
    ensures var s2 := ResultOf(s1, r, author, notice, id, o).value.state;
            && s2 == s1.(threads := s2.threads) && Sound(cfg, s2)
            && OnlyNotices(s1.threads, s2.threads, r)
  {
    if Post(s1.threads[r], Conflict, notice, author).Posted? {
      PostKeeps(s1.threads[r], Conflict, notice, author);
    }
  }

  lemma NoticesOn(a: seq<Thread>, b: seq<Thread>, c: seq<Thread>, r: nat)
    requires r < |a| && OnlyNotices(a, b, r) && OnlyNotices(b, c, r)
    ensures OnlyNotices(a, c, r)
  {
    assert RunLater(a[r], b[r]) && RunLater(b[r], c[r]);
  }

  /** What the rest of a plan keeps, `n` calls from its end. */
  ghost predicate BatchKept(cfg: Config, s: State, c: Claimed, n: int, b: Batch)
    requires c.run < |s.threads| && !b.Aborted?
  {
    && Kept(cfg, s, b.state)
    && OnlyNotices(s.threads, b.state.threads, c.run) && b.state.grants == s.grants
    && (b.Finished? ==> SameQuestions(s.approvals, b.state.approvals) && |b.results| == n)
    && (b.ParkedAt? ==> OneMoreQuestion(s.approvals, b.state.approvals, b.approval, c.run, c.step))
  }

  lemma ParkingKept(cfg: Config, s: State, c: Claimed, w: Work, ceiling: Grants, i: nat)
    requires Sound(cfg, s) && c.run < |s.threads| && RunInv(s.threads[c.run]) && i < |w.completion.calls|
    requires var d := Dispatch(cfg, s, CtxAt(c, w, ceiling, i), CallFor(cfg, w, i));
             d.Ran? && d.outcome.Waiting?
    ensures BatchKept(cfg, s, c, |w.completion.calls| - i, DispatchAll(cfg, s, c, w, ceiling, i))
  {
    var p := w.completion.calls[i];
    DispatchKeepsSound(cfg, s, CtxAt(c, w, ceiling, i), CallFor(cfg, w, i));
    DispatchQuestions(cfg, s, CtxAt(c, w, ceiling, i), CallFor(cfg, w, i));
    RunsStand(cfg, s, CtxAt(c, w, ceiling, i), CallFor(cfg, w, i));
  }

  lemma KeptAfter(cfg: Config, s: State, mid: State, c: Claimed, n: int, result: ToolResult, b: Batch)
    requires c.run < |s.threads| && c.run < |mid.threads| && !b.Aborted?
    requires Kept(cfg, s, mid) && SameQuestions(s.approvals, mid.approvals)
    requires OnlyNotices(s.threads, mid.threads, c.run) && mid.grants == s.grants
    requires BatchKept(cfg, mid, c, n, b)
    ensures BatchKept(cfg, s, c, n + 1, Prepend(result, b))
  {
    KeptOn(cfg, s, mid, b.state);
    NoticesOn(s.threads, mid.threads, b.state.threads, c.run);
  }

  lemma {:induction false} BatchKeeps(cfg: Config, s: State, c: Claimed, w: Work, ceiling: Grants, i: nat)
    requires Sound(cfg, s) && c.run < |s.threads| && RunInv(s.threads[c.run]) && i <= |w.completion.calls|
    requires !DispatchAll(cfg, s, c, w, ceiling, i).Aborted?
    ensures BatchKept(cfg, s, c, |w.completion.calls| - i, DispatchAll(cfg, s, c, w, ceiling, i))
    decreases |w.completion.calls| - i
  {
    if i < |w.completion.calls| {
      var p := w.completion.calls[i];
      var d := Dispatch(cfg, s, CtxAt(c, w, ceiling, i), CallFor(cfg, w, i));
      if d.outcome.Waiting? {
        ParkingKept(cfg, s, c, w, ceiling, i);
      } else {
        CallKeeps(cfg, s, c, w, ceiling, i);
        var a := ResultOf(d.state, c.run, w.principal, w.notice(i), p.id, d.outcome).value;
        BatchKeeps(cfg, a.state, c, w, ceiling, i + 1);
        KeptAfter(cfg, s, a.state, c, |w.completion.calls| - i - 1, a.result, DispatchAll(cfg, a.state, c, w, ceiling, i + 1));
      }
    }
  }
}
