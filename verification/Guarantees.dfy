/** The guarantees of whole histories: any interleaving of committed transactions, from an empty plane
    or from any plane that already keeps its invariant. */
module Guarantees {
  import opened Tables
  import opened Ledgers
  import opened Approvals
  import opened Runs
  import opened Dispatching
  import opened Working
  import opened Histories
  import opened RunLaws
  import opened DispatchLaws
  import opened DispatchTheorems
  import opened BatchLaws
  import opened Lifecycle
  import opened Leases

  // ---- state and queued work agree ----------------------------------------------------------

  lemma InitialIsLeased(cfg: Config, data: Data, grants: map<Principal, Grants>)
    ensures LeasedInv(cfg, Initial(data, grants))
  {
    InitialIsAlways(cfg, data, grants);
  }

  /** The questions standing for one run. */
  ghost function Questions(rows: seq<Approval>, r: nat): set<nat> {
    set a: nat | a < |rows| && rows[a].run == r && rows[a].state == Requested
  }

  /** State and queued work agree: checkpoints are numbered 1..n; the run is queued or running iff it
      has exactly one queue row, at step n + 1, and otherwise it has none; a finished run has a
      checkpoint. */
  ghost predicate WorkAgrees(t: Thread) {
    var n := |t.checkpoints|;
    && (forall k :: 0 <= k < n ==> t.checkpoints[k].step == k + 1)
    && (t.state in {Queued, Running} <==> t.queue.Keys == {n + 1})
    && (t.state !in {Queued, Running} <==> t.queue == map[])
    && (t.state == Done ==> n >= 1)
  }

  /** A run that is not cancelled waits iff exactly one question stands, about the step after its last
      checkpoint, and otherwise none does. */
  ghost predicate QuestionsAgree(rows: seq<Approval>, t: Thread, r: nat) {
    t.state != Cancelled ==>
      && (t.state == WaitingApproval <==> |Questions(rows, r)| == 1)
      && (t.state != WaitingApproval <==> Questions(rows, r) == {})
      && forall a :: a in Questions(rows, r) ==> rows[a].step == |t.checkpoints| + 1
  }

  /** Every state any interleaving reaches from an empty plane, while leases are honoured. */
  lemma StateAndWorkAgree(cfg: Config, data: Data, grants: map<Principal, Grants>, h: seq<Txn>, r: nat)
    requires Honoured(cfg, Initial(data, grants), h) && Exec(cfg, Initial(data, grants), h).Some?
    requires r < |Exec(cfg, Initial(data, grants), h).value.threads|
    ensures var s := Exec(cfg, Initial(data, grants), h).value;
            WorkAgrees(s.threads[r]) && QuestionsAgree(s.approvals, s.threads[r], r)
  {
    InitialIsLeased(cfg, data, grants);
    HonouredHistoryKeeps(cfg, Initial(data, grants), h);
    InvAgrees(cfg, Exec(cfg, Initial(data, grants), h).value, r);
  }

  lemma InvAgrees(cfg: Config, s: State, r: nat)
    requires LeasedInv(cfg, s) && r < |s.threads|
    ensures WorkAgrees(s.threads[r]) && QuestionsAgree(s.approvals, s.threads[r], r)
  {
    assert Shape(s.threads[r]);
    assert |s.threads[r].checkpoints| + 1 in {|s.threads[r].checkpoints| + 1};
    AgreementCounts(s, r);
  }

  lemma AgreementCounts(s: State, r: nat)
    requires Agreement(s.approvals, s.threads) && r < |s.threads|
    ensures QuestionsAgree(s.approvals, s.threads[r], r)
  {
    var qs := Questions(s.approvals, r);
    if s.threads[r].state != Cancelled {
      assert forall a :: a in qs ==> Asking(s.approvals, s.threads, a);
      if s.threads[r].state == WaitingApproval {
        var a :| Asking(s.approvals, s.threads, a) && s.approvals[a].run == r;
        assert qs == {a};
      } else {
        assert qs == {};
      }
    }
  }

  /** No transaction of an honoured history ever meets a queue row already there: answering, expiring,
      steering and settling a step never fail on the queue's primary key. */
  lemma QueueNeverCollides(cfg: Config, s: State)
    requires LeasedInv(cfg, s)
    ensures forall r, kind, body, p :: 0 <= r < |s.threads| ==> Post(s.threads[r], kind, body, p) != Collided
    ensures forall a, p, d :: 0 <= a < |s.approvals| && s.approvals[a].state == Requested ==>
              Settle(s, a, Runs.Answer(s.approvals[a], d, p)).Some?
    ensures forall a, when :: 0 <= a < |s.approvals| && s.approvals[a].expiresAt <= when ==> Expire(s, a, when).Some?
    ensures forall r, cp: Checkpoint :: 0 <= r < |s.threads| && s.threads[r].state == Running && cp.step in s.threads[r].queue ==>
              Advance(s.threads[r], cp.step, cp).Some?
  {
    forall r, kind, body, p | 0 <= r < |s.threads| ensures Post(s.threads[r], kind, body, p) != Collided {
      assert Shape(s.threads[r]);
      PostKeepsShape(s.threads[r], kind, body, p);
    }
    forall a, p, d | 0 <= a < |s.approvals| && s.approvals[a].state == Requested
      ensures Settle(s, a, Runs.Answer(s.approvals[a], d, p)).Some?
    {
      SettleResumes(s, a, Runs.Answer(s.approvals[a], d, p));
    }
    forall a, when | 0 <= a < |s.approvals| && s.approvals[a].expiresAt <= when ensures Expire(s, a, when).Some? {
      if s.approvals[a].state == Requested {
        SettleResumes(s, a, s.approvals[a].(state := Expired, reason := Some(EXPIRED)));
      }
    }
    forall r, cp: Checkpoint | 0 <= r < |s.threads| && s.threads[r].state == Running && cp.step in s.threads[r].queue
      ensures Advance(s.threads[r], cp.step, cp).Some?
    {
      assert Shape(s.threads[r]) && cp.step in s.threads[r].queue.Keys;
      AdvanceLands(s.threads[r], cp);
    }
  }

  // ---- the end of a run ---------------------------------------------------------------------

  /** Cancelling is final, with no assumption on leases: whatever steps were claimed before, whoever
      decides, expires, posts or reaps afterwards, the run stays cancelled, has no queue row, gains no
      checkpoint and no message, and cannot be claimed. */
  lemma CancelIsFinal(cfg: Config, s: State, h: seq<Txn>, r: nat)
    requires Always(cfg, s) && Exec(cfg, s, h).Some?
    requires r < |s.threads| && s.threads[r].state == Cancelled
    ensures var s' := Exec(cfg, s, h).value;
            && r < |s'.threads|
            && var t, t' := s.threads[r], s'.threads[r];
               && t'.state == Cancelled && t'.queue == map[]
               && t'.checkpoints == t.checkpoints && t'.mailbox == t.mailbox
               && forall step, worker, now :: Claim(s', r, step, worker, now) == None
  {
    HistoryKeeps(cfg, s, h);
    assert RunLater(s.threads[r], Exec(cfg, s, h).value.threads[r]);
    assert RunInv(s.threads[r]) && RunInv(Exec(cfg, s, h).value.threads[r]);
  }

  /** A failed run is only ever cancelled. */
  lemma FailedIsLeftOnlyForCancelled(cfg: Config, s: State, h: seq<Txn>, r: nat)
    requires Always(cfg, s) && Exec(cfg, s, h).Some?
    requires r < |s.threads| && s.threads[r].state == Tables.Failed
    ensures var s' := Exec(cfg, s, h).value;
            && r < |s'.threads| && s'.threads[r].state in {Tables.Failed, Cancelled}
            && s'.threads[r].checkpoints == s.threads[r].checkpoints
            && forall step, worker, now :: Claim(s', r, step, worker, now) == None
  {
    HistoryKeeps(cfg, s, h);
    assert RunLater(s.threads[r], Exec(cfg, s, h).value.threads[r]);
  }

  /** An answer is given once: whatever follows, a request that was answered or expired never asks again,
      and a later decision or expiry of it touches no run and no approval. */
  lemma AnsweredOnce(cfg: Config, s: State, h: seq<Txn>, a: nat)
    requires Always(cfg, s) && Exec(cfg, s, h).Some? && a < |s.approvals| && s.approvals[a].state != Requested
    ensures var s' := Exec(cfg, s, h).value;
            && a < |s'.approvals| && s'.approvals[a].state != Requested
            && (forall p, approve, reason ::
                  DecideApproval(s', p, Decision(a, approve, reason)) == Some((s', Decided(false, Some(s'.approvals[a].state), false))))
            && (forall when :: s'.approvals[a].expiresAt <= when ==> Expire(s', a, when) == Some(s'))
  {
    HistoryKeeps(cfg, s, h);
    assert Later(s.approvals[a], Exec(cfg, s, h).value.approvals[a]);
  }

  /** The ceiling and the cap a run is created with are the ones it keeps, however its originator's grants
      change. */
  lemma CeilingIsFixedAtCreate(cfg: Config, s: State, p: Principal, run: NewRun, h: seq<Txn>)
    requires Always(cfg, s) && Create(s, p, run).Some? && Exec(cfg, Create(s, p, run).value, h).Some?
    ensures var r, s' := |s.threads|, Exec(cfg, Create(s, p, run).value, h).value;
            r < |s'.threads| && s'.threads[r].ceiling == (if p in s.grants then s.grants[p] else map[]) && s'.threads[r].cap == run.cap
  {
    CreateKeeps(cfg, s, p, run);
    HistoryKeeps(cfg, Create(s, p, run).value, h);
    assert RunLater(Create(s, p, run).value.threads[|s.threads|], Exec(cfg, Create(s, p, run).value, h).value.threads[|s.threads|]);
  }

  // ---- exactly once -------------------------------------------------------------------------

  /** The operation, run, step and call id an action was committed for. */
  ghost function CallOf(l: Ledger, i: nat): (string, Option<nat>, Option<nat>, string)
    requires i < |l.actions| && Paired(l)
  {
    assert PairedAction(l, i);
    var r := ReservationOf(l, i);
    (r.op, r.key.run, r.key.step, r.key.call)
  }

  /** Over any history, with no assumption on leases, no call is committed twice, and every action of
      an earlier state is still there with its key still naming it. */
  lemma ExactlyOnce(cfg: Config, s: State, h: seq<Txn>)
    requires Always(cfg, s) && Exec(cfg, s, h).Some?
    ensures var l := Exec(cfg, s, h).value.ledger;
            && LedgerInv(l, cfg.registry.Keys)
            && forall i, j :: 0 <= i < |l.actions| && 0 <= j < |l.actions| && CallOf(l, i) == CallOf(l, j) ==> i == j
    ensures var l, l' := s.ledger, Exec(cfg, s, h).value.ledger;
            && l.actions <= l'.actions && l.events <= l'.events
            && forall i :: 0 <= i < |l.actions| ==>
                 CallOf(l', i) == CallOf(l, i) && StoredAction(l', ReservationOf(l, i)) == Some(i)
  {
    HistoryKeeps(cfg, s, h);
    var l, l' := s.ledger, Exec(cfg, s, h).value.ledger;
    forall i, j | 0 <= i < |l'.actions| && 0 <= j < |l'.actions| && CallOf(l', i) == CallOf(l', j) ensures i == j {
      assert PairedAction(l', i) && PairedAction(l', j);
      OneActionPerReservation(l', cfg.registry.Keys, i, j);
    }
    forall i | 0 <= i < |l.actions|
      ensures CallOf(l', i) == CallOf(l, i) && StoredAction(l', ReservationOf(l, i)) == Some(i)
    {
      assert PairedAction(l, i) && PairedAction(l', i);
      assert StoredAction(l, ReservationOf(l, i)) == Some(i);
    }
  }

  /** No approval is spent by two actions, and an approval once spent, rejected or expired is never
      anything else. */
  lemma ApprovalsSpendOnce(cfg: Config, s: State, h: seq<Txn>)
    requires Always(cfg, s) && Exec(cfg, s, h).Some?
    ensures var l := Exec(cfg, s, h).value.ledger;
            forall i, j :: 0 <= i < |l.actions| && 0 <= j < |l.actions| ==>
              l.actions[i].approval.Some? && l.actions[i].approval == l.actions[j].approval ==> i == j
    ensures var rows := Exec(cfg, s, h).value.approvals;
            |s.approvals| <= |rows|
            && forall a :: 0 <= a < |s.approvals| && s.approvals[a].state in {Consumed, Rejected, Expired} ==>
                 rows[a] == s.approvals[a]
  {
    HistoryKeeps(cfg, s, h);
    var s' := Exec(cfg, s, h).value;
    forall i, j | 0 <= i < |s'.ledger.actions| && 0 <= j < |s'.ledger.actions|
                  && s'.ledger.actions[i].approval.Some? && s'.ledger.actions[i].approval == s'.ledger.actions[j].approval
      ensures i == j
    {
      assert ActionLicensed(s'.ledger, s'.approvals, i) && ActionLicensed(s'.ledger, s'.approvals, j);
    }
    forall a | 0 <= a < |s.approvals| && s.approvals[a].state in {Consumed, Rejected, Expired}
      ensures s'.approvals[a] == s.approvals[a]
    {
      assert Later(s.approvals[a], s'.approvals[a]);
    }
  }

  // ---- authority ----------------------------------------------------------------------------

  /** The clock reading of the very call `op`, `id` of a transaction. */
  ghost predicate ReadsClock(x: Txn, op: string, id: string, now: int) {
    match x
    case WorkStep(_, w) =>
      exists j :: 0 <= j < |w.completion.calls| && w.completion.calls[j].op == op && w.completion.calls[j].id == id
                  && now == w.clock(j)
    case CallOperation(_, call, t) => call.op == op && call.id == id && now == t
    case _ => false
  }

  /** Action `i` was allowed, in the state its transaction started from, by the ceiling its run was
      created with and by its principal's own grants; and if either asks first, it names an approval
      it spent before that expired by the clock of the call itself, opened by a person or the system for the same principal,
      operation version and arguments. */
  ghost predicate AuthorisedIn(cfg: Config, m: State, x: Txn, l: Ledger, rows: seq<Approval>, i: nat)
    requires i < |l.actions| && Paired(l)
  {
    assert PairedAction(l, i);
    var act := l.actions[i];
    var e := l.events[act.event];
    && (e.run.Some? ==> e.run.value < |m.threads|)
    && Allowed(m, e.principal, if e.run.Some? then Some(m.threads[e.run.value].ceiling) else None, e.op.value, act.level)
    && (act.level == AsksFirst <==> act.approval.Some?)
    && e.payload.Committing?
    && (act.approval.Some? ==>
          && act.approval.value < |rows|
          && var a := rows[act.approval.value];
             && a.state == Consumed && a.consumedBy == Some(i)
             && a.grantedTo == e.principal && a.digest == ArgsDigest(act.versionId, e.payload.args)
             && a.grantedBy.Some? && a.grantedBy.value in cfg.classes && cfg.classes[a.grantedBy.value] in {User, System}
             && exists now :: ReadsClock(x, e.op.value, act.key.call, now) && a.expiresAt > now)
  }

  /** What of that a dispatch settles, before later states are known. */
  ghost predicate AdmittedIn(m: State, x: Txn, l: Ledger, rows: seq<Approval>, i: nat)
    requires i < |l.actions| && Paired(l)
  {
    assert PairedAction(l, i);
    var act := l.actions[i];
    var e := l.events[act.event];
    && (e.run.Some? ==> e.run.value < |m.threads|)
    && Allowed(m, e.principal, if e.run.Some? then Some(m.threads[e.run.value].ceiling) else None, e.op.value, act.level)
    && (act.approval.Some? ==>
          act.approval.value < |rows| && exists now :: ReadsClock(x, e.op.value, act.key.call, now) && rows[act.approval.value].expiresAt > now)
  }

  lemma NewActionIsCommitted(cfg: Config, s: State, ctx: Ctx, call: Call)
    requires Sound(cfg, s) && Dispatch(cfg, s, ctx, call).Ran?
    ensures var Ran(s', o) := Dispatch(cfg, s, ctx, call);
            |s'.ledger.actions| > |s.ledger.actions| ==>
              |s'.ledger.actions| == |s.ledger.actions| + 1 && o.Committed? && o.action == Some(|s.ledger.actions|)
  {
    WaitingAddsNoAction(cfg, s, ctx, call);
    DenialAddsNoAction(cfg, s, ctx, call);
    ReplayIsSilent(cfg, s, ctx, call);
    CommitAddsItsAction(cfg, s, ctx, call);
  }

  lemma WaitingAddsNoAction(cfg: Config, s: State, ctx: Ctx, call: Call)
    ensures var d := Dispatch(cfg, s, ctx, call);
            d.Ran? && d.outcome.Waiting? ==> d.state.ledger.actions == s.ledger.actions
  {
    var d := Dispatch(cfg, s, ctx, call);
    if d.Ran? && d.outcome.Waiting? { WaitingFrame(cfg, s, ctx, call); }
  }

  lemma DenialAddsNoAction(cfg: Config, s: State, ctx: Ctx, call: Call)
    ensures var d := Dispatch(cfg, s, ctx, call);
            d.Ran? && d.outcome.Denied? ==> d.state.ledger.actions == s.ledger.actions
  {
    var d := Dispatch(cfg, s, ctx, call);
    if d.Ran? && d.outcome.Denied? { RefusalFrame(cfg, s, ctx, call); }
  }

  lemma CommitAddsItsAction(cfg: Config, s: State, ctx: Ctx, call: Call)
    requires Sound(cfg, s)
    ensures var d := Dispatch(cfg, s, ctx, call);
            d.Ran? && d.outcome.Committed? && |d.state.ledger.actions| > |s.ledger.actions| ==>
              |d.state.ledger.actions| == |s.ledger.actions| + 1 && d.outcome.action == Some(|s.ledger.actions|)
  {
    var d := Dispatch(cfg, s, ctx, call);
    if d.Ran? && d.outcome.Committed? {
      if d.outcome.action.Some? {
        CommitIsAuthorised(cfg, s, ctx, call, d.outcome.action.value, d.outcome.result);
      } else {
        ReadAddsNoAction(cfg, Reserve(s, ReservationFor(ctx, call)), ctx, call, d.outcome.result);
      }
    }
  }

  lemma ReadAddsNoAction(cfg: Config, s: State, ctx: Ctx, call: Call, result: Result)
    requires call.op in cfg.registry && Admit(cfg, s, ctx, call).Ran? && Admit(cfg, s, ctx, call).outcome == Committed(None, result)
    ensures Admit(cfg, s, ctx, call).state.ledger.actions == s.ledger.actions
  {
    AdmitRead(cfg, s, ctx, call, result);
    var op := cfg.registry[call.op];
    BodyMovesApprovals(cfg, ReadFrom(s, ctx, call, op, EffectiveLevel(s, ctx, call.op).value), ctx, op, call.args);
  }

  /** One dispatch's new action, judged against any state with the same grants and run ceilings. */
  lemma DispatchAdmits(cfg: Config, m: State, x: Txn, s: State, ctx: Ctx, call: Call, i: nat)
    requires Sound(cfg, s) && Dispatch(cfg, s, ctx, call).Ran? && m.grants == s.grants && ReadsClock(x, call.op, call.id, ctx.now)
    requires ctx.at.Some? ==> ctx.at.value.run < |m.threads|
    requires ctx.ceiling == if ctx.at.Some? then Some(m.threads[ctx.at.value.run].ceiling) else None
    requires |s.ledger.actions| <= i < |Dispatch(cfg, s, ctx, call).state.ledger.actions|
    ensures var s' := Dispatch(cfg, s, ctx, call).state;
            Paired(s'.ledger) && AdmittedIn(m, x, s'.ledger, s'.approvals, i)
  {
    NewActionIsCommitted(cfg, s, ctx, call);
    DispatchKeepsSound(cfg, s, ctx, call);
    var o := Dispatch(cfg, s, ctx, call).outcome;
    CommitIsAuthorised(cfg, s, ctx, call, i, o.result);
    var s' := Dispatch(cfg, s, ctx, call).state;
    if s'.ledger.actions[i].approval.Some? {
      var a := s'.ledger.actions[i].approval.value;
      assert Later(s.approvals[a], s'.approvals[a]);
    }
  }

  lemma AdmittedStands(m: State, x: Txn, l: Ledger, rows: seq<Approval>, l': Ledger, rows': seq<Approval>, i: nat)
    requires i < |l.actions| && Paired(l) && Paired(l') && LedgerGrows(l, l') && ApprovalsGrow(rows, rows')
    requires AdmittedIn(m, x, l, rows, i)
    ensures AdmittedIn(m, x, l', rows', i)
  {
    assert PairedAction(l, i) && PairedAction(l', i);
    if l.actions[i].approval.Some? {
      assert Later(rows[l.actions[i].approval.value], rows'[l.actions[i].approval.value]);
    }
  }

  /** Across one call of the plan and its notice. */
  lemma CallAdmits(cfg: Config, m: State, s: State, c: Claimed, w: Work, k: nat, i: nat)
    requires Sound(cfg, s) && k < |w.completion.calls| && c.run < |m.threads| && m.grants == s.grants
    requires var d := Dispatch(cfg, s, CtxAt(c, w, m.threads[c.run].ceiling, k), CallFor(cfg, w, k));
             d.Ran? && |s.ledger.actions| <= i < |d.state.ledger.actions|
    ensures var s' := Dispatch(cfg, s, CtxAt(c, w, m.threads[c.run].ceiling, k), CallFor(cfg, w, k)).state;
            Paired(s'.ledger) && AdmittedIn(m, WorkStep(c, w), s'.ledger, s'.approvals, i)
  {
    var ctx := CtxAt(c, w, m.threads[c.run].ceiling, k);
    assert ReadsClock(WorkStep(c, w), w.completion.calls[k].op, w.completion.calls[k].id, ctx.now);
    DispatchAdmits(cfg, m, WorkStep(c, w), s, ctx, CallFor(cfg, w, k), i);
  }

  /** From the state after one call and its notice to the end of the plan. */
  lemma AdmittedToEnd(cfg: Config, m: State, x: Txn, s: State, c: Claimed, w: Work, ceiling: Grants, k: nat, i: nat)
    requires Sound(cfg, s) && c.run < |s.threads| && RunInv(s.threads[c.run]) && k <= |w.completion.calls|
    requires !DispatchAll(cfg, s, c, w, ceiling, k).Aborted?
    requires i < |s.ledger.actions| && AdmittedIn(m, x, s.ledger, s.approvals, i)
    ensures var s' := DispatchAll(cfg, s, c, w, ceiling, k).state;
            Paired(s'.ledger) && i < |s'.ledger.actions| && AdmittedIn(m, x, s'.ledger, s'.approvals, i)
  {
    BatchKeeps(cfg, s, c, w, ceiling, k);
    var s' := DispatchAll(cfg, s, c, w, ceiling, k).state;
    assert Kept(cfg, s, s');
    AdmittedStands(m, x, s.ledger, s.approvals, s'.ledger, s'.approvals, i);
  }

  lemma NoticeMovesNoLedger(s1: State, r: nat, author: Principal, notice: Json, id: string, o: Outcome)
    requires !o.Waiting? && ResultOf(s1, r, author, notice, id, o).Some?
    ensures var s2 := ResultOf(s1, r, author, notice, id, o).value.state;
            s2.ledger == s1.ledger && s2.approvals == s1.approvals
  {
  }

  /** The state an answered call and its notice hand to the rest of the plan. */
  lemma AfterCall(cfg: Config, s: State, c: Claimed, w: Work, ceiling: Grants, k: nat) returns (s1: State)
    requires Sound(cfg, s) && c.run < |s.threads| && RunInv(s.threads[c.run]) && k < |w.completion.calls|
    requires !DispatchAll(cfg, s, c, w, ceiling, k).Aborted?
    requires var d := Dispatch(cfg, s, CtxAt(c, w, ceiling, k), CallFor(cfg, w, k));
             d.Ran? && !d.outcome.Waiting?
    ensures var d := Dispatch(cfg, s, CtxAt(c, w, ceiling, k), CallFor(cfg, w, k));
            s1.ledger == d.state.ledger && s1.approvals == d.state.approvals
    ensures Sound(cfg, s1) && c.run < |s1.threads| && RunInv(s1.threads[c.run]) && s1.grants == s.grants
    ensures !DispatchAll(cfg, s1, c, w, ceiling, k + 1).Aborted?
    ensures DispatchAll(cfg, s, c, w, ceiling, k).state == DispatchAll(cfg, s1, c, w, ceiling, k + 1).state
  {
    var p := w.completion.calls[k];
    var d := Dispatch(cfg, s, CtxAt(c, w, ceiling, k), CallFor(cfg, w, k));
    CallKeeps(cfg, s, c, w, ceiling, k);
    NoticeMovesNoLedger(d.state, c.run, w.principal, w.notice(k), p.id, d.outcome);
    s1 := ResultOf(d.state, c.run, w.principal, w.notice(k), p.id, d.outcome).value.state;
  }

  lemma ParkedAdmits(cfg: Config, m: State, s: State, c: Claimed, w: Work, k: nat, i: nat)
    requires Sound(cfg, s) && k < |w.completion.calls| && c.run < |m.threads| && m.grants == s.grants
    requires var d := Dispatch(cfg, s, CtxAt(c, w, m.threads[c.run].ceiling, k), CallFor(cfg, w, k));
             d.Ran? && d.outcome.Waiting? && |s.ledger.actions| <= i < |d.state.ledger.actions|
    ensures var s' := DispatchAll(cfg, s, c, w, m.threads[c.run].ceiling, k).state;
            Paired(s'.ledger) && AdmittedIn(m, WorkStep(c, w), s'.ledger, s'.approvals, i)
  {
    CallAdmits(cfg, m, s, c, w, k, i);
  }

  lemma HereAdmits(cfg: Config, m: State, s: State, c: Claimed, w: Work, k: nat, i: nat, s1: State)
    requires Sound(cfg, s) && k < |w.completion.calls| && c.run < |m.threads| && m.grants == s.grants
    requires Sound(cfg, s1) && c.run < |s1.threads| && RunInv(s1.threads[c.run])
    requires var d := Dispatch(cfg, s, CtxAt(c, w, m.threads[c.run].ceiling, k), CallFor(cfg, w, k));
             d.Ran? && s1.ledger == d.state.ledger && s1.approvals == d.state.approvals
    requires |s.ledger.actions| <= i < |s1.ledger.actions|
    requires !DispatchAll(cfg, s1, c, w, m.threads[c.run].ceiling, k + 1).Aborted?
    ensures var s' := DispatchAll(cfg, s1, c, w, m.threads[c.run].ceiling, k + 1).state;
            Paired(s'.ledger) && i < |s'.ledger.actions| && AdmittedIn(m, WorkStep(c, w), s'.ledger, s'.approvals, i)
  {
    CallAdmits(cfg, m, s, c, w, k, i);
    AdmittedToEnd(cfg, m, WorkStep(c, w), s1, c, w, m.threads[c.run].ceiling, k + 1, i);
  }

  lemma {:induction false} BatchAdmits(cfg: Config, m: State, s: State, c: Claimed, w: Work, k: nat, i: nat)
    requires Sound(cfg, s) && c.run < |s.threads| && RunInv(s.threads[c.run]) && k <= |w.completion.calls|
    requires c.run < |m.threads| && m.grants == s.grants
    requires !DispatchAll(cfg, s, c, w, m.threads[c.run].ceiling, k).Aborted?
    requires |s.ledger.actions| <= i < |DispatchAll(cfg, s, c, w, m.threads[c.run].ceiling, k).state.ledger.actions|
    ensures var s' := DispatchAll(cfg, s, c, w, m.threads[c.run].ceiling, k).state;
            Paired(s'.ledger) && AdmittedIn(m, WorkStep(c, w), s'.ledger, s'.approvals, i)
    decreases |w.completion.calls| - k
  {
    var ceiling := m.threads[c.run].ceiling;
    var d := Dispatch(cfg, s, CtxAt(c, w, ceiling, k), CallFor(cfg, w, k));
    if d.outcome.Waiting? {
      ParkedAdmits(cfg, m, s, c, w, k, i);
    } else {
      var s1 := AfterCall(cfg, s, c, w, ceiling, k);
      if i < |s1.ledger.actions| {
        HereAdmits(cfg, m, s, c, w, k, i, s1);
      } else {
        BatchAdmits(cfg, m, s1, c, w, k + 1, i);
      }
    }
  }

  /** Past its plan a step adds no action and moves no approval. */
  ghost predicate TailQuiet(b: Batch, s': State) {
    && !b.Aborted? && s'.approvals == b.state.approvals && s'.ledger.actions == b.state.ledger.actions
    && b.state.ledger.events <= s'.ledger.events && s'.ledger.keys == b.state.ledger.keys
  }

  lemma ParkTail(s: State, c: Claimed, w: Work, results: seq<ToolResult>, a: nat, op: string)
    ensures TailQuiet(ParkedAt(s, results, a, op), ParkStep(s, c, w, a, op))
  {
  }

  lemma FinishTail(s: State, c: Claimed, results: seq<ToolResult>, cp: Checkpoint)
    requires FinishStep(s, c, cp).Some?
    ensures TailQuiet(Finished(s, results), FinishStep(s, c, cp).value)
  {
  }

  lemma StepTail(cfg: Config, s: State, c: Claimed, w: Work)
    requires c.run < |s.threads| && WithinCap(s.threads[c.run], w.estimate) && Step(cfg, s, c, w).Some?
    ensures TailQuiet(DispatchAll(cfg, Planning(s, c, w), c, w, s.threads[c.run].ceiling, 0), Step(cfg, s, c, w).value)
  {
    match DispatchAll(cfg, Planning(s, c, w), c, w, s.threads[c.run].ceiling, 0)
    case Aborted =>
    case ParkedAt(s1, results, a, op) => ParkTail(s1, c, w, results, a, op);
    case Finished(s1, results) =>
      FinishTail(s1, c, results, Checkpoint(c.step, ReadUpTo(s.threads[c.run], w.visible), w.completion.text, results));
  }

  lemma PlanAdmits(cfg: Config, s: State, c: Claimed, w: Work, i: nat)
    requires Always(cfg, s) && c.run < |s.threads| && WithinCap(s.threads[c.run], w.estimate)
    requires var b := DispatchAll(cfg, Planning(s, c, w), c, w, s.threads[c.run].ceiling, 0);
             !b.Aborted? && |s.ledger.actions| <= i < |b.state.ledger.actions|
    ensures var b := DispatchAll(cfg, Planning(s, c, w), c, w, s.threads[c.run].ceiling, 0);
            Paired(b.state.ledger) && AdmittedIn(s, WorkStep(c, w), b.state.ledger, b.state.approvals, i)
  {
    var planned := Planning(s, c, w);
    var b := DispatchAll(cfg, planned, c, w, s.threads[c.run].ceiling, 0);
    PlanningKeeps(cfg, s, c, w);
    BatchAdmits(cfg, planned, planned, c, w, 0, i);
    AdmittedElsewhere(planned, s, WorkStep(c, w), b.state.ledger, b.state.approvals, i);
  }

  lemma TailKeepsAdmitted(m: State, x: Txn, b: Batch, s': State, i: nat)
    requires TailQuiet(b, s') && i < |b.state.ledger.actions| && Paired(b.state.ledger) && Paired(s'.ledger)
    requires AdmittedIn(m, x, b.state.ledger, b.state.approvals, i)
    ensures AdmittedIn(m, x, s'.ledger, s'.approvals, i)
  {
    assert PairedAction(b.state.ledger, i) && PairedAction(s'.ledger, i);
  }

  lemma RefusedStepAddsNoAction(cfg: Config, s: State, c: Claimed, w: Work)
    requires Step(cfg, s, c, w).Some?
    ensures !WithinCap(s.threads[c.run], w.estimate) ==> Step(cfg, s, c, w).value.ledger.actions == s.ledger.actions
  {
  }

  lemma StepAdmits(cfg: Config, s: State, c: Claimed, w: Work, i: nat)
    requires Always(cfg, s) && Step(cfg, s, c, w).Some?
    requires |s.ledger.actions| <= i < |Step(cfg, s, c, w).value.ledger.actions|
    ensures var s' := Step(cfg, s, c, w).value;
            Paired(s'.ledger) && AdmittedIn(s, WorkStep(c, w), s'.ledger, s'.approvals, i)
  {
    StepKeeps(cfg, s, c, w);
    RefusedStepAddsNoAction(cfg, s, c, w);
    StepTail(cfg, s, c, w);
    PlanAdmits(cfg, s, c, w, i);
    TailKeepsAdmitted(s, WorkStep(c, w), DispatchAll(cfg, Planning(s, c, w), c, w, s.threads[c.run].ceiling, 0),
                      Step(cfg, s, c, w).value, i);
  }

  lemma AdmittedElsewhere(m: State, m': State, x: Txn, l: Ledger, rows: seq<Approval>, i: nat)
    requires i < |l.actions| && Paired(l) && AdmittedIn(m, x, l, rows, i)
    requires m'.grants == m.grants && |m'.threads| == |m.threads|
    requires forall r :: 0 <= r < |m.threads| ==> m'.threads[r].ceiling == m.threads[r].ceiling
    ensures AdmittedIn(m', x, l, rows, i)
  {
  }

  lemma TxnAdmits(cfg: Config, s: State, x: Txn, i: nat)
    requires Always(cfg, s) && Apply(cfg, s, x).Some?
    requires |s.ledger.actions| <= i < |Apply(cfg, s, x).value.ledger.actions|
    ensures var s' := Apply(cfg, s, x).value;
            Paired(s'.ledger) && AdmittedIn(s, x, s'.ledger, s'.approvals, i)
  {
    match x
    case WorkStep(c, w) => StepAdmits(cfg, s, c, w, i);
    case CallOperation(p, call, now) => DispatchAdmits(cfg, s, x, s, Ctx(p, None, None, now), call, i);
    case ExpireApproval(_, _) =>
    case _ =>
  }

  /** Every action any history ever commits was authorised in the state its transaction started from,
      whatever grants changed before or after, and the ceiling it was held to is the one its run was
      created with. */
  lemma {:induction false} EveryActionWasAuthorised(cfg: Config, s: State, h: seq<Txn>, i: nat) returns (k: nat)
    requires Always(cfg, s) && Exec(cfg, s, h).Some?
    requires |s.ledger.actions| <= i < |Exec(cfg, s, h).value.ledger.actions|
    ensures k < |h| && Exec(cfg, s, h[..k]).Some?
    ensures var m, s' := Exec(cfg, s, h[..k]).value, Exec(cfg, s, h).value;
            && Always(cfg, m) && Always(cfg, s') && RunsGrow(m.threads, s'.threads)
            && |m.ledger.actions| <= i && AuthorisedIn(cfg, m, h[k], s'.ledger, s'.approvals, i)
  {
    k := AdmittedAt(cfg, s, h, i);
    HistoryKeeps(cfg, s, h);
    var s' := Exec(cfg, s, h).value;
    assert ActionLicensed(s'.ledger, s'.approvals, i);
    if s'.ledger.actions[i].approval.Some? {
      assert GrantedRow(s'.approvals[s'.ledger.actions[i].approval.value], cfg.classes);
    }
  }

  lemma {:induction false} AdmittedAt(cfg: Config, s: State, h: seq<Txn>, i: nat) returns (k: nat)
    requires Always(cfg, s) && Exec(cfg, s, h).Some?
    requires |s.ledger.actions| <= i < |Exec(cfg, s, h).value.ledger.actions|
    ensures k < |h| && Exec(cfg, s, h[..k]).Some?
    ensures var m, s' := Exec(cfg, s, h[..k]).value, Exec(cfg, s, h).value;
            && Always(cfg, m) && Grows(m, s') && |m.ledger.actions| <= i
            && Paired(s'.ledger) && AdmittedIn(m, h[k], s'.ledger, s'.approvals, i)
  {
    var n := |h| - 1;
    var before, s' := Exec(cfg, s, h[..n]).value, Exec(cfg, s, h).value;
    HistoryKeeps(cfg, s, h[..n]);
    ApplyKeeps(cfg, before, h[n]);
    if i >= |before.ledger.actions| {
      k := n;
      TxnAdmits(cfg, before, h[n], i);
    } else {
      k := AdmittedAt(cfg, s, h[..n], i);
      assert h[..n][..k] == h[..k];
      var m := Exec(cfg, s, h[..k]).value;
      GrowsOn(m, before, s');
      AdmittedStands(m, h[k], before.ledger, before.approvals, s'.ledger, s'.approvals, i);
    }
  }
}
