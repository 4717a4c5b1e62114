/** What every history keeps when leases are honoured: a run's state, its queue row, its checkpoints
    and the question it waits on always agree. */
module Leases {
  import opened Tables
  import opened Approvals
  import opened Runs
  import opened Dispatching
  import opened Working
  import opened Histories
  import opened RunLaws
  import opened BatchLaws
  import opened Lifecycle

  /** Checkpoints are numbered 1..n, with watermarks that climb; a run is queued or running exactly when it has exactly one queue
      row, at step n + 1; a leased row belongs to a running run; a finished run has worked a step. */
  ghost predicate Shape(t: Thread) {
    var n := |t.checkpoints|;
    && Climbing(t.checkpoints)
    && t.queue.Keys == (if t.state in {Queued, Running} then {n + 1} else {})
    && (t.state == Queued ==> t.queue[n + 1] == None)
    && (t.state == Done ==> n >= 1)
  }

  ghost predicate AllShapes(ts: seq<Thread>) {
    forall r :: 0 <= r < |ts| ==> Shape(ts[r])
  }

  /** Row `a` is a question someone can still answer for a run that is not cancelled. */
  ghost predicate Asking(rows: seq<Approval>, ts: seq<Thread>, a: int) {
    && 0 <= a < |rows| && rows[a].state == Requested
    && rows[a].run < |ts| && ts[rows[a].run].state != Cancelled
  }

  /** A run that is not cancelled waits exactly when it has exactly one question, and that question is
      about the step after its last checkpoint. */
  ghost predicate Agreement(rows: seq<Approval>, ts: seq<Thread>) {
    && (forall a :: Asking(rows, ts, a) ==>
          ts[rows[a].run].state == WaitingApproval && rows[a].step == |ts[rows[a].run].checkpoints| + 1)
    && (forall a, b :: Asking(rows, ts, a) && Asking(rows, ts, b) && rows[a].run == rows[b].run ==> a == b)
    && (forall r :: 0 <= r < |ts| && ts[r].state == WaitingApproval ==>
          exists a :: Asking(rows, ts, a) && rows[a].run == r)
  }

  ghost predicate LeasedInv(cfg: Config, s: State) {
    Always(cfg, s) && AllShapes(s.threads) && Agreement(s.approvals, s.threads)
  }

  // ---- one run at a time --------------------------------------------------------------------

  lemma LastOfShape(t: Thread)
    requires Shape(t)
    ensures LastStep(t.checkpoints) == |t.checkpoints|
  {
    ClimbingEndsLast(t.checkpoints);
  }

  /** Waking never collides with a queued step. */
  lemma PostKeepsShape(t: Thread, kind: MessageKind, body: Json, author: Principal)
    requires Shape(t)
    ensures Post(t, kind, body, author) != Collided
    ensures Post(t, kind, body, author).Posted? ==>
              var t' := Post(t, kind, body, author).thread;
              && Shape(t') && t'.checkpoints == t.checkpoints
              && t'.state == (if t.state == Done then Queued else t.state)
  {
    LastOfShape(t);
  }

  /** A step committed under its lease is the next step of a running run, or its run was cancelled. */
  lemma HeldStepIsNext(t: Thread, c: Claimed)
    requires Shape(t) && c.step in t.queue && t.queue[c.step] == Some(c.lease)
    ensures t.state == Running && c.step == |t.checkpoints| + 1 && t.queue == map[c.step := Some(c.lease)]
  {
    assert c.step in t.queue.Keys;
  }

  lemma StopKeepsShape(t: Thread, state: RunState, failure: Option<string>)
    requires Shape(t) && t.state == Running && state in {WaitingApproval, Tables.Failed}
    ensures var t' := Stop(t, |t.checkpoints| + 1, state, failure);
            Shape(t') && t'.state == state && t'.checkpoints == t.checkpoints
  {
    assert (t.queue - {|t.checkpoints| + 1}).Keys == {};
  }

  /** Queueing the step after the one a running run is at never collides. */
  lemma AdvanceLands(t: Thread, cp: Checkpoint)
    requires Shape(t) && t.state == Running && cp.step == |t.checkpoints| + 1
    ensures Advance(t, cp.step, cp).Some?
  {
    assert (t.queue - {cp.step}).Keys == {};
  }

  lemma AdvanceKeepsShape(t: Thread, cp: Checkpoint)
    requires Shape(t) && t.state == Running && cp.step == |t.checkpoints| + 1 && Watermark(t) <= cp.mailboxSeq
    ensures var t' := Advance(t, cp.step, cp);
            && t'.Some? && Shape(t'.value) && t'.value.checkpoints == t.checkpoints + [cp]
            && t'.value.state == if cp.results != [] then Queued else Done
  {
    assert (t.queue - {cp.step}).Keys == {};
    ClimbingOn(t.checkpoints, cp);
  }

  /** On a cancelled run a step changes neither state nor checkpoints and adds no queue row. */
  lemma CancelledStands(t: Thread, t': Thread)
    requires Shape(t) && t.state == Cancelled && RunLater(t, t')
    ensures Shape(t') && t'.state == Cancelled && t'.checkpoints == t.checkpoints
  {
    assert t'.queue.Keys == {};
  }

  // ---- questions ----------------------------------------------------------------------------

  /** Replacing one run without touching whether it waits, its checkpoints or any question. */
  lemma AgreementStands(rows: seq<Approval>, ts: seq<Thread>, rows': seq<Approval>, ts': seq<Thread>)
    requires Agreement(rows, ts) && Owned(rows, |ts|)
    requires SameQuestions(rows, rows') && ApprovalsGrow(rows, rows')
    requires |ts'| == |ts|
    requires forall r :: 0 <= r < |ts| ==>
               && (ts'[r].state == Cancelled <==> ts[r].state == Cancelled)
               && (ts'[r].state == WaitingApproval <==> ts[r].state == WaitingApproval)
               && (ts[r].state == WaitingApproval ==> ts'[r].checkpoints == ts[r].checkpoints)
    ensures Agreement(rows', ts')
  {
    forall a ensures Asking(rows', ts', a) <==> Asking(rows, ts, a) {
      if 0 <= a < |rows| { assert Later(rows[a], rows'[a]); }
    }
    assert forall a :: 0 <= a < |rows| ==> Later(rows[a], rows'[a]);
    forall r | 0 <= r < |ts'| && ts'[r].state == WaitingApproval
      ensures exists a :: Asking(rows', ts', a) && rows'[a].run == r
    {
      var a :| Asking(rows, ts, a) && rows[a].run == r;
      assert Asking(rows', ts', a) && rows'[a].run == r;
    }
  }

  /** Cancelling a run withdraws its questions and leaves the others'. */
  lemma CancelKeepsAgreement(rows: seq<Approval>, ts: seq<Thread>, r: nat, t: Thread)
    requires Agreement(rows, ts) && r < |ts| && t.state == Cancelled
    ensures Agreement(CloseAll(rows, r), ts[r := t])
  {
    var rows', ts' := CloseAll(rows, r), ts[r := t];
    forall a ensures Asking(rows', ts', a) <==> Asking(rows, ts, a) && rows[a].run != r { }
    forall q | 0 <= q < |ts'| && ts'[q].state == WaitingApproval
      ensures exists a :: Asking(rows', ts', a) && rows'[a].run == q
    {
      var a :| Asking(rows, ts, a) && rows[a].run == q;
      assert Asking(rows', ts', a) && rows'[a].run == q;
    }
  }

  /** Parking adds the one question its run now waits on. */
  lemma ParkKeepsAgreement(rows: seq<Approval>, ts: seq<Thread>, rows': seq<Approval>, a: nat, r: nat, t: Thread)
    requires Agreement(rows, ts) && Owned(rows, |ts|) && r < |ts|
    requires OneMoreQuestion(rows, rows', a, r, |t.checkpoints| + 1) && ApprovalsGrow(rows, rows')
    requires ts[r].state == Running && t.state == WaitingApproval
    ensures Agreement(rows', ts[r := t])
  {
    var ts' := ts[r := t];
    assert forall b :: 0 <= b < |rows| ==> Later(rows[b], rows'[b]);
    forall b | Asking(rows', ts', b) ensures b == a || (Asking(rows, ts, b) && rows[b].run != r) {
      if b != a { assert b < |rows| && rows[b].state == Requested; }
    }
    assert Asking(rows', ts', a) && rows'[a].run == r;
    forall q | 0 <= q < |ts'| && ts'[q].state == WaitingApproval
      ensures exists b :: Asking(rows', ts', b) && rows'[b].run == q
    {
      if q != r {
        var b :| Asking(rows, ts, b) && rows[b].run == q;
        assert Asking(rows', ts', b) && rows'[b].run == q;
      }
    }
  }

  /** Parking on a run cancelled meanwhile leaves a question nobody waits on. */
  lemma ParkOnCancelled(rows: seq<Approval>, ts: seq<Thread>, rows': seq<Approval>, a: nat, r: nat, step: nat, t: Thread)
    requires Agreement(rows, ts) && Owned(rows, |ts|) && r < |ts|
    requires OneMoreQuestion(rows, rows', a, r, step) && ApprovalsGrow(rows, rows')
    requires ts[r].state == Cancelled && t.state == Cancelled
    ensures Agreement(rows', ts[r := t])
  {
    var ts' := ts[r := t];
    assert forall b :: 0 <= b < |rows| ==> Later(rows[b], rows'[b]);
    forall b ensures Asking(rows', ts', b) <==> Asking(rows, ts, b) {
      if 0 <= b < |rows| { assert Later(rows[b], rows'[b]); }
    }
    forall q | 0 <= q < |ts'| && ts'[q].state == WaitingApproval
      ensures exists b :: Asking(rows', ts', b) && rows'[b].run == q
    {
      var b :| Asking(rows, ts, b) && rows[b].run == q;
      assert Asking(rows', ts', b) && rows'[b].run == q;
    }
  }

  /** Answering a question, whichever way, re-queues exactly the step that asked it, exactly once:
      the insert never collides, and a cancelled run is left alone. */
  lemma SettleResumes(s: State, a: nat, answered: Approval)
    requires AllShapes(s.threads) && Agreement(s.approvals, s.threads) && Owned(s.approvals, |s.threads|)
    requires a < |s.approvals| && s.approvals[a].state == Requested
    requires answered.state != Requested && answered.run == s.approvals[a].run && answered.step == s.approvals[a].step
    ensures Settle(s, a, answered).Some?
    ensures var r, s' := answered.run, Settle(s, a, answered).value;
            && s'.approvals == s.approvals[a := answered]
            && (forall q :: 0 <= q < |s.threads| && q != r ==> s'.threads[q] == s.threads[q])
            && s'.threads[r] == (if s.threads[r].state == Cancelled then s.threads[r]
                                 else s.threads[r].(state := Queued, queue := map[answered.step := None]))
            && (s.threads[r].state != Cancelled ==>
                  s.threads[r].state == WaitingApproval && answered.step == |s.threads[r].checkpoints| + 1)
    ensures AllShapes(Settle(s, a, answered).value.threads)
    ensures Agreement(Settle(s, a, answered).value.approvals, Settle(s, a, answered).value.threads)
  {
    SettleHandsBack(s, a, answered);
    var s' := Settle(s, a, answered).value;
    SettledShapes(s, s', a, answered);
    SettledQuestions(s, s', a, answered);
  }

  /** What answering writes: the answer, and the parked step back in the queue of a run that waits. */
  lemma SettleHandsBack(s: State, a: nat, answered: Approval)
    requires AllShapes(s.threads) && Agreement(s.approvals, s.threads) && Owned(s.approvals, |s.threads|)
    requires a < |s.approvals| && s.approvals[a].state == Requested
    requires answered.run == s.approvals[a].run && answered.step == s.approvals[a].step
    ensures Settle(s, a, answered).Some? && HandedBack(s, Settle(s, a, answered).value, a, answered)
  {
    var t := s.threads[answered.run];
    assert Shape(t);
    if t.state != Cancelled {
      assert Asking(s.approvals, s.threads, a);
      assert t.queue.Keys == {};
      assert t.queue[answered.step := None] == map[answered.step := None];
    }
  }

  ghost predicate HandedBack(s: State, s': State, a: nat, answered: Approval)
    requires a < |s.approvals|
  {
    var r := answered.run;
    && r < |s.threads| && |s'.threads| == |s.threads|
    && s'.approvals == s.approvals[a := answered]
    && (forall q :: 0 <= q < |s.threads| && q != r ==> s'.threads[q] == s.threads[q])
    && s'.threads[r] == (if s.threads[r].state == Cancelled then s.threads[r]
                         else s.threads[r].(state := Queued, queue := map[answered.step := None]))
    && (s.threads[r].state != Cancelled ==>
          s.threads[r].state == WaitingApproval && answered.step == |s.threads[r].checkpoints| + 1)
  }

  lemma SettledShapes(s: State, s': State, a: nat, answered: Approval)
    requires AllShapes(s.threads) && a < |s.approvals| && HandedBack(s, s', a, answered)
    ensures AllShapes(s'.threads)
  {
    forall q | 0 <= q < |s'.threads| ensures Shape(s'.threads[q]) {
      assert Shape(s.threads[q]);
    }
  }

  lemma SettledQuestions(s: State, s': State, a: nat, answered: Approval)
    requires Agreement(s.approvals, s.threads) && a < |s.approvals| && HandedBack(s, s', a, answered)
    requires s.approvals[a].state == Requested && answered.state != Requested && answered.run == s.approvals[a].run
    ensures Agreement(s'.approvals, s'.threads)
  {
    forall b ensures Asking(s'.approvals, s'.threads, b) <==> Asking(s.approvals, s.threads, b) && b != a { }
    forall q | 0 <= q < |s'.threads| && s'.threads[q].state == WaitingApproval
      ensures exists b :: Asking(s'.approvals, s'.threads, b) && s'.approvals[b].run == q
    {
      var b :| Asking(s.approvals, s.threads, b) && s.approvals[b].run == q;
      assert b != a;
      assert Asking(s'.approvals, s'.threads, b) && s'.approvals[b].run == q;
    }
  }

  // ---- the transactions ---------------------------------------------------------------------

  ghost predicate ShapedAndAgreed(s: State) {
    AllShapes(s.threads) && Agreement(s.approvals, s.threads)
  }

  lemma BodyKeepsShapes(cfg: Config, s: State, ctx: Ctx, op: Operation, args: Json)
    requires ShapedAndAgreed(s) && Owned(s.approvals, |s.threads|) && RunBody(cfg, s, ctx, op, args).Some?
    ensures ShapedAndAgreed(RunBody(cfg, s, ctx, op, args).value.0)
  {
    match op.body
    case Plain(_) =>
    case Decide(parse) =>
      var d := parse(args);
      if d.approval < |s.approvals| && s.approvals[d.approval].state == Requested {
        SettleResumes(s, d.approval, Runs.Answer(s.approvals[d.approval], d, ctx.principal));
      }
  }

  lemma CallKeepsShapes(cfg: Config, s: State, ctx: Ctx, call: Call)
    requires LeasedInv(cfg, s) && ctx.at.None? && Dispatch(cfg, s, ctx, call).Ran?
    ensures ShapedAndAgreed(Dispatch(cfg, s, ctx, call).state)
  {
    if Dispatch(cfg, s, ctx, call).outcome.Committed? {
      var from := CommittedFrom(cfg, s, ctx, call);
      forall a | 0 <= a < |from.approvals| ensures from.approvals[a].run < |s.threads| {
        assert Later(s.approvals[a], from.approvals[a]);
      }
      AgreementStands(s.approvals, s.threads, from.approvals, from.threads);
      BodyKeepsShapes(cfg, from, ctx, cfg.registry[call.op], call.args);
    } else {
      RefusedKeepsRuns(cfg, s, ctx, call);
    }
  }

  /** A run replaced by one that waits, is cancelled, and has checkpointed exactly when it did. */
  lemma ReplacedKeepsShapes(s: State, r: nat, t: Thread, rows: seq<Approval>)
    requires ShapedAndAgreed(s) && Owned(s.approvals, |s.threads|) && r < |s.threads| && Shape(t)
    requires SameQuestions(s.approvals, rows) && ApprovalsGrow(s.approvals, rows)
    requires t.state == Cancelled <==> s.threads[r].state == Cancelled
    requires t.state == WaitingApproval <==> s.threads[r].state == WaitingApproval
    requires t.state == WaitingApproval ==> t.checkpoints == s.threads[r].checkpoints
    ensures AllShapes(s.threads[r := t]) && Agreement(rows, s.threads[r := t])
  {
    AgreementStands(s.approvals, s.threads, rows, s.threads[r := t]);
  }

  /** The plan of a step, as it leaves its run. */
  lemma PlanLeaves(cfg: Config, s: State, c: Claimed, w: Work)
    requires LeasedInv(cfg, s) && c.run < |s.threads| && s.threads[c.run].state in {Running, Cancelled}
    requires WithinCap(s.threads[c.run], w.estimate)
    requires !DispatchAll(cfg, Planning(s, c, w), c, w, s.threads[c.run].ceiling, 0).Aborted?
    ensures var t, b := s.threads[c.run], DispatchAll(cfg, Planning(s, c, w), c, w, s.threads[c.run].ceiling, 0);
            && |b.state.threads| == |s.threads|
            && b.state.threads == s.threads[c.run := b.state.threads[c.run]]
            && var t' := b.state.threads[c.run];
               && Shape(t') && t'.state == t.state && t'.checkpoints == t.checkpoints && t'.queue == t.queue
               && ApprovalsGrow(s.approvals, b.state.approvals)
               && (b.Finished? ==> SameQuestions(s.approvals, b.state.approvals))
               && (b.ParkedAt? ==> OneMoreQuestion(s.approvals, b.state.approvals, b.approval, c.run, c.step))
  {
    var planned := Planning(s, c, w);
    PlanningKeeps(cfg, s, c, w);
    BatchKeeps(cfg, planned, c, w, s.threads[c.run].ceiling, 0);
    assert Shape(s.threads[c.run]);
  }

  /** Within the cap, the run a running run's step leaves, from the plan's own copy of it. */
  lemma RunningStepLeaves(cfg: Config, s: State, c: Claimed, w: Work)
    requires LeasedInv(cfg, s) && c.run < |s.threads| && s.threads[c.run].state == Running
    requires WithinCap(s.threads[c.run], w.estimate) && Step(cfg, s, c, w).Some?
    ensures var t, b := s.threads[c.run], DispatchAll(cfg, Planning(s, c, w), c, w, s.threads[c.run].ceiling, 0);
            && !b.Aborted? && |b.state.threads| == |s.threads|
            && var t' := b.state.threads[c.run];
               && Shape(t') && t'.state == Running && t'.checkpoints == t.checkpoints && t'.queue == t.queue
               && var cp := Checkpoint(c.step, ReadUpTo(t, w.visible), w.completion.text, if b.Finished? then b.results else []);
                  && (b.Finished? ==> Advance(t', c.step, cp).Some?)
                  && Step(cfg, s, c, w).value.threads
                     == s.threads[c.run := if b.ParkedAt? then Stop(t', c.step, WaitingApproval, None) else Advance(t', c.step, cp).value]
                  && Step(cfg, s, c, w).value.approvals == b.state.approvals
  {
    PlanLeaves(cfg, s, c, w);
  }

  lemma RunningStepKeepsShapes(cfg: Config, s: State, c: Claimed, w: Work)
    requires LeasedInv(cfg, s) && c.run < |s.threads| && s.threads[c.run].state == Running
    requires c.step == |s.threads[c.run].checkpoints| + 1 && Step(cfg, s, c, w).Some?
    ensures ShapedAndAgreed(Step(cfg, s, c, w).value)
  {
    var t := s.threads[c.run];
    assert Shape(t);
    if !WithinCap(t, w.estimate) {
      StopKeepsShape(t, Tables.Failed, Some(BUDGET_EXCEEDED));
      ReplacedKeepsShapes(s, c.run, Stop(t, c.step, Tables.Failed, Some(BUDGET_EXCEEDED)), s.approvals);
    } else if DispatchAll(cfg, Planning(s, c, w), c, w, t.ceiling, 0).ParkedAt? {
      ParkingStepKeepsShapes(cfg, s, c, w);
    } else {
      FinishingStepKeepsShapes(cfg, s, c, w);
    }
  }

  lemma ParkingStepKeepsShapes(cfg: Config, s: State, c: Claimed, w: Work)
    requires LeasedInv(cfg, s) && c.run < |s.threads| && s.threads[c.run].state == Running
    requires c.step == |s.threads[c.run].checkpoints| + 1 && Step(cfg, s, c, w).Some?
    requires WithinCap(s.threads[c.run], w.estimate)
    requires DispatchAll(cfg, Planning(s, c, w), c, w, s.threads[c.run].ceiling, 0).ParkedAt?
    ensures ShapedAndAgreed(Step(cfg, s, c, w).value)
  {
    PlanLeaves(cfg, s, c, w);
    RunningStepLeaves(cfg, s, c, w);
    var b := DispatchAll(cfg, Planning(s, c, w), c, w, s.threads[c.run].ceiling, 0);
    var stopped := Stop(b.state.threads[c.run], c.step, WaitingApproval, None);
    StopKeepsShape(b.state.threads[c.run], WaitingApproval, None);
    ParkKeepsAgreement(s.approvals, s.threads, b.state.approvals, b.approval, c.run, stopped);
  }

  lemma FinishingStepKeepsShapes(cfg: Config, s: State, c: Claimed, w: Work)
    requires LeasedInv(cfg, s) && c.run < |s.threads| && s.threads[c.run].state == Running
    requires c.step == |s.threads[c.run].checkpoints| + 1 && Step(cfg, s, c, w).Some?
    requires WithinCap(s.threads[c.run], w.estimate)
    requires DispatchAll(cfg, Planning(s, c, w), c, w, s.threads[c.run].ceiling, 0).Finished?
    ensures ShapedAndAgreed(Step(cfg, s, c, w).value)
  {
    PlanLeaves(cfg, s, c, w);
    RunningStepLeaves(cfg, s, c, w);
    var b := DispatchAll(cfg, Planning(s, c, w), c, w, s.threads[c.run].ceiling, 0);
    var cp := Checkpoint(c.step, ReadUpTo(s.threads[c.run], w.visible), w.completion.text, b.results);
    DrainIsRange(s.threads[c.run], w.visible);
    AdvanceKeepsShape(b.state.threads[c.run], cp);
    ReplacedKeepsShapes(s, c.run, Advance(b.state.threads[c.run], c.step, cp).value, b.state.approvals);
  }

  /** What the lease buys a running run, exactly: committing a step of it keeps run, queue and questions
      in agreement if and only if that step is the one its queue row names. */
  lemma RunningStepKeepsShapesIff(cfg: Config, s: State, c: Claimed, w: Work)
    requires LeasedInv(cfg, s) && c.run < |s.threads| && s.threads[c.run].state == Running
    requires Step(cfg, s, c, w).Some?
    ensures ShapedAndAgreed(Step(cfg, s, c, w).value) <==> c.step in s.threads[c.run].queue
  {
    var t := s.threads[c.run];
    assert Shape(t);
    assert c.step in t.queue.Keys <==> c.step == |t.checkpoints| + 1;
    if c.step == |t.checkpoints| + 1 {
      RunningStepKeepsShapes(cfg, s, c, w);
    } else {
      if WithinCap(t, w.estimate) { RunningStepLeaves(cfg, s, c, w); }
      StraySteps(t, c.step, Step(cfg, s, c, w).value.threads[c.run]);
    }
  }

  /** A step that is not the queued one leaves its run's row behind, or a checkpoint out of order. */
  lemma StraySteps(t: Thread, step: nat, last: Thread)
    requires Shape(t) && t.state == Running && step != |t.checkpoints| + 1
    requires (last.state in {WaitingApproval, Tables.Failed, Done} && |t.checkpoints| + 1 in last.queue)
             || (|last.checkpoints| == |t.checkpoints| + 1 && last.checkpoints[|t.checkpoints|].step == step)
    ensures !Shape(last)
  {
    if last.state in {WaitingApproval, Tables.Failed, Done} && |t.checkpoints| + 1 in last.queue {
      assert |t.checkpoints| + 1 in last.queue.Keys;
    }
  }

  lemma CancelledStepKeepsShapes(cfg: Config, s: State, c: Claimed, w: Work)
    requires LeasedInv(cfg, s) && c.run < |s.threads| && s.threads[c.run].state == Cancelled
    requires Step(cfg, s, c, w).Some?
    ensures ShapedAndAgreed(Step(cfg, s, c, w).value)
  {
    var t, s' := s.threads[c.run], Step(cfg, s, c, w).value;
    StepKeeps(cfg, s, c, w);
    var last := s'.threads[c.run];
    assert Shape(t) && RunLater(t, last);
    CancelledStands(t, last);
    if !WithinCap(t, w.estimate) {
      ReplacedKeepsShapes(s, c.run, last, s.approvals);
      return;
    }
    PlanLeaves(cfg, s, c, w);
    var b := DispatchAll(cfg, Planning(s, c, w), c, w, t.ceiling, 0);
    assert s'.threads == s.threads[c.run := last];
    if b.ParkedAt? {
      ParkOnCancelled(s.approvals, s.threads, b.state.approvals, b.approval, c.run, c.step, last);
    } else {
      ReplacedKeepsShapes(s, c.run, last, b.state.approvals);
    }
  }

  lemma StepKeepsShapes(cfg: Config, s: State, c: Claimed, w: Work)
    requires LeasedInv(cfg, s) && Holds(s, c) && Step(cfg, s, c, w).Some?
    ensures ShapedAndAgreed(Step(cfg, s, c, w).value)
  {
    if s.threads[c.run].state == Cancelled {
      CancelledStepKeepsShapes(cfg, s, c, w);
    } else {
      assert Shape(s.threads[c.run]);
      HeldStepIsNext(s.threads[c.run], c);
      RunningStepKeepsShapes(cfg, s, c, w);
    }
  }

  lemma ReapKeepsShapes(s: State, when: int)
    requires ShapedAndAgreed(s) && Owned(s.approvals, |s.threads|)
    ensures ShapedAndAgreed(Reap(s, when))
  {
    var s' := Reap(s, when);
    forall r | 0 <= r < |s.threads| ensures Shape(s'.threads[r]) {
      assert Shape(s.threads[r]);
      assert Reaped(s.threads[r], when).queue.Keys == s.threads[r].queue.Keys;
    }
    AgreementStands(s.approvals, s.threads, s.approvals, s'.threads);
  }

  lemma ClaimKeepsShapes(s: State, r: nat, step: nat, worker: string, now: int)
    requires ShapedAndAgreed(s) && Owned(s.approvals, |s.threads|) && Claim(s, r, step, worker, now).Some?
    ensures ShapedAndAgreed(Claim(s, r, step, worker, now).value)
  {
    assert Shape(s.threads[r]) && step in s.threads[r].queue.Keys;
    ReplacedKeepsShapes(s, r, Claim(s, r, step, worker, now).value.threads[r], s.approvals);
  }

  lemma SendKeepsShapes(s: State, r: nat, body: Json, p: Principal)
    requires ShapedAndAgreed(s) && Owned(s.approvals, |s.threads|) && Send(s, r, body, p).Some?
    ensures ShapedAndAgreed(Send(s, r, body, p).value)
  {
    assert Shape(s.threads[r]);
    PostKeepsShape(s.threads[r], Steer, body, p);
    ReplacedKeepsShapes(s, r, Post(s.threads[r], Steer, body, p).thread, s.approvals);
  }

  lemma CancelKeepsShapes(s: State, r: nat, p: Principal)
    requires ShapedAndAgreed(s) && Cancel(s, r, p).Some?
    ensures ShapedAndAgreed(Cancel(s, r, p).value)
  {
    assert Shape(s.threads[r]);
    CancelKeepsAgreement(s.approvals, s.threads, r, s.threads[r].(state := Cancelled, queue := map[]));
  }

  lemma ApplyKeepsShapes(cfg: Config, s: State, x: Txn)
    requires LeasedInv(cfg, s) && Apply(cfg, s, x).Some? && LeaseKept(s, x)
    ensures ShapedAndAgreed(Apply(cfg, s, x).value)
  {
    match x
    case CreateRun(p, run) => CreateKeepsShapes(s, p, run);
    case SendMessage(r, body, p) => SendKeepsShapes(s, r, body, p);
    case CancelRun(r, p) => CancelKeepsShapes(s, r, p);
    case ClaimStep(c, now) => ClaimKeepsShapes(s, c.run, c.step, c.lease.worker, now);
    case WorkStep(c, w) => StepKeepsShapes(cfg, s, c, w);
    case CallOperation(p, call, now) => CallKeepsShapes(cfg, s, Ctx(p, None, None, now), call);
    case ReapLeases(when) => ReapKeepsShapes(s, when);
    case ExpireApproval(a, when) =>
      if s.approvals[a].state == Requested {
        SettleResumes(s, a, s.approvals[a].(state := Expired, reason := Some(EXPIRED)));
      }
    case SetGrants(g) =>
  }

  lemma CreateKeepsShapes(s: State, p: Principal, run: NewRun)
    requires ShapedAndAgreed(s) && Owned(s.approvals, |s.threads|) && Create(s, p, run).Some?
    ensures ShapedAndAgreed(Create(s, p, run).value)
  {
    var rows, ts, ts' := s.approvals, s.threads, Create(s, p, run).value.threads;
    assert Shape(ts'[|ts|]);
    forall a ensures Asking(rows, ts', a) <==> Asking(rows, ts, a) { }
    forall q | 0 <= q < |ts'| && ts'[q].state == WaitingApproval
      ensures exists b :: Asking(rows, ts', b) && rows[b].run == q
    {
      var b :| Asking(rows, ts, b) && rows[b].run == q;
      assert Asking(rows, ts', b);
    }
  }

  // ---- histories ----------------------------------------------------------------------------

  /** In every state any interleaving of transactions reaches while leases are honoured. */
  lemma {:induction false} HonouredHistoryKeeps(cfg: Config, s: State, h: seq<Txn>)
    requires LeasedInv(cfg, s) && Honoured(cfg, s, h) && Exec(cfg, s, h).Some?
    ensures LeasedInv(cfg, Exec(cfg, s, h).value)
  {
    if h != [] {
      var before := Exec(cfg, s, h[..|h| - 1]).value;
      HonouredHistoryKeeps(cfg, s, h[..|h| - 1]);
      ApplyKeeps(cfg, before, h[|h| - 1]);
      ApplyKeepsShapes(cfg, before, h[|h| - 1]);
    }
  }
}
