/** What a step committed for the wrong step number does to its run. */
module StaleSteps {
  import opened Tables
  import opened Approvals
  import opened Runs
  import opened Dispatching
  import opened Working
  import opened BatchLaws
  import opened Lifecycle
  import opened Leases

  /** The run a plan's notices leave: the same one, or a finished one woken. */
  ghost predicate Noted(t: Thread, t': Thread) {
    && Shape(t') && t'.checkpoints == t.checkpoints
    && (t'.state == t.state || (t.state == Done && t'.state == Queued))
  }

  lemma NoteKeepsShape(s: State, r: nat, author: Principal, notice: Json, id: string, o: Outcome)
    requires !o.Waiting? && r < |s.threads| && Shape(s.threads[r]) && ResultOf(s, r, author, notice, id, o).Some?
    ensures var ts := ResultOf(s, r, author, notice, id, o).value.state.threads;
            |ts| == |s.threads| && Noted(s.threads[r], ts[r])
  {
    PostKeepsShape(s.threads[r], Conflict, notice, author);
  }

  lemma {:induction false} BatchNotes(cfg: Config, s: State, c: Claimed, w: Work, ceiling: Grants, i: nat)
    requires c.run < |s.threads| && Shape(s.threads[c.run]) && i <= |w.completion.calls|
    requires !DispatchAll(cfg, s, c, w, ceiling, i).Aborted?
    ensures var ts := DispatchAll(cfg, s, c, w, ceiling, i).state.threads;
            |ts| == |s.threads| && Noted(s.threads[c.run], ts[c.run])
    decreases |w.completion.calls| - i
  {
    if i < |w.completion.calls| {
      var p := w.completion.calls[i];
      var d := Dispatch(cfg, s, CtxAt(c, w, ceiling, i), CallFor(cfg, w, i));
      RunsStand(cfg, s, CtxAt(c, w, ceiling, i), CallFor(cfg, w, i));
      if !d.outcome.Waiting? {
        NoteKeepsShape(d.state, c.run, w.principal, w.notice(i), p.id, d.outcome);
        BatchNotes(cfg, ResultOf(d.state, c.run, w.principal, w.notice(i), p.id, d.outcome).value.state, c, w, ceiling, i + 1);
      }
    }
  }

  /** What the plan of a step on an idle run leaves. */
  lemma IdlePlanLeaves(cfg: Config, s: State, c: Claimed, w: Work)
    requires LeasedInv(cfg, s) && c.run < |s.threads| && WithinCap(s.threads[c.run], w.estimate)
    requires !DispatchAll(cfg, Planning(s, c, w), c, w, s.threads[c.run].ceiling, 0).Aborted?
    ensures var b := DispatchAll(cfg, Planning(s, c, w), c, w, s.threads[c.run].ceiling, 0);
            && |b.state.threads| == |s.threads| && b.state.threads == s.threads[c.run := b.state.threads[c.run]]
            && Noted(s.threads[c.run], b.state.threads[c.run]) && ApprovalsGrow(s.approvals, b.state.approvals)
            && (b.Finished? ==> SameQuestions(s.approvals, b.state.approvals))
            && (b.ParkedAt? ==> OneMoreQuestion(s.approvals, b.state.approvals, b.approval, c.run, c.step))
  {
    var planned := Planning(s, c, w);
    assert Shape(s.threads[c.run]) && Shape(planned.threads[c.run]);
    PlanningKeeps(cfg, s, c, w);
    BatchKeeps(cfg, planned, c, w, s.threads[c.run].ceiling, 0);
    BatchNotes(cfg, planned, c, w, s.threads[c.run].ceiling, 0);
  }

  /** Past its plan, a step of the wrong number on an idle run only checkpoints, or does nothing. */
  lemma IdleStepEnds(cfg: Config, s: State, c: Claimed, w: Work, t': Thread)
    requires c.run < |s.threads| && WithinCap(s.threads[c.run], w.estimate) && Step(cfg, s, c, w).Some?
    requires var b := DispatchAll(cfg, Planning(s, c, w), c, w, s.threads[c.run].ceiling, 0);
             !b.Aborted? && |b.state.threads| == |s.threads| && t' == b.state.threads[c.run]
    requires Shape(t') && t'.state !in {Running, Cancelled} && c.step != |t'.checkpoints| + 1
    ensures var b, s' := DispatchAll(cfg, Planning(s, c, w), c, w, s.threads[c.run].ceiling, 0), Step(cfg, s, c, w).value;
            && s'.approvals == b.state.approvals && |s'.threads| == |s.threads|
            && s'.threads == b.state.threads[c.run := s'.threads[c.run]]
            && (s'.threads[c.run] == t'
                || (b.Finished? && |s'.threads[c.run].checkpoints| == |t'.checkpoints| + 1
                    && s'.threads[c.run].checkpoints[|t'.checkpoints|].step == c.step))
  {
    assert c.step !in t'.queue.Keys;
    assert t'.queue - {c.step} == t'.queue;
  }

  lemma AskedWrongly(rows: seq<Approval>, rows': seq<Approval>, ts: seq<Thread>, ts': seq<Thread>, a: nat, r: nat, step: nat)
    requires Agreement(rows, ts) && Owned(rows, |ts|) && ApprovalsGrow(rows, rows') && OneMoreQuestion(rows, rows', a, r, step)
    requires r < |ts| == |ts'| && ts[r].state != Cancelled && ts'[r].state != Cancelled
    requires ts'[r].checkpoints == ts[r].checkpoints && step != |ts[r].checkpoints| + 1
    ensures !Agreement(rows', ts') && !SameQuestions(rows, rows')
  {
    assert Asking(rows', ts', a);
    if a < |rows| {
      assert Later(rows[a], rows'[a]);
      assert Asking(rows, ts, a);
    }
  }

  /** A step that is not the one after its run's last checkpoint keeps run, queue and questions in
      agreement exactly when its run is not running, it leaves no checkpoint, and it asks nothing. */
  lemma StaleStepKeepsShapesIff(cfg: Config, s: State, c: Claimed, w: Work)
    requires LeasedInv(cfg, s) && c.run < |s.threads| && s.threads[c.run].state != Cancelled
    requires c.step != |s.threads[c.run].checkpoints| + 1 && Step(cfg, s, c, w).Some?
    ensures ShapedAndAgreed(Step(cfg, s, c, w).value)
            <==> && s.threads[c.run].state != Running
                 && c.run < |Step(cfg, s, c, w).value.threads|
                 && Step(cfg, s, c, w).value.threads[c.run].checkpoints == s.threads[c.run].checkpoints
                 && SameQuestions(s.approvals, Step(cfg, s, c, w).value.approvals)
  {
    var t := s.threads[c.run];
    assert Shape(t);
    if t.state == Running {
      RunningStepKeepsShapesIff(cfg, s, c, w);
      assert c.step !in t.queue.Keys;
    } else if !WithinCap(t, w.estimate) {
      IdleRefusal(cfg, s, c, w);
    } else {
      IdlePlanLeaves(cfg, s, c, w);
      IdleStep(cfg, s, c, w);
    }
  }

  lemma IdleRefusal(cfg: Config, s: State, c: Claimed, w: Work)
    requires LeasedInv(cfg, s) && c.run < |s.threads| && s.threads[c.run].state !in {Running, Cancelled}
    requires c.step != |s.threads[c.run].checkpoints| + 1 && !WithinCap(s.threads[c.run], w.estimate)
    ensures var s' := Step(cfg, s, c, w).value;
            s'.threads == s.threads && s'.approvals == s.approvals && ShapedAndAgreed(s')
  {
    var t := s.threads[c.run];
    assert Shape(t) && c.step !in t.queue.Keys;
    assert t.queue - {c.step} == t.queue;
    assert Step(cfg, s, c, w).value.threads == s.threads;
  }

  lemma IdleStep(cfg: Config, s: State, c: Claimed, w: Work)
    requires LeasedInv(cfg, s) && c.run < |s.threads| && s.threads[c.run].state !in {Running, Cancelled}
    requires c.step != |s.threads[c.run].checkpoints| + 1 && Step(cfg, s, c, w).Some? && WithinCap(s.threads[c.run], w.estimate)
    ensures c.run < |Step(cfg, s, c, w).value.threads|
    ensures ShapedAndAgreed(Step(cfg, s, c, w).value)
            <==> Step(cfg, s, c, w).value.threads[c.run].checkpoints == s.threads[c.run].checkpoints
                 && SameQuestions(s.approvals, Step(cfg, s, c, w).value.approvals)
  {
    IdlePlanLeaves(cfg, s, c, w);
    var b := DispatchAll(cfg, Planning(s, c, w), c, w, s.threads[c.run].ceiling, 0);
    IdleStepEnds(cfg, s, c, w, b.state.threads[c.run]);
    IdleStepFrom(s, c, b, Step(cfg, s, c, w).value);
  }

  lemma IdleStepFrom(s: State, c: Claimed, b: Batch, s': State)
    requires ShapedAndAgreed(s) && Owned(s.approvals, |s.threads|) && c.run < |s.threads| && !b.Aborted?
    requires s.threads[c.run].state !in {Running, Cancelled} && |b.state.threads| == |s.threads|
    requires Noted(s.threads[c.run], b.state.threads[c.run]) && c.step != |b.state.threads[c.run].checkpoints| + 1
    requires b.state.threads == s.threads[c.run := b.state.threads[c.run]]
    requires ApprovalsGrow(s.approvals, b.state.approvals)
    requires if b.Finished? then SameQuestions(s.approvals, b.state.approvals)
             else OneMoreQuestion(s.approvals, b.state.approvals, b.approval, c.run, c.step)
    requires s'.approvals == b.state.approvals && |s'.threads| == |s.threads|
    requires s'.threads == b.state.threads[c.run := s'.threads[c.run]]
    requires s'.threads[c.run] == b.state.threads[c.run]
             || (b.Finished? && |s'.threads[c.run].checkpoints| == |b.state.threads[c.run].checkpoints| + 1
                 && s'.threads[c.run].checkpoints[|b.state.threads[c.run].checkpoints|].step == c.step)
    ensures ShapedAndAgreed(s')
            <==> s'.threads[c.run].checkpoints == s.threads[c.run].checkpoints && SameQuestions(s.approvals, s'.approvals)
  {
    IdleOutcome(s, s', c.run, c.step, b.state.threads[c.run], if b.ParkedAt? then Some(b.approval) else None);
  }

  lemma IdleOutcome(s: State, s': State, r: nat, step: nat, t': Thread, asked: Option<nat>)
    requires ShapedAndAgreed(s) && Owned(s.approvals, |s.threads|) && r < |s.threads|
    requires s.threads[r].state !in {Running, Cancelled} && Noted(s.threads[r], t') && step != |t'.checkpoints| + 1
    requires |s'.threads| == |s.threads| && s'.threads == s.threads[r := s'.threads[r]]
    requires ApprovalsGrow(s.approvals, s'.approvals)
    requires if asked.None? then SameQuestions(s.approvals, s'.approvals)
             else OneMoreQuestion(s.approvals, s'.approvals, asked.value, r, step)
    requires s'.threads[r] == t'
             || (asked.None? && |s'.threads[r].checkpoints| == |t'.checkpoints| + 1
                 && s'.threads[r].checkpoints[|t'.checkpoints|].step == step)
    ensures ShapedAndAgreed(s')
            <==> s'.threads[r].checkpoints == s.threads[r].checkpoints && SameQuestions(s.approvals, s'.approvals)
  {
    if s'.threads[r] != t' {
      assert !Shape(s'.threads[r]);
    } else if asked.Some? {
      AskedWrongly(s.approvals, s'.approvals, s.threads, s'.threads, asked.value, r, step);
    } else {
      ReplacedKeepsShapes(s, r, t', s'.approvals);
    }
  }
}
