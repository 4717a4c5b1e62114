/** Crashes are invisible: a claim whose step never committed, and a reaped lease, leave no trace but
    the leases themselves. */
module Crashes {
  import opened Tables
  import opened Ledgers
  import opened Approvals
  import opened Runs
  import opened Dispatching
  import opened Working
  import opened Histories
  import opened RunLaws
  import opened DispatchTheorems
  import opened BatchLaws
  import opened Lifecycle
  import opened Leases

  // ---- the quiet history --------------------------------------------------------------------

  /** The claims whose step committed somewhere in the history. */
  ghost function Worked(h: seq<Txn>): set<Claimed> {
    set i | 0 <= i < |h| && h[i].WorkStep? :: h[i].claim
  }

  predicate Noise(x: Txn, kept: set<Claimed>) {
    x.ReapLeases? || (x.ClaimStep? && x.claim !in kept)
  }

  /** The history without its reaps and without the claims that came to nothing. */
  function Quiet(h: seq<Txn>, kept: set<Claimed>): seq<Txn> {
    if h == [] then []
    else Quiet(h[..|h| - 1], kept) + if Noise(h[|h| - 1], kept) then [] else [h[|h| - 1]]
  }

  /** A run up to its leases, which is also what tells `running` from `queued`. */
  function Settled(t: Thread): Thread {
    t.(state := if t.state == Running then Queued else t.state, queue := map k | k in t.queue :: None)
  }

  function Blurred(s: State): State {
    s.(threads := seq(|s.threads|, r requires 0 <= r < |s.threads| => Settled(s.threads[r])))
  }

  function TimeOf(x: Txn): Option<int> {
    match x
    case ClaimStep(_, now) => Some(now)
    case ReapLeases(when) => Some(when)
    case _ => None
  }

  /** Claims and reaps read clocks that do not run backwards. */
  ghost predicate TimesClimb(h: seq<Txn>) {
    forall i, j :: 0 <= i < j < |h| && TimeOf(h[i]).Some? && TimeOf(h[j]).Some? ==>
      TimeOf(h[i]).value <= TimeOf(h[j]).value
  }

  // ---- two runs that differ only in leases --------------------------------------------------

  /** `t` with its noise and `t'` without: the same up to leases; a lease whose step will commit is the
      same in both; and a lease only `t'` still shows has run out by `clock`. */
  ghost predicate Twin(t: Thread, t': Thread, r: nat, kept: set<Claimed>, clock: int) {
    && Settled(t) == Settled(t')
    && (forall k :: k in t.queue && t.queue[k].Some? && Claimed(r, k, t.queue[k].value) in kept ==>
          k in t'.queue && t'.queue[k] == t.queue[k])
    && (forall k :: k in t'.queue && t'.queue[k].Some? ==>
          t'.queue[k].value.until <= clock || (k in t.queue && t.queue[k] == t'.queue[k]))
  }

  ghost predicate Twins(s: State, s': State, kept: set<Claimed>, clock: int) {
    && s' == s.(threads := s'.threads)
    && |s'.threads| == |s.threads|
    && forall r :: 0 <= r < |s.threads| ==> Twin(s.threads[r], s'.threads[r], r, kept, clock)
  }

  lemma SameKeys(t: Thread, t': Thread)
    requires Settled(t) == Settled(t')
    ensures t'.queue.Keys == t.queue.Keys
    ensures t'.state == t.state || (t.state in {Queued, Running} && t'.state in {Queued, Running})
    ensures t' == t.(state := t'.state, queue := t'.queue)
  {
    assert Settled(t).queue.Keys == t.queue.Keys;
    assert Settled(t').queue.Keys == t'.queue.Keys;
  }

  lemma TwinsBlurAlike(s: State, s': State, kept: set<Claimed>, clock: int)
    requires Twins(s, s', kept, clock)
    ensures Blurred(s) == Blurred(s')
  {
    assert Blurred(s).threads == Blurred(s').threads;
  }

  /** Rows without a lease are twins of each other, whatever is kept. */
  lemma UnleasedTwins(t: Thread, t': Thread, r: nat, kept: set<Claimed>, clock: int)
    requires t' == t && (forall k :: k in t.queue ==> t.queue[k] == None)
    ensures Twin(t, t', r, kept, clock)
  {
  }

  // ---- transactions that ignore leases ------------------------------------------------------

  lemma PostTwins(t: Thread, t': Thread, r: nat, kept: set<Claimed>, clock: int, kind: MessageKind, body: Json, p: Principal)
    requires Twin(t, t', r, kept, clock)
    ensures Post(t, kind, body, p).Posted? == Post(t', kind, body, p).Posted?
    ensures Post(t, kind, body, p).Posted? ==>
              Twin(Post(t, kind, body, p).thread, Post(t', kind, body, p).thread, r, kept, clock)
  {
    SameKeys(t, t');
    if t.state !in {Cancelled, Failed} {
      var ms := t.mailbox + [Message(LastSeq(t.mailbox) + 1, kind, body, p)];
      MailTwins(t, t', r, kept, clock, ms);
      if t.state == Done { WakeTwins(t.(mailbox := ms), t'.(mailbox := ms), r, kept, clock); }
      PostIsMailThenWake(t, kind, body, p);
      PostIsMailThenWake(t', kind, body, p);
    }
  }

  lemma PostIsMailThenWake(t: Thread, kind: MessageKind, body: Json, p: Principal)
    requires t.state !in {Cancelled, Failed}
    ensures var woken := Wake(t.(mailbox := t.mailbox + [Message(LastSeq(t.mailbox) + 1, kind, body, p)]));
            Post(t, kind, body, p) == if woken.None? then Collided else Posted(woken.value)
  {
  }

  lemma MailTwins(t: Thread, t': Thread, r: nat, kept: set<Claimed>, clock: int, ms: seq<Message>)
    requires Twin(t, t', r, kept, clock)
    ensures Twin(t.(mailbox := ms), t'.(mailbox := ms), r, kept, clock)
  {
    assert Settled(t.(mailbox := ms)) == Settled(t).(mailbox := ms);
    assert Settled(t'.(mailbox := ms)) == Settled(t').(mailbox := ms);
  }

  lemma WakeTwins(t: Thread, t': Thread, r: nat, kept: set<Claimed>, clock: int)
    requires Twin(t, t', r, kept, clock) && t.state == Done
    ensures Wake(t).Some? == Wake(t').Some?
    ensures Wake(t).Some? ==> Twin(Wake(t).value, Wake(t').value, r, kept, clock)
  {
    SameKeys(t, t');
    var step := LastStep(t.checkpoints) + 1;
    if step !in t.queue {
      assert Settled(Wake(t).value).queue == Settled(t).queue[step := None];
      assert Settled(Wake(t').value).queue == Settled(t').queue[step := None];
    }
  }

  lemma ResumeTwins(t: Thread, t': Thread, r: nat, kept: set<Claimed>, clock: int, step: nat)
    requires Twin(t, t', r, kept, clock)
    ensures Resume(t, step).Some? == Resume(t', step).Some?
    ensures Resume(t, step).Some? ==> Twin(Resume(t, step).value, Resume(t', step).value, r, kept, clock)
  {
    SameKeys(t, t');
  }

  lemma SettleTwins(s: State, s': State, kept: set<Claimed>, clock: int, a: nat, answered: Approval)
    requires Twins(s, s', kept, clock) && a < |s.approvals|
    ensures Settle(s, a, answered).Some? == Settle(s', a, answered).Some?
    ensures Settle(s, a, answered).Some? ==> Twins(Settle(s, a, answered).value, Settle(s', a, answered).value, kept, clock)
  {
    if answered.run < |s.threads| {
      ResumeTwins(s.threads[answered.run], s'.threads[answered.run], answered.run, kept, clock, answered.step);
    }
  }

  lemma BodyTwins(cfg: Config, s: State, s': State, kept: set<Claimed>, clock: int, ctx: Ctx, op: Operation, args: Json)
    requires Twins(s, s', kept, clock)
    ensures var x, x' := RunBody(cfg, s, ctx, op, args), RunBody(cfg, s', ctx, op, args);
            && x.Some? == x'.Some?
            && (x.Some? ==> x'.value.1 == x.value.1 && Twins(x.value.0, x'.value.0, kept, clock))
  {
    match op.body
    case Plain(_) =>
    case Decide(parse) =>
      var d := parse(args);
      if d.approval < |s.approvals| {
        var a := s.approvals[d.approval];
        SettleTwins(s, s', kept, clock, d.approval, Runs.Answer(a, d, ctx.principal));
        if a.run < |s.threads| { SameKeys(s.threads[a.run], s'.threads[a.run]); }
      }
  }

  ghost predicate DispatchedAlike(d: Dispatched, d': Dispatched, kept: set<Claimed>, clock: int) {
    && d.Ran? == d'.Ran?
    && (d.Ran? ==> d'.outcome == d.outcome && Twins(d.state, d'.state, kept, clock))
  }

  lemma ReadTwins(cfg: Config, s: State, s': State, kept: set<Claimed>, clock: int, ctx: Ctx, call: Call, op: Operation, level: Level)
    requires Twins(s, s', kept, clock)
    ensures DispatchedAlike(ReadCall(cfg, s, ctx, call, op, level), ReadCall(cfg, s', ctx, call, op, level), kept, clock)
  {
    BodyTwins(cfg, ReadFrom(s, ctx, call, op, level), ReadFrom(s', ctx, call, op, level), kept, clock, ctx, op, call.args);
  }

  lemma WriteTwins(cfg: Config, s: State, s': State, kept: set<Claimed>, clock: int, ctx: Ctx, call: Call, op: Operation, level: Level)
    requires Twins(s, s', kept, clock)
    ensures DispatchedAlike(WriteCall(cfg, s, ctx, call, op, level), WriteCall(cfg, s', ctx, call, op, level), kept, clock)
  {
    AskTwins(cfg, s, s', kept, clock, ctx, call, op, level);
    LandTwins(cfg, s, s', kept, clock, ctx, call, op, level);
  }

  /** Neither write gets as far as its body. */
  lemma AskTwins(cfg: Config, s: State, s': State, kept: set<Claimed>, clock: int, ctx: Ctx, call: Call, op: Operation, level: Level)
    requires Twins(s, s', kept, clock)
    ensures (op.target.Some? && call.expected.None?) || AggregateOf(call.op, op, call.args).None?
            || (level == AsksFirst && ApprovalFor(s, ctx, call, op, level).None?) ==>
              DispatchedAlike(WriteCall(cfg, s, ctx, call, op, level), WriteCall(cfg, s', ctx, call, op, level), kept, clock)
  {
    assert ApprovalFor(s', ctx, call, op, level) == ApprovalFor(s, ctx, call, op, level);
  }

  /** Both writes run their bodies. */
  lemma LandTwins(cfg: Config, s: State, s': State, kept: set<Claimed>, clock: int, ctx: Ctx, call: Call, op: Operation, level: Level)
    requires Twins(s, s', kept, clock)
    ensures (op.target.Some? ==> call.expected.Some?) && AggregateOf(call.op, op, call.args).Some?
            && (level == AsksFirst ==> ApprovalFor(s, ctx, call, op, level).Some?) ==>
              DispatchedAlike(WriteCall(cfg, s, ctx, call, op, level), WriteCall(cfg, s', ctx, call, op, level), kept, clock)
  {
    var c := ConsumeFor(ctx, call, op, Some(|s.ledger.actions|));
    var from := if level == AsksFirst then s.(approvals := ConsumeAll(s.approvals, c)) else s;
    var from' := if level == AsksFirst then s'.(approvals := ConsumeAll(s'.approvals, c)) else s';
    BodyTwins(cfg, from, from', kept, clock, ctx, op, call.args);
    if (op.target.Some? ==> call.expected.Some?) && AggregateOf(call.op, op, call.args).Some?
       && (level == AsksFirst ==> ApprovalFor(s, ctx, call, op, level).Some?)
       && RunBody(cfg, from, ctx, op, call.args).Some?
    {
      WriteLands(cfg, s, ctx, call, op, level);
      WriteLands(cfg, s', ctx, call, op, level);
      assert Landing(cfg, s', ctx, call, op, level) == Landing(cfg, s, ctx, call, op, level);
    }
  }

  lemma DispatchTwins(cfg: Config, s: State, s': State, kept: set<Claimed>, clock: int, ctx: Ctx, call: Call)
    requires Twins(s, s', kept, clock)
    ensures DispatchedAlike(Dispatch(cfg, s, ctx, call), Dispatch(cfg, s', ctx, call), kept, clock)
  {
    var r := ReservationFor(ctx, call);
    if call.op in cfg.registry && StoredAction(s.ledger, r).None? {
      AdmitTwins(cfg, Reserve(s, r), Reserve(s', r), kept, clock, ctx, call);
    }
  }

  lemma AdmitTwins(cfg: Config, s: State, s': State, kept: set<Claimed>, clock: int, ctx: Ctx, call: Call)
    requires Twins(s, s', kept, clock) && call.op in cfg.registry
    ensures DispatchedAlike(Admit(cfg, s, ctx, call), Admit(cfg, s', ctx, call), kept, clock)
  {
    var op, level := cfg.registry[call.op], EffectiveLevel(s, ctx, call.op);
    assert EffectiveLevel(s', ctx, call.op) == level;
    if level.Some? {
      ReadTwins(cfg, s, s', kept, clock, ctx, call, op, level.value);
      WriteTwins(cfg, s, s', kept, clock, ctx, call, op, level.value);
    }
  }

  // ---- a step, which looks at no run but its own --------------------------------------------

  function Grafted(s: State, ts: seq<Thread>, r: nat): State
    requires r < |s.threads| == |ts|
  {
    s.(threads := ts[r := s.threads[r]])
  }

  ghost predicate BatchAlike(b: Batch, b': Batch, ts: seq<Thread>, r: nat)
    requires r < |ts|
  {
    match b
    case Aborted => b' == Aborted
    case Finished(s, rs) => |s.threads| == |ts| && b' == Finished(Grafted(s, ts, r), rs)
    case ParkedAt(s, rs, a, op) => |s.threads| == |ts| && b' == ParkedAt(Grafted(s, ts, r), rs, a, op)
  }

  lemma CallGrafts(cfg: Config, s: State, ts: seq<Thread>, c: Claimed, w: Work, ceiling: Grants, i: nat)
    requires c.run < |s.threads| == |ts| && i < |w.completion.calls|
    ensures var p := w.completion.calls[i];
            var ctx := CtxAt(c, w, ceiling, i);
            var d, d' := Dispatch(cfg, s, ctx, CallFor(cfg, w, i)),
                         Dispatch(cfg, Grafted(s, ts, c.run), ctx, CallFor(cfg, w, i));
            && d.Ran? == d'.Ran?
            && (d.Ran? ==> d.state.threads == s.threads && d'.outcome == d.outcome && d'.state == Grafted(d.state, ts, c.run))
  {
    var p := w.completion.calls[i];
    var ctx := CtxAt(c, w, ceiling, i);
    var call := CallFor(cfg, w, i);
    InRunIgnoresRuns(cfg, s, ctx, call, ts[c.run := s.threads[c.run]]);
    if Dispatch(cfg, s, ctx, call).Ran? { RunsStand(cfg, s, ctx, call); }
  }

  lemma {:induction false} BatchGrafts(cfg: Config, s: State, ts: seq<Thread>, c: Claimed, w: Work, ceiling: Grants, i: nat)
    requires c.run < |s.threads| == |ts| && i <= |w.completion.calls|
    ensures BatchAlike(DispatchAll(cfg, s, c, w, ceiling, i), DispatchAll(cfg, Grafted(s, ts, c.run), c, w, ceiling, i), ts, c.run)
    decreases |w.completion.calls| - i
  {
    if i < |w.completion.calls| {
      var p := w.completion.calls[i];
      CallGrafts(cfg, s, ts, c, w, ceiling, i);
      var d := Dispatch(cfg, s, CtxAt(c, w, ceiling, i), CallFor(cfg, w, i));
      if d.Ran? && !d.outcome.Waiting? {
        NoticeGrafts(d.state, ts, c.run, w.principal, w.notice(i), p.id, d.outcome);
        var a := ResultOf(d.state, c.run, w.principal, w.notice(i), p.id, d.outcome);
        if a.Some? { BatchGrafts(cfg, a.value.state, ts, c, w, ceiling, i + 1); }
      }
    }
  }

  lemma NoticeGrafts(s: State, ts: seq<Thread>, r: nat, author: Principal, notice: Json, id: string, o: Outcome)
    requires !o.Waiting? && r < |s.threads| == |ts|
    ensures var a, a' := ResultOf(s, r, author, notice, id, o), ResultOf(Grafted(s, ts, r), r, author, notice, id, o);
            && a.Some? == a'.Some?
            && (a.Some? ==> |a.value.state.threads| == |ts| && a'.value == Reported(Grafted(a.value.state, ts, r), a.value.result))
  {
    if ResultOf(s, r, author, notice, id, o).Some? {
      var s1 := ResultOf(s, r, author, notice, id, o).value.state;
      assert Grafted(s1, ts, r).threads == Grafted(s, ts, r).threads[r := s1.threads[r]];
    }
  }

  lemma StepGrafts(cfg: Config, s: State, ts: seq<Thread>, c: Claimed, w: Work)
    requires c.run < |s.threads| == |ts|
    ensures var x, x' := Step(cfg, s, c, w), Step(cfg, Grafted(s, ts, c.run), c, w);
            && x.Some? == x'.Some?
            && (x.Some? ==> |x.value.threads| == |ts| && x'.value == Grafted(x.value, ts, c.run))
  {
    var t := s.threads[c.run];
    if WithinCap(t, w.estimate) {
      var planned := Planning(s, c, w);
      assert Planning(Grafted(s, ts, c.run), c, w) == Grafted(planned, ts, c.run);
      BatchGrafts(cfg, planned, ts, c, w, t.ceiling, 0);
      EndGrafts(DispatchAll(cfg, planned, c, w, t.ceiling, 0), ts, c, w, ReadUpTo(t, w.visible));
    } else {
      assert RefuseStep(Grafted(s, ts, c.run), c, w) == Grafted(RefuseStep(s, c, w), ts, c.run);
    }
  }

  lemma EndGrafts(b: Batch, ts: seq<Thread>, c: Claimed, w: Work, read: nat)
    requires c.run < |ts| && (!b.Aborted? ==> |b.state.threads| == |ts|)
    ensures b.ParkedAt? ==>
              var x := ParkStep(b.state, c, w, b.approval, b.op);
              |x.threads| == |ts| && ParkStep(Grafted(b.state, ts, c.run), c, w, b.approval, b.op) == Grafted(x, ts, c.run)
    ensures b.Finished? ==>
              var cp := Checkpoint(c.step, read, w.completion.text, b.results);
              var x, x' := FinishStep(b.state, c, cp), FinishStep(Grafted(b.state, ts, c.run), c, cp);
              x.Some? == x'.Some? && (x.Some? ==> |x.value.threads| == |ts| && x'.value == Grafted(x.value, ts, c.run))
  {
    if b.ParkedAt? {
      var x := ParkStep(b.state, c, w, b.approval, b.op);
      assert Grafted(x, ts, c.run).threads == Grafted(b.state, ts, c.run).threads[c.run := x.threads[c.run]];
    } else if b.Finished? {
      var cp := Checkpoint(c.step, read, w.completion.text, b.results);
      var x := FinishStep(b.state, c, cp);
      if x.Some? {
        assert Grafted(x.value, ts, c.run).threads == Grafted(b.state, ts, c.run).threads[c.run := x.value.threads[c.run]];
      }
    }
  }

  /** The step leaves its own run with no lease at all. */
  lemma StepLeavesNoLease(cfg: Config, s: State, c: Claimed, w: Work)
    requires LeasedInv(cfg, s) && Holds(s, c) && Step(cfg, s, c, w).Some?
    ensures var s' := Step(cfg, s, c, w).value;
            && |s'.threads| == |s.threads|
            && (forall k :: k in s'.threads[c.run].queue ==> s'.threads[c.run].queue[k] == None)
            && s'.threads == s.threads[c.run := s'.threads[c.run]]
  {
    var t := s.threads[c.run];
    assert Shape(t);
    StepReplacesOne(cfg, s, c, w);
    if t.state == Cancelled {
      StepKeeps(cfg, s, c, w);
      assert RunLater(t, Step(cfg, s, c, w).value.threads[c.run]);
    } else {
      HeldStepIsNext(t, c);
      RunningLeavesNoLease(cfg, s, c, w);
    }
  }

  lemma StepReplacesOne(cfg: Config, s: State, c: Claimed, w: Work)
    requires LeasedInv(cfg, s) && Holds(s, c) && Step(cfg, s, c, w).Some?
    ensures var s' := Step(cfg, s, c, w).value;
            |s'.threads| == |s.threads| && s'.threads == s.threads[c.run := s'.threads[c.run]]
  {
    var t := s.threads[c.run];
    assert Shape(t);
    if t.state != Cancelled { HeldStepIsNext(t, c); }
    if WithinCap(t, w.estimate) { PlanLeaves(cfg, s, c, w); }
  }

  lemma RunningLeavesNoLease(cfg: Config, s: State, c: Claimed, w: Work)
    requires LeasedInv(cfg, s) && c.run < |s.threads| && s.threads[c.run].state == Running
    requires s.threads[c.run].queue == map[c.step := Some(c.lease)] && Step(cfg, s, c, w).Some?
    requires c.run < |Step(cfg, s, c, w).value.threads|
    ensures var t' := Step(cfg, s, c, w).value.threads[c.run];
            forall k :: k in t'.queue ==> t'.queue[k] == None
  {
    if WithinCap(s.threads[c.run], w.estimate) {
      RunningStepLeaves(cfg, s, c, w);
      var b := DispatchAll(cfg, Planning(s, c, w), c, w, s.threads[c.run].ceiling, 0);
      SettlingLeavesNoLease(b.state.threads[c.run], c,
                            Checkpoint(c.step, ReadUpTo(s.threads[c.run], w.visible), w.completion.text, if b.Finished? then b.results else []));
    } else {
      RefusingLeavesNoLease(s, c, w);
    }
  }

  lemma SettlingLeavesNoLease(t: Thread, c: Claimed, cp: Checkpoint)
    requires t.queue == map[c.step := Some(c.lease)]
    ensures Stop(t, c.step, WaitingApproval, None).queue == map[]
    ensures Advance(t, c.step, cp).Some? ==>
              forall k :: k in Advance(t, c.step, cp).value.queue ==> Advance(t, c.step, cp).value.queue[k] == None
  {
  }

  lemma RefusingLeavesNoLease(s: State, c: Claimed, w: Work)
    requires c.run < |s.threads| && s.threads[c.run].queue == map[c.step := Some(c.lease)]
    ensures forall k :: k in RefuseStep(s, c, w).threads[c.run].queue ==> RefuseStep(s, c, w).threads[c.run].queue[k] == None
  {
  }

  lemma StepTwins(cfg: Config, s: State, s': State, kept: set<Claimed>, clock: int, c: Claimed, w: Work)
    requires LeasedInv(cfg, s) && LeasedInv(cfg, s') && Twins(s, s', kept, clock)
    requires c in kept && Holds(s, c) && Step(cfg, s, c, w).Some?
    ensures Holds(s', c) && Step(cfg, s', c, w).Some?
    ensures Twins(Step(cfg, s, c, w).value, Step(cfg, s', c, w).value, kept, clock)
  {
    var t, t' := s.threads[c.run], s'.threads[c.run];
    assert Twin(t, t', c.run, kept, clock) && Shape(t) && Shape(t');
    SameKeys(t, t');
    if t.state != Cancelled {
      HeldStepIsNext(t, c);
      HeldStepIsNext(t', c);
    } else {
      assert t.queue.Keys == {} && t'.queue.Keys == {};
    }
    assert t' == t;
    assert s' == Grafted(s, s'.threads, c.run);
    StepGrafts(cfg, s, s'.threads, c, w);
    StepLeavesNoLease(cfg, s, c, w);
    var last := Step(cfg, s, c, w).value.threads[c.run];
    UnleasedTwins(last, last, c.run, kept, clock);
  }

  // ---- histories ----------------------------------------------------------------------------

  /** A claim that is kept is claimed on both sides; one that is not leaves only its lease. */
  lemma HeldTwins(t: Thread, t': Thread, kept: set<Claimed>, c: Claimed, now: int)
    requires Twin(t, t', c.run, kept, now) && c.lease.until == now + LEASE && Claimable(t, c.step, now)
    ensures var held, held' := t.(state := Running, queue := t.queue[c.step := Some(c.lease)]),
                               t'.(state := Running, queue := t'.queue[c.step := Some(c.lease)]);
            if c in kept then Claimable(t', c.step, now) && Twin(held, held', c.run, kept, now)
            else Twin(held, t', c.run, kept, now)
  {
    SameKeys(t, t');
    var held := t.(state := Running, queue := t.queue[c.step := Some(c.lease)]);
    var held' := t'.(state := Running, queue := t'.queue[c.step := Some(c.lease)]);
    assert Settled(held).queue == Settled(t).queue;
    assert Settled(held').queue == Settled(t').queue;
  }

  lemma ClaimTwins(s: State, s': State, kept: set<Claimed>, c: Claimed, now: int)
    requires Twins(s, s', kept, now) && c.lease.until == now + LEASE && Claim(s, c.run, c.step, c.lease.worker, now).Some?
    ensures var x := Claim(s, c.run, c.step, c.lease.worker, now).value;
            if c in kept
            then var x' := Claim(s', c.run, c.step, c.lease.worker, now);
                 x'.Some? && Twins(x, x'.value, kept, now)
            else Twins(x, s', kept, now)
  {
    HeldTwins(s.threads[c.run], s'.threads[c.run], kept, c, now);
  }

  lemma ReapTwins(s: State, s': State, kept: set<Claimed>, when: int)
    requires Twins(s, s', kept, when)
    ensures Twins(Reap(s, when), s', kept, when)
  {
    forall r | 0 <= r < |s.threads| ensures Twin(Reaped(s.threads[r], when), s'.threads[r], r, kept, when) {
      assert Twin(s.threads[r], s'.threads[r], r, kept, when);
      SameKeys(s.threads[r], s'.threads[r]);
      assert Settled(Reaped(s.threads[r], when)).queue == Settled(s.threads[r]).queue;
    }
  }

  /** One transaction, in the history and in its quiet copy. */
  lemma ApplyTwins(cfg: Config, s: State, s': State, kept: set<Claimed>, clock: int, x: Txn)
    requires LeasedInv(cfg, s) && LeasedInv(cfg, s') && Twins(s, s', kept, clock)
    requires Apply(cfg, s, x).Some? && LeaseKept(s, x) && (x.WorkStep? ==> x.claim in kept)
    requires TimeOf(x).Some? ==> TimeOf(x).value == clock
    ensures if Noise(x, kept) then Twins(Apply(cfg, s, x).value, s', kept, clock)
            else Apply(cfg, s', x).Some? && LeaseKept(s', x) && Twins(Apply(cfg, s, x).value, Apply(cfg, s', x).value, kept, clock)
  {
    match x
    case CreateRun(p, run) => CreateTwins(s, s', kept, clock, p, run);
    case SendMessage(r, body, p) => SendTwins(s, s', kept, clock, r, body, p);
    case CancelRun(r, p) => CancelTwins(s, s', kept, clock, r, p);
    case ClaimStep(c, now) => ClaimTwins(s, s', kept, c, now);
    case WorkStep(c, w) => StepTwins(cfg, s, s', kept, clock, c, w);
    case CallOperation(p, call, now) => DispatchTwins(cfg, s, s', kept, clock, Ctx(p, None, None, now), call);
    case ReapLeases(when) => ReapTwins(s, s', kept, when);
    case ExpireApproval(a, when) => ExpireTwins(s, s', kept, clock, a, when);
    case SetGrants(g) =>
  }

  lemma SendTwins(s: State, s': State, kept: set<Claimed>, clock: int, r: nat, body: Json, p: Principal)
    requires Twins(s, s', kept, clock) && Send(s, r, body, p).Some?
    ensures Send(s', r, body, p).Some? && Twins(Send(s, r, body, p).value, Send(s', r, body, p).value, kept, clock)
  {
    PostTwins(s.threads[r], s'.threads[r], r, kept, clock, Steer, body, p);
  }

  lemma ExpireTwins(s: State, s': State, kept: set<Claimed>, clock: int, a: nat, when: int)
    requires Twins(s, s', kept, clock) && Expire(s, a, when).Some?
    ensures Expire(s', a, when).Some? && Twins(Expire(s, a, when).value, Expire(s', a, when).value, kept, clock)
  {
    if s.approvals[a].state == Requested {
      SettleTwins(s, s', kept, clock, a, s.approvals[a].(state := Expired, reason := Some(EXPIRED)));
    }
  }

  lemma CreateTwins(s: State, s': State, kept: set<Claimed>, clock: int, p: Principal, run: NewRun)
    requires Twins(s, s', kept, clock) && Create(s, p, run).Some?
    ensures Create(s', p, run).Some? && Twins(Create(s, p, run).value, Create(s', p, run).value, kept, clock)
  {
    var x, x' := Create(s, p, run).value, Create(s', p, run).value;
    UnleasedTwins(x.threads[|s.threads|], x'.threads[|s.threads|], |s.threads|, kept, clock);
  }

  lemma CancelTwins(s: State, s': State, kept: set<Claimed>, clock: int, r: nat, p: Principal)
    requires Twins(s, s', kept, clock) && Cancel(s, r, p).Some?
    ensures Cancel(s', r, p).Some? && Twins(Cancel(s, r, p).value, Cancel(s', r, p).value, kept, clock)
  {
    SameKeys(s.threads[r], s'.threads[r]);
    UnleasedTwins(Cancel(s, r, p).value.threads[r], Cancel(s', r, p).value.threads[r], r, kept, clock);
  }

  lemma LaterClock(s: State, s': State, kept: set<Claimed>, clock: int, clock': int)
    requires Twins(s, s', kept, clock) && clock <= clock'
    ensures Twins(s, s', kept, clock')
  {
    forall r | 0 <= r < |s.threads| ensures Twin(s.threads[r], s'.threads[r], r, kept, clock') {
      assert Twin(s.threads[r], s'.threads[r], r, kept, clock);
    }
  }

  lemma TwinOfItself(s: State, kept: set<Claimed>, clock: int)
    ensures Twins(s, s, kept, clock)
  {
  }

  lemma {:induction false} QuietHistory(cfg: Config, s: State, h: seq<Txn>, kept: set<Claimed>, clock: int)
    requires LeasedInv(cfg, s) && Honoured(cfg, s, h) && Exec(cfg, s, h).Some? && TimesClimb(h)
    requires forall i :: 0 <= i < |h| && h[i].WorkStep? ==> h[i].claim in kept
    requires forall i :: 0 <= i < |h| && TimeOf(h[i]).Some? ==> TimeOf(h[i]).value <= clock
    ensures Exec(cfg, s, Quiet(h, kept)).Some? && Honoured(cfg, s, Quiet(h, kept))
    ensures Twins(Exec(cfg, s, h).value, Exec(cfg, s, Quiet(h, kept)).value, kept, clock)
  {
    if h == [] {
      TwinOfItself(s, kept, clock);
    } else {
      var n := |h| - 1;
      var x := h[n];
      var now := if TimeOf(x).Some? then TimeOf(x).value else clock;
      QuietHistory(cfg, s, h[..n], kept, now);
      var m, m' := Exec(cfg, s, h[..n]).value, Exec(cfg, s, Quiet(h[..n], kept)).value;
      HonouredHistoryKeeps(cfg, s, h[..n]);
      HonouredHistoryKeeps(cfg, s, Quiet(h[..n], kept));
      ApplyTwins(cfg, m, m', kept, now, x);
      if !Noise(x, kept) {
        assert Quiet(h, kept)[..|Quiet(h, kept)| - 1] == Quiet(h[..n], kept);
      } else {
        assert Quiet(h, kept) == Quiet(h[..n], kept);
      }
      LaterClock(Exec(cfg, s, h).value, Exec(cfg, s, Quiet(h, kept)).value, kept, now, clock);
    }
  }

  /** Dropping every claim whose step never committed, and every reap, from any history that honours
      its leases gives a history that still runs, still honours its leases, and ends with the same
      mailboxes, checkpoints, approvals, ledger, keys, data and queue rows, and the same run states up
      to telling `running` from `queued`. */
  lemma CrashesAreInvisible(cfg: Config, s: State, h: seq<Txn>)
    requires LeasedInv(cfg, s) && Honoured(cfg, s, h) && Exec(cfg, s, h).Some? && TimesClimb(h)
    ensures var quiet := Quiet(h, Worked(h));
            && Exec(cfg, s, quiet).Some? && Honoured(cfg, s, quiet)
            && Blurred(Exec(cfg, s, quiet).value) == Blurred(Exec(cfg, s, h).value)
  {
    var clock := LastTime(h);
    QuietHistory(cfg, s, h, Worked(h), clock);
    TwinsBlurAlike(Exec(cfg, s, h).value, Exec(cfg, s, Quiet(h, Worked(h))).value, Worked(h), clock);
  }

  ghost function LastTime(h: seq<Txn>): (clock: int)
    requires TimesClimb(h)
    ensures forall i :: 0 <= i < |h| && TimeOf(h[i]).Some? ==> TimeOf(h[i]).value <= clock
  {
    if h == [] then 0
    else if TimeOf(h[|h| - 1]).Some? then TimeOf(h[|h| - 1]).value
    else LastTime(h[..|h| - 1])
  }
}
