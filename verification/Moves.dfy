/** What creating, steering, claiming and reaping do, exactly, and when they are refused. */
module Moves {
  import opened Tables
  import opened Ledgers
  import opened Runs
  import opened Dispatching
  import opened Verdicts
  import opened Working
  import opened Histories
  import opened RunLaws
  import opened Leases

  // ---- creating -----------------------------------------------------------------------------

  /** A run is created unless it is a production run bound to a skill version that is not promoted; it starts
      queued at step 1, free for any worker, with nothing read, said or spent, under its originator's grants
      of that moment. */
  lemma CreateIff(s: State, p: Principal, run: NewRun)
    ensures Create(s, p, run) == None <==> run.stage == PROD && (run.skillStage == Some(DEV) || run.skillStage == Some(QA))
    ensures Create(s, p, run).Some? ==>
              var s', r := Create(s, p, run).value, |s.threads|;
              && s'.threads == s.threads + [Thread(Queued, None, run.cap, if p in s.grants then s.grants[p] else map[],
                                                   map[1 := None], [], [], [])]
              && s'.ledger == s.ledger.(events := s.ledger.events
                   + [Event(RunJournal, Aggregate("run", OfRun(r)), 0, Some(r), Some(1), p, None, CreatedNote, None)])
              && s'.approvals == s.approvals && s'.data == s.data && s'.grants == s.grants
              && forall worker, now :: Claim(s', r, 1, worker, now).Some?
  {
  }

  // ---- steering -----------------------------------------------------------------------------

  /** A message is refused only by a run that was cancelled or failed, and then nothing changes. Any other run
      takes it as its next one; a finished run is queued again at the step after its last checkpoint, and a
      live one is otherwise untouched. */
  lemma SendIff(cfg: Config, s: State, r: nat, body: Json, p: Principal)
    requires LeasedInv(cfg, s)
    ensures Send(s, r, body, p).Some? <==> r < |s.threads| && s.threads[r].state != Cancelled && s.threads[r].state != Failed
    ensures Send(s, r, body, p).Some? ==>
              var t := s.threads[r].(mailbox := s.threads[r].mailbox + [Message(|s.threads[r].mailbox| + 1, Steer, body, p)]);
              Send(s, r, body, p).value
              == s.(threads := s.threads[r := if t.state == Done then t.(state := Queued, queue := map[|t.checkpoints| + 1 := None]) else t])
  {
    if r < |s.threads| {
      var t := s.threads[r];
      assert Shape(t) && RunInv(t);
      PostKeepsShape(t, Steer, body, p);
      LastOfNumbered(t.mailbox);
      LastOfShape(t);
      if t.state == Done { assert t.queue.Keys == {} && t.queue == map[]; }
    }
  }

  // ---- collisions ---------------------------------------------------------------------------

  /** In any state at all, a hand-back, a wake-up or a settled step fails just when the queue row it would insert
      is there already; it never overwrites one. */
  lemma OnlyCollisionsFail(s: State, r: nat, a: nat, answered: Approval, kind: MessageKind, body: Json, p: Principal, cp: Checkpoint)
    requires r < |s.threads| && a < |s.approvals| && answered.run == r
    ensures Settle(s, a, answered) == None <==> s.threads[r].state == WaitingApproval && answered.step in s.threads[r].queue
    ensures Post(s.threads[r], kind, body, p) == Collided <==>
              s.threads[r].state == Done && LastStep(s.threads[r].checkpoints) + 1 in s.threads[r].queue
    ensures Advance(s.threads[r], cp.step, cp) == None <==>
              && cp.results != [] && cp.step + 1 in s.threads[r].queue
              && (s.threads[r].state == Running || s.threads[r].state == Queued)
  {
  }

  // ---- grants -------------------------------------------------------------------------------

  /** A grant withdrawn is felt by the very next call, whatever ceiling its run was created with. */
  lemma RevocationIsFelt(cfg: Config, s: State, g: map<Principal, Grants>, ctx: Ctx, call: Call)
    requires call.op in cfg.registry && StoredAction(s.ledger, ReservationFor(ctx, call)) == None
    requires ctx.principal in g ==> call.op !in g[ctx.principal]
    ensures Apply(cfg, s, SetGrants(g)).Some?
    ensures DeniedFor(Dispatch(cfg, Apply(cfg, s, SetGrants(g)).value, ctx, call), "no_grant")
  {
    EachRefusalHasItsCause(cfg, Apply(cfg, s, SetGrants(g)).value, ctx, call);
  }

  // ---- claiming and reaping -----------------------------------------------------------------

  /** Nobody holds the step, or its lease had run out by `now`. */
  predicate IsFreeBy(row: Option<Lease>, now: int) {
    row.None? || row.value.until <= now
  }

  /** A step can be claimed exactly when it is the next one of a run that is queued or running and nobody holds
      it; the claim sets the run running, on a lease of five minutes. */
  lemma ClaimIff(cfg: Config, s: State, r: nat, step: nat, worker: string, now: int)
    requires LeasedInv(cfg, s)
    ensures Claim(s, r, step, worker, now).Some? <==>
              && r < |s.threads| && (s.threads[r].state == Queued || s.threads[r].state == Running)
              && step == |s.threads[r].checkpoints| + 1 && step in s.threads[r].queue && IsFreeBy(s.threads[r].queue[step], now)
    ensures Claim(s, r, step, worker, now).Some? ==>
              Claim(s, r, step, worker, now).value
              == s.(threads := s.threads[r := s.threads[r].(state := Running, queue := map[step := Some(Lease(now + 300, worker))])])
  {
    if r < |s.threads| {
      var t := s.threads[r];
      assert Shape(t);
      if t.state == Queued || t.state == Running {
        assert step in t.queue <==> step in t.queue.Keys;
        if step in t.queue { assert t.queue[step := Some(Lease(now + 300, worker))] == map[step := Some(Lease(now + 300, worker))]; }
      }
    }
  }

  /** A reap at `when` frees exactly the steps whose leases had run out by then: afterwards a worker may claim a
      step, whatever its own clock reads, just when it was free by the later of the two. It moves nothing else. */
  lemma ReapFreesIff(s: State, when: int, r: nat, step: nat, worker: string, now: int)
    ensures Claim(Reap(s, when), r, step, worker, now).Some? <==>
              && r < |s.threads| && (s.threads[r].state == Queued || s.threads[r].state == Running)
              && step in s.threads[r].queue && IsFreeBy(s.threads[r].queue[step], if when > now then when else now)
    ensures Reap(s, when) == s.(threads := Reap(s, when).threads) && |Reap(s, when).threads| == |s.threads|
    ensures r < |s.threads| ==>
              var t, t' := s.threads[r], Reap(s, when).threads[r];
              && t' == t.(queue := t'.queue) && t'.queue.Keys == t.queue.Keys
              && forall k :: k in t.queue ==> t'.queue[k] == if IsFreeBy(t.queue[k], when) then None else t.queue[k]
  {
  }

  /** So a step a dead worker held is worked again: once its lease has run out, anybody's reap frees it for
      everybody. */
  lemma DeadWorkersStepIsFreed(cfg: Config, s: State, c: Claimed, when: int, worker: string, now: int)
    requires LeasedInv(cfg, s) && Holds(s, c) && s.threads[c.run].state != Cancelled && c.lease.until <= when
    ensures Claim(Reap(s, when), c.run, c.step, worker, now).Some?
  {
    assert Shape(s.threads[c.run]);
    HeldStepIsNext(s.threads[c.run], c);
    ReapFreesIff(s, when, c.run, c.step, worker, now);
  }
}
