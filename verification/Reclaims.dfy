/** Why the shape of a run needs the lease: one history in which a worker commits a step that was
    reclaimed from it. */
module Reclaims {
  import opened Tables
  import opened Runs
  import opened Working
  import opened Histories
  import opened Leases

  const NO_OPERATIONS: Config := Config(map[], map[])
  const EMPTY: State := Initial(map[], map[])

  /** A worker that says it is done, at no cost. */
  function Saying(text: string): Work {
    Work("person", 0, 0, Completion(text, [], 0, 0, 0), i => 0, i => 0, i => "")
  }

  const SLOW: Claimed := Claimed(0, FIRST_STEP, Lease(LEASE, "slow"))
  const FAST: Claimed := Claimed(0, FIRST_STEP, Lease(2 * LEASE, "fast"))

  /** The slow worker's lease runs out, the fast one takes the step and finishes the run, and the slow
      one commits all the same: the run is `done` as it wanted, so it checkpoints step 1 again. */
  const RECLAIMED: seq<Txn> := [
    CreateRun("person", NewRun(DEV, None, 10)),
    ClaimStep(SLOW, 0),
    ClaimStep(FAST, LEASE),
    WorkStep(FAST, Saying("fast")),
    WorkStep(SLOW, Saying("slow"))]

  lemma ExecOn(cfg: Config, s: State, h: seq<Txn>, x: Txn)
    ensures Exec(cfg, s, h + [x]) == match Exec(cfg, s, h) { case None => None case Some(m) => Apply(cfg, m, x) }
    ensures Honoured(cfg, s, h + [x]) ==> Honoured(cfg, s, h) && (Exec(cfg, s, h).Some? ==> LeaseKept(Exec(cfg, s, h).value, x))
  {
    assert (h + [x])[..|h|] == h;
  }

  /** The run's row through the history: new, claimed, claimed again, finished, finished twice. */
  function Row(state: RunState, queue: map<nat, Option<Lease>>, cps: seq<Checkpoint>, used: seq<Usage>): Thread {
    Thread(state, None, 10, map[], queue, [], cps, used)
  }

  function Worked(text: string): Checkpoint { Checkpoint(FIRST_STEP, 0, text, []) }

  lemma ClaimTakes(s: State, t: Thread, held: Option<Lease>, c: Claimed, now: int)
    requires s.threads == [t] && t.queue == map[FIRST_STEP := held] && t.state in {Queued, Running}
    requires held.None? || held.value.until <= now
    requires c == Claimed(0, FIRST_STEP, Lease(now + LEASE, c.lease.worker))
    ensures var s' := Apply(NO_OPERATIONS, s, ClaimStep(c, now));
            s'.Some? && s'.value.threads == [t.(state := Running, queue := map[FIRST_STEP := Some(c.lease)])]
  {
    assert t.queue[FIRST_STEP := Some(c.lease)] == map[FIRST_STEP := Some(c.lease)];
    assert [t][0 := t.(state := Running, queue := map[FIRST_STEP := Some(c.lease)])]
        == [t.(state := Running, queue := map[FIRST_STEP := Some(c.lease)])];
  }

  /** Both workers claim the one step. */
  lemma BothClaim() returns (s: State)
    ensures Exec(NO_OPERATIONS, EMPTY, RECLAIMED[..3]) == Some(s)
    ensures s.threads == [Row(Running, map[FIRST_STEP := Some(FAST.lease)], [], [])]
  {
    var h := RECLAIMED;
    assert h[..1] == [] + [h[0]] && h[..2] == h[..1] + [h[1]] && h[..3] == h[..2] + [h[2]];
    ExecOn(NO_OPERATIONS, EMPTY, [], h[0]);
    var s1 := Exec(NO_OPERATIONS, EMPTY, h[..1]).value;
    assert s1.threads == [Row(Queued, map[FIRST_STEP := None], [], [])];
    ExecOn(NO_OPERATIONS, EMPTY, h[..1], h[1]);
    ClaimTakes(s1, s1.threads[0], None, SLOW, 0);
    var s2 := Exec(NO_OPERATIONS, EMPTY, h[..2]).value;
    ExecOn(NO_OPERATIONS, EMPTY, h[..2], h[2]);
    ClaimTakes(s2, s2.threads[0], Some(SLOW.lease), FAST, LEASE);
    s := Exec(NO_OPERATIONS, EMPTY, h[..3]).value;
  }

  /** A free step that calls nothing settles as `done`. */
  lemma SayingSettles(s: State, c: Claimed, text: string, t: Thread)
    requires c.step == FIRST_STEP && c.run == 0 && s.threads == [t]
    requires t.mailbox == [] && t.state in {Running, Done} && Spend(t.usage) == 0 && LastRead(t.checkpoints) == 0
    ensures var s' := Step(NO_OPERATIONS, s, c, Saying(text));
            s'.Some? && s'.value.threads == [t.(state := Done, failure := if t.state == Running then None else t.failure,
                                                queue := t.queue - {FIRST_STEP},
                                                checkpoints := t.checkpoints + [Worked(text)],
                                                usage := t.usage + [Usage(FIRST_STEP, 0, 0, 0, 0)])]
  {
    assert Drain(t, 0) == [];
  }

  /** The fast worker finishes the run. */
  lemma FastFinishes() returns (s: State)
    ensures Exec(NO_OPERATIONS, EMPTY, RECLAIMED[..4]) == Some(s)
    ensures s.threads == [Row(Done, map[], [Worked("fast")], [Usage(FIRST_STEP, 0, 0, 0, 0)])]
  {
    var h := RECLAIMED;
    assert h[..4] == h[..3] + [h[3]];
    var before := BothClaim();
    ExecOn(NO_OPERATIONS, EMPTY, h[..3], h[3]);
    SayingSettles(before, FAST, "fast", before.threads[0]);
    s := Exec(NO_OPERATIONS, EMPTY, h[..4]).value;
    FastFinished(s.threads[0]);
  }

  /** The history runs to the end and leaves step 1 checkpointed twice, so without the lease the
      agreement of run, queue and checkpoints is lost; and the lease assumption rejects it. */
  lemma ReclaimedStepBreaksTheShape()
    ensures Exec(NO_OPERATIONS, EMPTY, RECLAIMED).Some?
    ensures var ts := Exec(NO_OPERATIONS, EMPTY, RECLAIMED).value.threads;
            ts != [] && ts[0].state == Done && ts[0].checkpoints == [Worked("fast"), Worked("slow")] && !Shape(ts[0])
    ensures !Honoured(NO_OPERATIONS, EMPTY, RECLAIMED)
  {
    var h := RECLAIMED;
    assert h == h[..4] + [h[4]];
    var s := FastFinishes();
    ExecOn(NO_OPERATIONS, EMPTY, h[..4], h[4]);
    SlowSettlesToo(s);
  }

  lemma SlowSettlesToo(s: State)
    requires s.threads == [Row(Done, map[], [Worked("fast")], [Usage(FIRST_STEP, 0, 0, 0, 0)])]
    ensures !LeaseKept(s, WorkStep(SLOW, Saying("slow")))
    ensures var s' := Step(NO_OPERATIONS, s, SLOW, Saying("slow"));
            && s'.Some? && |s'.value.threads| == 1
            && var t := s'.value.threads[0]; t.state == Done && t.checkpoints == [Worked("fast"), Worked("slow")] && !Shape(t)
  {
    var t := s.threads[0];
    FastFinished(t);
    SayingSettles(s, SLOW, "slow", t);
    var last := Step(NO_OPERATIONS, s, SLOW, Saying("slow")).value.threads[0];
    assert last.checkpoints[1].step == FIRST_STEP;
  }

  lemma FastFinished(t: Thread)
    requires t.queue == map[FIRST_STEP := Some(FAST.lease)] - {FIRST_STEP}
    requires t.checkpoints == [] + [Worked("fast")] && t.usage == [] + [Usage(FIRST_STEP, 0, 0, 0, 0)]
    ensures t.queue == map[] && LastRead(t.checkpoints) == 0 && Spend(t.usage) == 0
  {
  }
}
