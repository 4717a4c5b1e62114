/** When the lease assumption holds: a lease is five minutes so that it outlasts its step, and a history
    in which every step commits before anyone reads a clock past its lease is one in which no worker
    commits a step that was reclaimed from it. */
module LeaseTimes {
  import opened Tables
  import opened Runs
  import opened Dispatching
  import opened Working
  import opened Histories
  import opened RunLaws
  import opened Lifecycle
  import opened Leases
  import opened Guarantees
  import opened Crashes

  // ---- a live lease stands ------------------------------------------------------------------

  /** Neither the worker's own step, nor a claim or a reap that reads a clock past the lease. */
  predicate Spares(x: Txn, c: Claimed) {
    && !(x.WorkStep? && x.claim == c)
    && (TimeOf(x).Some? ==> TimeOf(x).value < c.lease.until)
  }

  lemma RunningStandsUnderBody(cfg: Config, s: State, ctx: Ctx, op: Operation, args: Json, r: nat)
    requires RunBody(cfg, s, ctx, op, args).Some? && r < |s.threads| && s.threads[r].state == Running
    ensures var ts := RunBody(cfg, s, ctx, op, args).value.0.threads; |ts| == |s.threads| && ts[r] == s.threads[r]
  {
  }

  lemma RunningStandsUnderCall(cfg: Config, s: State, ctx: Ctx, call: Call, r: nat)
    requires ctx.at.None? && Dispatch(cfg, s, ctx, call).Ran? && r < |s.threads| && s.threads[r].state == Running
    ensures var ts := Dispatch(cfg, s, ctx, call).state.threads; |ts| == |s.threads| && ts[r] == s.threads[r]
  {
    if Dispatch(cfg, s, ctx, call).outcome.Committed? {
      var from := CommittedFrom(cfg, s, ctx, call);
      RunningStandsUnderBody(cfg, from, ctx, cfg.registry[call.op], call.args, r);
    } else {
      RefusedKeepsRuns(cfg, s, ctx, call);
    }
  }

  /** Another worker's step, committed under its own lease, is a step of another run. */
  lemma RunningStandsUnderStep(cfg: Config, s: State, c: Claimed, c': Claimed, w: Work)
    requires LeasedInv(cfg, s) && Holds(s, c) && Holds(s, c') && c' != c && s.threads[c.run].state == Running
    requires Step(cfg, s, c', w).Some?
    ensures c'.run != c.run
    ensures var ts := Step(cfg, s, c', w).value.threads; |ts| == |s.threads| && ts[c.run] == s.threads[c.run]
  {
    assert Shape(s.threads[c.run]);
    HeldStepIsNext(s.threads[c.run], c);
    if c'.run == c.run { HeldStepIsNext(s.threads[c.run], c'); }
    StepReplacesOne(cfg, s, c', w);
  }

  /** The run a worker holds a live lease on is left alone by everything but its own step, messages and
      a cancel. */
  lemma LiveLeaseStands(cfg: Config, s: State, c: Claimed, x: Txn)
    requires LeasedInv(cfg, s) && Holds(s, c) && Spares(x, c)
    requires LeaseKept(s, x) && Apply(cfg, s, x).Some?
    ensures Holds(Apply(cfg, s, x).value, c)
  {
    if s.threads[c.run].state == Cancelled {
      ApplyKeeps(cfg, s, x);
      assert RunLater(s.threads[c.run], Apply(cfg, s, x).value.threads[c.run]);
    } else {
      LiveRunStands(cfg, s, c, x);
    }
  }

  lemma LiveRunStands(cfg: Config, s: State, c: Claimed, x: Txn)
    requires LeasedInv(cfg, s) && Holds(s, c) && Spares(x, c) && s.threads[c.run].state != Cancelled
    requires LeaseKept(s, x) && Apply(cfg, s, x).Some?
    ensures Holds(Apply(cfg, s, x).value, c)
  {
    assert Shape(s.threads[c.run]);
    HeldStepIsNext(s.threads[c.run], c);
    match x
    case WorkStep(c', w) => RunningStandsUnderStep(cfg, s, c, c', w);
    case CallOperation(p, call, now) => RunningStandsUnderCall(cfg, s, Ctx(p, None, None, now), call, c.run);
    case SendMessage(r, body, p) => RunningStandsUnderPost(s, c, r, body, p);
    case _ =>
  }

  lemma RunningStandsUnderPost(s: State, c: Claimed, r: nat, body: Json, p: Principal)
    requires Holds(s, c) && s.threads[c.run].state == Running && Send(s, r, body, p).Some?
    ensures Holds(Send(s, r, body, p).value, c)
  {
  }

  // ---- whole histories ----------------------------------------------------------------------

  /** The step committed at `i` was claimed at `j`, and until it committed nobody read a clock past its
      lease. */
  predicate CommittedInTime(h: seq<Txn>, j: int, i: int)
    requires 0 <= i < |h| && h[i].WorkStep?
  {
    && 0 <= j < i
    && h[j].ClaimStep? && h[j].claim == h[i].claim
    && forall k :: j < k < i ==> Spares(h[k], h[i].claim)
  }

  /** Every lease outlasts its step. */
  ghost predicate Prompt(h: seq<Txn>) {
    forall i :: 0 <= i < |h| && h[i].WorkStep? ==> exists j :: CommittedInTime(h, j, i)
  }

  lemma PromptPrefix(h: seq<Txn>, n: nat)
    requires Prompt(h) && n <= |h|
    ensures Prompt(h[..n])
  {
    forall i | 0 <= i < n && h[..n][i].WorkStep? ensures exists j :: CommittedInTime(h[..n], j, i) {
      var j :| CommittedInTime(h, j, i);
      assert CommittedInTime(h[..n], j, i);
    }
  }

  lemma ClaimIsHeld(cfg: Config, s: State, c: Claimed, now: int)
    requires Apply(cfg, s, ClaimStep(c, now)).Some?
    ensures Holds(Apply(cfg, s, ClaimStep(c, now)).value, c)
  {
  }

  /** From its claim to its commit, a prompt step holds its lease. */
  lemma {:induction false} HeldSoFar(cfg: Config, s: State, h: seq<Txn>, j: nat, n: nat, c: Claimed)
    requires LeasedInv(cfg, s) && j < n <= |h| && Exec(cfg, s, h[..n]).Some? && Honoured(cfg, s, h[..n])
    requires h[j].ClaimStep? && h[j].claim == c
    requires forall k :: j < k < n ==> Spares(h[k], c)
    ensures Holds(Exec(cfg, s, h[..n]).value, c)
  {
    var m := n - 1;
    assert h[..n][..m] == h[..m];
    var before := Exec(cfg, s, h[..m]).value;
    if j == m {
      ClaimIsHeld(cfg, before, c, h[j].now);
    } else {
      HeldSoFar(cfg, s, h, j, m, c);
      HonouredHistoryKeeps(cfg, s, h[..m]);
      LiveLeaseStands(cfg, before, c, h[m]);
    }
  }

  /** If every lease outlasts its step, no worker ever commits a step that was reclaimed from it: what
      the guarantees assume of leases is what the program intends of its clock. */
  lemma {:induction false} PromptIsHonoured(cfg: Config, s: State, h: seq<Txn>)
    requires LeasedInv(cfg, s) && Prompt(h)
    ensures Honoured(cfg, s, h)
  {
    if h != [] {
      var n := |h| - 1;
      PromptPrefix(h, n);
      PromptIsHonoured(cfg, s, h[..n]);
      if h[n].WorkStep? && Exec(cfg, s, h[..n]).Some? {
        var j :| CommittedInTime(h, j, n);
        HeldSoFar(cfg, s, h, j, n, h[n].claim);
      }
    }
  }

  /** So state, queue, checkpoints and questions agree in every state a prompt history reaches. */
  lemma PromptHistoriesAgree(cfg: Config, data: Data, grants: map<Principal, Grants>, h: seq<Txn>, r: nat)
    requires Prompt(h) && Exec(cfg, Initial(data, grants), h).Some?
    requires r < |Exec(cfg, Initial(data, grants), h).value.threads|
    ensures var s := Exec(cfg, Initial(data, grants), h).value;
            WorkAgrees(s.threads[r]) && QuestionsAgree(s.approvals, s.threads[r], r)
  {
    InitialIsLeased(cfg, data, grants);
    PromptIsHonoured(cfg, Initial(data, grants), h);
    StateAndWorkAgree(cfg, data, grants, h, r);
  }
}
