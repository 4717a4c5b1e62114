/** What moves a run from outside its steps: `runs/service.py`, `runs/tick.py`, `work.claim` and the
    body of `governance.decide_approval`. `None` is an exception, which aborts the transaction. */
module Runs {
  import opened Tables
  import opened Ledgers

  const FIRST_STEP: nat := 1
  /** Five minutes. */
  const LEASE: int := 300
  const EXPIRED := "expired"

  datatype NewRun = NewRun(stage: Stage, skillStage: Option<Stage>, cap: nat)

  function RunAggregate(r: nat): Aggregate { Aggregate("run", OfRun(r)) }

  function Journal(l: Ledger, r: nat, step: Option<nat>, p: Principal, note: Payload): Ledger {
    AppendTo(l, RunJournal, RunAggregate(r), Some(r), step, p, None, note)
  }

  // ---- queue rows ---------------------------------------------------------------------------

  /** The insert of one queue row; (run_id, step_no) is the primary key, so a second one fails. */
  function Enqueue(t: Thread, step: nat): Option<Thread> {
    if step in t.queue then None else Some(t.(queue := t.queue[step := None]))
  }

  function LastStep(cs: seq<Checkpoint>): (n: nat)
    ensures forall k :: 0 <= k < |cs| ==> cs[k].step <= n
    ensures cs == [] ==> n == 0
    ensures cs != [] ==> exists k :: 0 <= k < |cs| && cs[k].step == n
  {
    if cs == [] then 0 else
      var n := LastStep(cs[..|cs| - 1]);
      var last := cs[|cs| - 1].step;
      if last > n then last else n
  }

  function LastSeq(ms: seq<Message>): (n: nat)
    ensures forall k :: 0 <= k < |ms| ==> ms[k].no <= n
    ensures ms == [] ==> n == 0
    ensures ms != [] ==> exists k :: 0 <= k < |ms| && ms[k].no == n
  {
    if ms == [] then 0 else
      var n := LastSeq(ms[..|ms| - 1]);
      var last := ms[|ms| - 1].no;
      if last > n then last else n
  }

  // ---- a person's half ----------------------------------------------------------------------

  function Create(s: State, p: Principal, run: NewRun): Option<State> {
    if run.stage == PROD && run.skillStage.Some? && run.skillStage.value != run.stage then None
    else
      var t := Thread(Queued, None, run.cap, GrantsOf(s, p), map[FIRST_STEP := None], [], [], []);
      var l := Journal(s.ledger, |s.threads|, Some(FIRST_STEP), p, CreatedNote);
      Some(s.(threads := s.threads + [t], ledger := l))
  }

  datatype Posting = Posted(thread: Thread) | Ended | Collided

  function Post(t: Thread, kind: MessageKind, body: Json, author: Principal): Posting {
    if t.state in {Cancelled, Failed} then Ended
    else
      var m := Message(LastSeq(t.mailbox) + 1, kind, body, author);
      match Wake(t.(mailbox := t.mailbox + [m]))
      case None => Collided
      case Some(t') => Posted(t')
  }

  /** A finished thread speaks again at the step after its last checkpoint; any other is untouched. */
  function Wake(t: Thread): Option<Thread> {
    if t.state == Done then Enqueue(t.(state := Queued), LastStep(t.checkpoints) + 1) else Some(t)
  }

  /** Cancel closes what a person could still answer. */
  function Closed(a: Approval, r: nat): Approval {
    if a.run == r && a.state in {Requested, Open} then a.(state := Expired) else a
  }

  function CloseAll(rows: seq<Approval>, r: nat): (rows': seq<Approval>)
    ensures |rows'| == |rows|
  {
    seq(|rows|, i requires 0 <= i < |rows| => Closed(rows[i], r))
  }

  function Cancel(s: State, r: nat, p: Principal): Option<State> {
    if r >= |s.threads| then None
    else
      var t := s.threads[r].(state := Cancelled, queue := map[]);
      Some(s.(threads := s.threads[r := t],
              approvals := CloseAll(s.approvals, r),
              ledger := Journal(s.ledger, r, None, p, CancelledNote)))
  }

  // ---- claiming -----------------------------------------------------------------------------

  /** One step a worker holds a lease on; the lease it wrote is what identifies the claim. */
  datatype Claimed = Claimed(run: nat, step: nat, lease: Lease)

  predicate Claimable(t: Thread, step: nat, now: int) {
    && step in t.queue
    && t.state in {Queued, Running}
    && (t.queue[step].None? || t.queue[step].value.until <= now)
  }

  function ClaimOf(r: nat, step: nat, worker: string, now: int): Claimed {
    Claimed(r, step, Lease(now + LEASE, worker))
  }

  function Claim(s: State, r: nat, step: nat, worker: string, now: int): Option<State> {
    if r < |s.threads| && Claimable(s.threads[r], step, now) then
      var t := s.threads[r];
      var held := t.queue[step := Some(ClaimOf(r, step, worker, now).lease)];
      Some(s.(threads := s.threads[r := t.(state := Running, queue := held)]))
    else None
  }

  // ---- the tick -----------------------------------------------------------------------------

  function Reaped(t: Thread, when: int): Thread {
    t.(queue := map k | k in t.queue ::
         if t.queue[k].Some? && t.queue[k].value.until <= when then None else t.queue[k])
  }

  function Reap(s: State, when: int): State {
    s.(threads := seq(|s.threads|, i requires 0 <= i < |s.threads| => Reaped(s.threads[i], when)))
  }

  /** The guarded hand-back: only a run still waiting moves, and only then is its step queued. */
  function Resume(t: Thread, step: nat): Option<Thread> {
    if t.state == WaitingApproval then Enqueue(t.(state := Queued), step) else Some(t)
  }

  /** Answer one requested approval and hand its run back. */
  function Settle(s: State, a: nat, answered: Approval): Option<State>
    requires a < |s.approvals|
  {
    var r, rows := answered.run, s.approvals[a := answered];
    if r >= |s.threads| then Some(s.(approvals := rows))
    else match Resume(s.threads[r], answered.step)
      case None => None
      case Some(t) => Some(s.(approvals := rows, threads := s.threads[r := t]))
  }

  /** One stale request; a row someone answered meanwhile is left alone. */
  function Expire(s: State, a: nat, when: int): Option<State> {
    if a >= |s.approvals| || s.approvals[a].expiresAt > when then None
    else if s.approvals[a].state != Requested then Some(s)
    else Settle(s, a, s.approvals[a].(state := Expired, reason := Some(EXPIRED)))
  }

  // ---- deciding -----------------------------------------------------------------------------

  function Answer(a: Approval, d: Decision, p: Principal): Approval {
    if d.approve then a.(state := Open, grantedBy := Some(p)) else a.(state := Rejected, reason := d.reason)
  }

  predicate IsWaiting(s: State, r: nat) {
    r < |s.threads| && s.threads[r].state == WaitingApproval
  }

  /** The body of `decide_approval`, past its two caller checks. */
  function DecideApproval(s: State, p: Principal, d: Decision): Option<(State, Result)> {
    if d.approval >= |s.approvals| then Some((s, Decided(false, None, false)))
    else
      var a := s.approvals[d.approval];
      if a.state != Requested then Some((s, Decided(false, Some(a.state), false)))
      else
        var answered := Answer(a, d, p);
        match Settle(s, d.approval, answered)
        case None => None
        case Some(s') => Some((s', Decided(true, Some(answered.state), IsWaiting(s, a.run))))
  }
}
