/** One worked step (`runs/work.py`): drain, check the budget, plan, dispatch, settle. */
module Working {
  import opened Tables
  import opened Ledgers
  import opened Runs
  import opened Dispatching

  const BUDGET_EXCEEDED := "budget_exceeded"
  const VERSION_CONFLICT := "version_conflict"

  datatype Completion = Completion(text: string, calls: seq<Proposed>, input: nat, output: nat, cached: nat)

  /** What a step meets that the tables do not fix: who the worker acts as, how much of the mailbox
      its drain saw, what the assembled prompt costs, what the model answers, its clock, and the stream
      head it read before each call, which another writer may have moved by the time the call commits. */
  datatype Work = Work(
    principal: Principal,
    visible: nat,
    estimate: nat,
    completion: Completion,
    clock: nat -> int,
    stated: nat -> int,
    notice: nat -> Json)

  // ---- the mailbox drain --------------------------------------------------------------------

  /** The `mailbox_seq` of the checkpoint with the highest step number. */
  function LastRead(cs: seq<Checkpoint>): (n: nat)
    ensures if cs == [] then n == 0 else exists k :: 0 <= k < |cs| && cs[k].mailboxSeq == n
  {
    if cs == [] then 0 else
      var before, last := cs[..|cs| - 1], cs[|cs| - 1];
      if last.step >= LastStep(before) then last.mailboxSeq else LastRead(before)
  }

  function Watermark(t: Thread): nat {
    LastRead(t.checkpoints)
  }

  function Seen(t: Thread, visible: nat): seq<Message> {
    if visible <= |t.mailbox| then t.mailbox[..visible] else t.mailbox
  }

  function After(ms: seq<Message>, seen: nat): seq<Message> {
    if ms == [] then [] else
      After(ms[..|ms| - 1], seen) + if ms[|ms| - 1].no > seen then [ms[|ms| - 1]] else []
  }

  function Drain(t: Thread, visible: nat): seq<Message> {
    After(Seen(t, visible), Watermark(t))
  }

  /** How far the step's checkpoint will say it read. */
  function ReadUpTo(t: Thread, visible: nat): nat {
    var drained := Drain(t, visible);
    if drained == [] then Watermark(t) else drained[|drained| - 1].no
  }

  // ---- the budget ---------------------------------------------------------------------------

  function Spend(us: seq<Usage>): nat {
    if us == [] then 0 else Spend(us[..|us| - 1]) + us[|us| - 1].input + us[|us| - 1].output
  }

  predicate WithinCap(t: Thread, estimate: nat) {
    Spend(t.usage) + estimate <= t.cap
  }

  // ---- the plan -----------------------------------------------------------------------------

  /** A versioned write states the version the step read; an unversioned one, an unknown operation and a
      malformed target state none. */
  function StatedVersion(cfg: Config, w: Work, i: nat): Option<int>
    requires i < |w.completion.calls|
  {
    var p := w.completion.calls[i];
    if p.op !in cfg.registry || cfg.registry[p.op].target.None? then None
    else match AggregateOf(p.op, cfg.registry[p.op], p.args)
      case None => None
      case Some(_) => Some(w.stated(i))
  }

  function CallFor(cfg: Config, w: Work, i: nat): Call
    requires i < |w.completion.calls|
  {
    var p := w.completion.calls[i];
    Call(p.op, p.args, p.id, StatedVersion(cfg, w, i))
  }

  datatype Reported = Reported(state: State, result: ToolResult)

  /** One call's tool result, and the mailbox notice a lost version race also earns. */
  function ResultOf(s: State, r: nat, author: Principal, notice: Json, id: string, o: Outcome): Option<Reported>
    requires !o.Waiting?
  {
    match o
    case Committed(_, result) => Some(Reported(s, WasCommitted(id, result)))
    case Replayed(i) => Some(Reported(s, WasReplayed(id, i)))
    case Denied(reason, _, _) =>
      if reason != VERSION_CONFLICT || r >= |s.threads| then Some(Reported(s, WasDenied(id, reason)))
      else match Post(s.threads[r], Conflict, notice, author)
        case Ended => Some(Reported(s, WasDenied(id, reason)))
        case Posted(t) => Some(Reported(s.(threads := s.threads[r := t]), WasDenied(id, reason)))
        case Collided => None
  }

  /** How a plan ends: every call answered, or stopped at the first that parks. */
  datatype Batch =
    | Finished(state: State, results: seq<ToolResult>)
    | ParkedAt(state: State, results: seq<ToolResult>, approval: nat, op: string)
    | Aborted

  function Prepend(result: ToolResult, b: Batch): Batch {
    match b
    case Finished(s, rs) => Finished(s, [result] + rs)
    case ParkedAt(s, rs, a, op) => ParkedAt(s, [result] + rs, a, op)
    case Aborted => Aborted
  }

  function CtxAt(c: Claimed, w: Work, ceiling: Grants, i: nat): Ctx {
    Ctx(w.principal, Some(Place(c.run, c.step)), Some(ceiling), w.clock(i))
  }

  /** Dispatch the plan in order from its `i`-th call. */
  function DispatchAll(cfg: Config, s: State, c: Claimed, w: Work, ceiling: Grants, i: nat): Batch
    requires i <= |w.completion.calls|
    decreases |w.completion.calls| - i
  {
    if i == |w.completion.calls| then Finished(s, [])
    else
      var p := w.completion.calls[i];
      match Dispatch(cfg, s, CtxAt(c, w, ceiling, i), CallFor(cfg, w, i))
      case Raised => Aborted
      case Ran(s1, Waiting(a, _)) => ParkedAt(s1, [], a, p.op)
      case Ran(s1, o) =>
        match ResultOf(s1, c.run, w.principal, w.notice(i), p.id, o)
        case None => Aborted
        case Some(a) => Prepend(a.result, DispatchAll(cfg, a.state, c, w, ceiling, i + 1))
  }

  // ---- settling -----------------------------------------------------------------------------

  /** The state write guarded on `running`, and the state the run is in after it. */
  function Move(t: Thread, state: RunState, failure: Option<string>): (Thread, RunState) {
    if t.state == Running then (t.(state := state, failure := failure), state) else (t, t.state)
  }

  function Leave(t: Thread, step: nat): Thread {
    t.(queue := t.queue - {step})
  }

  /** A refused step fails the run; a parked one waits. Neither leaves a checkpoint. */
  function Stop(t: Thread, step: nat, state: RunState, failure: Option<string>): Thread {
    Leave(Move(t, state, failure).0, step)
  }

  /** An answered step checkpoints, and queues the next one if it called anything. A run that ended
      under the step keeps its state and gains neither. */
  function Advance(t: Thread, step: nat, cp: Checkpoint): Option<Thread> {
    var wanted := if cp.results != [] then Queued else Done;
    var (moved, settled) := Move(t, wanted, None);
    var left := Leave(moved, step);
    if settled != wanted then Some(left)
    else
      var kept := left.(checkpoints := left.checkpoints + [cp]);
      if cp.results != [] then Enqueue(kept, step + 1) else Some(kept)
  }

  /** The whole transaction; `None` when it aborts. */
  function Step(cfg: Config, s: State, c: Claimed, w: Work): Option<State> {
    if c.run >= |s.threads| then None
    else
      var t := s.threads[c.run];
      if !WithinCap(t, w.estimate) then Some(RefuseStep(s, c, w))
      else
        var read := ReadUpTo(t, w.visible);
        match DispatchAll(cfg, Planning(s, c, w), c, w, t.ceiling, 0)
        case Aborted => None
        case ParkedAt(s1, _, a, op) => Some(ParkStep(s1, c, w, a, op))
        case Finished(s1, results) => FinishStep(s1, c, Checkpoint(c.step, read, w.completion.text, results))
  }

  function RefuseStep(s: State, c: Claimed, w: Work): State
    requires c.run < |s.threads|
  {
    var t := s.threads[c.run];
    var detail := OverBudget(Spend(t.usage), w.estimate, t.cap);
    s.(threads := s.threads[c.run := Stop(t, c.step, Tables.Failed, Some(BUDGET_EXCEEDED))],
       ledger := AppendTo(s.ledger, Denial, RunAggregate(c.run), Some(c.run), Some(c.step), w.principal, None,
                          Refusal(BUDGET_EXCEEDED, None, detail)))
  }

  /** The model answered: its usage row, and the plan journaled before any of it runs. */
  function Planning(s: State, c: Claimed, w: Work): State
    requires c.run < |s.threads|
  {
    var t := s.threads[c.run];
    var u := Usage(c.step, w.estimate, w.completion.input, w.completion.output, w.completion.cached);
    s.(threads := s.threads[c.run := t.(usage := t.usage + [u])],
       ledger := Journal(s.ledger, c.run, Some(c.step), w.principal,
                         Planned(w.completion.text, w.completion.calls)))
  }

  function ParkStep(s: State, c: Claimed, w: Work, a: nat, op: string): State {
    var l := Journal(s.ledger, c.run, Some(c.step), w.principal, ParkedNote(a, op));
    if c.run >= |s.threads| then s.(ledger := l)
    else s.(threads := s.threads[c.run := Stop(s.threads[c.run], c.step, WaitingApproval, None)], ledger := l)
  }

  function FinishStep(s: State, c: Claimed, cp: Checkpoint): Option<State> {
    if c.run >= |s.threads| then Some(s)
    else match Advance(s.threads[c.run], c.step, cp)
      case None => None
      case Some(t) => Some(s.(threads := s.threads[c.run := t]))
  }
}
