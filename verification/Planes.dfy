/** The plane as the program runs it: the tables are fields, each statement updates them in place, a
    savepoint is a snapshot put back, and an exception puts back the whole transaction. Every method is
    proved equal to the function the laws are about, and every committed transaction extends the
    history the guarantees are about. */
module Planes {
  import opened Tables
  import opened Ledgers
  import opened Approvals
  import opened Runs
  import opened Dispatching
  import opened Working
  import opened Histories
  import opened Lifecycle
  import opened Leases
  import opened Guarantees

  datatype Recorded = Recorded(action: nat) | Conflicted(expected: int, actual: int)
  datatype Parked = Asking(approval: nat) | Told(state: ApprovalState, reason: Option<string>)
  datatype Delivery = Delivered | Turned | Clashed

  /** What `_dispatch_all` hands back. */
  datatype Plan = Through(results: seq<ToolResult>) | Stopped(results: seq<ToolResult>, approval: nat, op: string) | Threw

  /** How a whole plan went, and the tables it left. */
  ghost predicate PlanOf(whole: Batch, s: State, plan: Plan) {
    match whole
    case Aborted => plan == Threw
    case Finished(s', results) => s == s' && plan == Through(results)
    case ParkedAt(s', results, a, op) => s == s' && plan == Stopped(results, a, op)
  }

  /** One call of the plan. */
  datatype Turn = Did(result: ToolResult) | Halted(approval: nat, op: string) | Erred

  function PrependAll(results: seq<ToolResult>, b: Batch): Batch {
    match b
    case Finished(s, rs) => Finished(s, results + rs)
    case ParkedAt(s, rs, a, op) => ParkedAt(s, results + rs, a, op)
    case Aborted => Aborted
  }

  class Plane {
    const cfg: Config
    var threads: seq<Thread>
    var approvals: seq<Approval>
    var events: seq<Event>
    var heads: map<Aggregate, Head>
    var actions: seq<Action>
    var keys: map<Reservation, Option<nat>>
    var data: Data
    var grants: map<Principal, Grants>

    ghost const start: State
    ghost var history: seq<Txn>

    function Book(): Ledger
      reads `events, `heads, `actions, `keys
    {
      Ledger(events, heads, actions, keys)
    }

    function Now(): State
      reads `threads, `approvals, `events, `heads, `actions, `keys, `data, `grants
    {
      State(threads, approvals, Book(), data, grants)
    }

    /** The tables are where the committed transactions, in order, take an empty plane. */
    ghost predicate Valid()
      reads this
    {
      start == Initial(start.data, start.grants) && Exec(cfg, start, history) == Some(Now())
    }

    constructor (cfg: Config, data: Data, grants: map<Principal, Grants>)
      ensures Valid() && this.cfg == cfg && start == Now() == Initial(data, grants) && history == []
    {
      this.cfg := cfg;
      threads, approvals, events, heads, actions, keys := [], [], [], map[], [], map[];
      this.data, this.grants := data, grants;
      start, history := Initial(data, grants), [];
    }

    // ---- the ledger -------------------------------------------------------------------------

    method Append(kind: EventKind, a: Aggregate, run: Option<nat>, step: Option<nat>, p: Principal,
                  op: Option<string>, payload: Payload) returns (event: nat)
      modifies `events
      ensures Now() == old(Now()).(ledger := AppendTo(old(Book()), kind, a, run, step, p, op, payload))
      ensures event == |old(events)|
    {
      event := |events|;
      events := events + [Event(kind, a, 0, run, step, p, op, payload, None)];
    }

    method CommitAction(c: Commit) returns (outcome: Recorded)
      modifies `events, `heads, `actions, `keys
      ensures match CommitTo(old(Book()), c)
              case Wrote(l, i) => Now() == old(Now()).(ledger := l) && outcome == Recorded(i)
              case Stored(i) => Now() == old(Now()) && outcome == Recorded(i)
              case VersionConflict(x, y) => Now() == old(Now()) && outcome == Conflicted(x, y)
    {
      var r := Reservation(c.op, c.key);
      if r in keys && keys[r].Some? { return Recorded(keys[r].value); }
      var actual := if c.aggregate in heads then heads[c.aggregate].version else 0;
      if c.expected.Some? && actual != c.expected.value { return Conflicted(c.expected.value, actual); }
      var action, event := |actions|, |events|;
      events := events + [Event(OperationCommit, c.aggregate, actual + 1, c.run, c.step, c.principal,
                                Some(c.op), c.payload, Some(action))];
      heads := heads[c.aggregate := Head(actual + 1, event)];
      actions := actions + [Action(event, c.versionId, c.approval, c.key, c.level, c.compensator, c.compensatorArgs)];
      keys := keys[r := Some(action)];
      outcome := Recorded(action);
    }

    // ---- approvals --------------------------------------------------------------------------

    /** One UPDATE over every matching row; the id it returns is the first one's. */
    method ConsumeApproval(c: Consume) returns (found: Option<nat>)
      modifies `approvals
      ensures approvals == ConsumeAll(old(approvals), c) && found == FirstSpendable(old(approvals), c)
    {
      ghost var rows := approvals;
      found := None;
      for i := 0 to |approvals|
        invariant |approvals| == |rows|
        invariant forall j :: 0 <= j < i ==> approvals[j] == if Spendable(rows[j], c) then Spent(rows[j], c) else rows[j]
        invariant forall j :: i <= j < |rows| ==> approvals[j] == rows[j]
        invariant found == FirstSpendable(rows[..i], c)
      {
        assert rows[..i + 1][..i] == rows[..i];
        if Spendable(approvals[i], c) {
          if found.None? { found := Some(i); }
          approvals := approvals[i := approvals[i].(state := Consumed, consumedBy := c.action)];
        }
      }
      assert rows[..|rows|] == rows;
    }

    method FindStanding(run: nat, step: nat, call: string) returns (found: Option<nat>)
      ensures found == FirstStanding(approvals, run, step, call)
    {
      found := None;
      for i := 0 to |approvals|
        invariant found == FirstStanding(approvals[..i], run, step, call)
      {
        assert approvals[..i + 1][..i] == approvals[..i];
        if found.None? && Standing(approvals[i], run, step, call) { found := Some(i); }
      }
      assert approvals[..|approvals|] == approvals;
    }

    method ParkApproval(p: Park) returns (parked: Parked)
      modifies `approvals
      ensures match ParkIn(old(approvals), p)
              case Asked(rows, a) => approvals == rows && parked == Asking(a)
              case AlreadyDecided(state, reason) => approvals == old(approvals) && parked == Told(state, reason)
    {
      var existing := FindStanding(p.run, p.step, p.call);
      if existing.Some? {
        var a := approvals[existing.value];
        if a.state == Requested { return Asking(existing.value); }
        return Told(a.state, a.reason);
      }
      parked := Asking(|approvals|);
      approvals := approvals + [Approval(p.grantedTo, None, p.versionId, p.digest, Requested, None, p.run, p.step, p.call,
                                         p.now + LIFETIME, None)];
    }

    // ---- dispatch ---------------------------------------------------------------------------

    method Refuse(ctx: Ctx, call: Call, reason: string, detail: Detail, aggregate: Aggregate) returns (o: Outcome)
      modifies `events, `keys
      ensures Ran(Now(), o) == Deny(old(Now()), ctx, call, reason, detail, aggregate)
    {
      keys := keys - {ReservationFor(ctx, call)};
      var event := Append(Denial, aggregate, RunOf(ctx), StepOf(ctx), ctx.principal, Some(call.op),
                          Refusal(reason, Some(call.id), detail));
      o := Denied(reason, event, detail);
    }

    method Ask(ctx: Ctx, call: Call, op: Operation) returns (o: Outcome)
      modifies `approvals, `events, `keys
      ensures Ran(Now(), o) == ParkCall(old(Now()), ctx, call, op)
    {
      if ctx.at.None? {
        o := Refuse(ctx, call, "approval_required", NoDetail, OperationAggregate(call.op));
        return;
      }
      var parked := ParkApproval(Park(ctx.principal, op.versionId, ArgsDigest(op.versionId, call.args),
                                      ctx.at.value.run, ctx.at.value.step, call.id, ctx.now));
      match parked
      case Asking(a) => o := Waiting(a, approvals[a].expiresAt);
      case Told(state, reason) =>
        o := Refuse(ctx, call, "approval_unavailable", Answered(state, reason), OperationAggregate(call.op));
    }

    /** The guarded hand-back of a waiting run; false when the queue row is already there. */
    method HandBack(r: nat, step: nat) returns (ok: bool, queued: bool)
      modifies `threads
      ensures queued == (r < |old(threads)| && old(threads)[r].state == WaitingApproval)
      ensures if r >= |old(threads)| then ok && threads == old(threads)
              else match Resume(old(threads)[r], step)
                   case None => !ok
                   case Some(t) => ok && threads == old(threads)[r := t]
    {
      queued := r < |threads| && threads[r].state == WaitingApproval;
      if !queued { return true, false; }
      threads := threads[r := threads[r].(state := Queued)];
      if step in threads[r].queue { return false, true; }
      threads := threads[r := threads[r].(queue := threads[r].queue[step := None])];
      ok := true;
    }

    /** `governance.decide_approval` past its caller checks; `None` is an exception. */
    method Decide(p: Principal, d: Decision) returns (result: Option<Result>)
      modifies `approvals, `threads
      ensures match DecideApproval(old(Now()), p, d)
              case None => result == None
              case Some((s, r)) => Now() == s && result == Some(r)
    {
      if d.approval >= |approvals| { return Some(Decided(false, None, false)); }
      var a := approvals[d.approval];
      if a.state != Requested { return Some(Decided(false, Some(a.state), false)); }
      if d.approve {
        a := a.(state := Open, grantedBy := Some(p));
      } else {
        a := a.(state := Rejected, reason := d.reason);
      }
      approvals := approvals[d.approval := a];
      var ok, queued := HandBack(a.run, a.step);
      result := if ok then Some(Decided(true, Some(a.state), queued)) else None;
    }

    method Perform(ctx: Ctx, op: Operation, args: Json) returns (result: Option<Result>)
      modifies `approvals, `threads, `data
      ensures match RunBody(cfg, old(Now()), ctx, op, args)
              case None => result == None
              case Some((s, r)) => Now() == s && result == Some(r)
    {
      match op.body
      case Plain(run) =>
        match run(data, args) {
          case None => result := None;
          case Some((after, answer)) =>
            data := after;
            result := Some(answer);
        }
      case Decide(parse) =>
        if ctx.at.Some? || !Decider(cfg.classes, ctx.principal) { return None; }
        result := Decide(ctx.principal, parse(args));
    }

    /** Inside the savepoint: spend, run the body, commit. */
    method Attempt(ctx: Ctx, call: Call, op: Operation, level: Level, aggregate: Aggregate, approval: Option<nat>)
      returns (result: Option<Result>, landed: Recorded)
      modifies `approvals, `threads, `data, `events, `heads, `actions, `keys
      ensures match RunBody(cfg, old(Now()), ctx, op, call.args)
              case None => result == None
              case Some((after, r)) =>
                result == Some(r)
                && match CommitTo(after.ledger, CommitFor(ctx, call, op, level, aggregate, r, approval))
                   case Wrote(l, i) => Now() == after.(ledger := l) && landed == Recorded(i)
                   case Stored(i) => Now() == after && landed == Recorded(i)
                   case VersionConflict(x, y) => landed == Conflicted(x, y)
    {
      landed := Recorded(0);
      result := Perform(ctx, op, call.args);
      if result.Some? {
        landed := CommitAction(CommitFor(ctx, call, op, level, aggregate, result.value, approval));
      }
    }

    /** A savepoint rolled back: every table dispatch may have written is as it was. */
    method Restore(s: State)
      modifies `approvals, `threads, `data, `events, `heads, `actions, `keys
      requires grants == s.grants
      ensures Now() == s
    {
      threads, approvals, data := s.threads, s.approvals, s.data;
      events, heads, actions, keys := s.ledger.events, s.ledger.heads, s.ledger.actions, s.ledger.keys;
    }

    method WriteOp(ctx: Ctx, call: Call, op: Operation, level: Level) returns (o: Option<Outcome>)
      modifies `approvals, `threads, `data, `events, `heads, `actions, `keys
      ensures match WriteCall(cfg, old(Now()), ctx, call, op, level)
              case Raised => o == None
              case Ran(s, outcome) => Now() == s && o == Some(outcome)
    {
      if op.target.Some? && call.expected.None? {
        var refused := Refuse(ctx, call, "expected_version_required", NoDetail, OperationAggregate(call.op));
        return Some(refused);
      }
      var target := AggregateOf(call.op, op, call.args);
      if target.None? { return None; }
      var savepoint := Now();
      var approval := None;
      if level == AsksFirst {
        approval := ConsumeApproval(ConsumeFor(ctx, call, op, Some(|actions|)));
        if approval.None? {
          Restore(savepoint);
          var waiting := Ask(ctx, call, op);
          return Some(waiting);
        }
      }
      var result, landed := Attempt(ctx, call, op, level, target.value, approval);
      if result.None? { return None; }
      match landed
      case Recorded(i) => o := Some(Committed(Some(i), result.value));
      case Conflicted(expected, actual) =>
        Restore(savepoint);
        var refused := Refuse(ctx, call, "version_conflict", Conflicting(expected, actual), target.value);
        o := Some(refused);
    }

    method ReadOp(ctx: Ctx, call: Call, op: Operation, level: Level) returns (o: Option<Outcome>)
      modifies `approvals, `threads, `data, `events, `keys
      ensures match ReadCall(cfg, old(Now()), ctx, call, op, level)
              case Raised => o == None
              case Ran(s, outcome) => Now() == s && o == Some(outcome)
    {
      if level == AsksFirst {
        ghost var before := approvals;
        var approval := ConsumeApproval(ConsumeFor(ctx, call, op, None));
        if approval.None? {
          NothingSpent(before, ConsumeFor(ctx, call, op, None));
          var waiting := Ask(ctx, call, op);
          return Some(waiting);
        }
      }
      var result := Perform(ctx, op, call.args);
      if result.None? { return None; }
      var target := AggregateOf(call.op, op, call.args);
      if target.None? { return None; }
      var event := Append(ReadAudit, target.value, RunOf(ctx), StepOf(ctx), ctx.principal, Some(call.op), Reading(call.args));
      o := Some(Committed(None, result.value));
    }

    method Dispatch(ctx: Ctx, call: Call) returns (o: Option<Outcome>)
      modifies `approvals, `threads, `data, `events, `heads, `actions, `keys
      ensures match Dispatching.Dispatch(cfg, old(Now()), ctx, call)
              case Raised => o == None
              case Ran(s, outcome) => Now() == s && o == Some(outcome)
    {
      if call.op !in cfg.registry {
        var refused := Refuse(ctx, call, "unknown_operation", NoDetail, OperationAggregate(call.op));
        return Some(refused);
      }
      var r := ReservationFor(ctx, call);
      if r !in keys { keys := keys[r := None]; }
      if keys[r].Some? { return Some(Replayed(keys[r].value)); }
      assert Now() == Dispatching.Reserve(old(Now()), r);
      o := AdmitOp(ctx, call);
    }

    method AdmitOp(ctx: Ctx, call: Call) returns (o: Option<Outcome>)
      requires call.op in cfg.registry
      modifies `approvals, `threads, `data, `events, `heads, `actions, `keys
      ensures match Admit(cfg, old(Now()), ctx, call)
              case Raised => o == None
              case Ran(s, outcome) => Now() == s && o == Some(outcome)
    {
      var op := cfg.registry[call.op];
      var level := EffectiveLevel(Now(), ctx, call.op);
      if level.None? || level.value == Never {
        var reason := if level.None? then "no_grant" else "never";
        var refused := Refuse(ctx, call, reason, NoDetail, OperationAggregate(call.op));
        return Some(refused);
      }
      if !op.valid(call.args) {
        var refused := Refuse(ctx, call, "invalid_args", NoDetail, OperationAggregate(call.op));
        return Some(refused);
      }
      if op.mode == Read {
        o := ReadOp(ctx, call, op, level.value);
      } else {
        o := WriteOp(ctx, call, op, level.value);
      }
    }

    // ---- a person's half --------------------------------------------------------------------

    method CreateThread(p: Principal, run: NewRun) returns (made: Option<nat>)
      modifies `threads, `events
      ensures match Create(old(Now()), p, run)
              case None => Now() == old(Now()) && made == None
              case Some(s) => Now() == s && made == Some(|old(threads)|)
    {
      if run.stage == PROD && run.skillStage.Some? && run.skillStage.value != run.stage { return None; }
      var r := |threads|;
      threads := threads + [Thread(Queued, None, run.cap, GrantsOf(Now(), p), map[], [], [], [])];
      threads := threads[r := threads[r].(queue := threads[r].queue[FIRST_STEP := None])];
      var event := Append(RunJournal, RunAggregate(r), Some(r), Some(FIRST_STEP), p, None, CreatedNote);
      made := Some(r);
    }

    /** `post` and the `_wake` it ends in; `Clashed` is the queue row's primary key refusing it. */
    method Deliver(r: nat, kind: MessageKind, body: Json, author: Principal) returns (d: Delivery)
      requires r < |threads|
      modifies `threads
      ensures match Post(old(threads)[r], kind, body, author)
              case Ended => threads == old(threads) && d == Turned
              case Collided => d == Clashed
              case Posted(t) => threads == old(threads)[r := t] && d == Delivered
    {
      var state := threads[r].state;
      if state in {Cancelled, Failed} { return Turned; }
      var number := LastSeq(threads[r].mailbox) + 1;
      threads := threads[r := threads[r].(mailbox := threads[r].mailbox + [Message(number, kind, body, author)])];
      if state == Done {
        threads := threads[r := threads[r].(state := Queued)];
        var step := LastStep(threads[r].checkpoints) + 1;
        if step in threads[r].queue { return Clashed; }
        threads := threads[r := threads[r].(queue := threads[r].queue[step := None])];
      }
      d := Delivered;
    }

    method CancelThread(r: nat, p: Principal) returns (found: bool)
      modifies `threads, `approvals, `events
      ensures found <==> r < |old(threads)|
      ensures match Cancel(old(Now()), r, p)
              case None => Now() == old(Now())
              case Some(s) => Now() == s
    {
      if r >= |threads| { return false; }
      threads := threads[r := threads[r].(state := Cancelled)];
      threads := threads[r := threads[r].(queue := map[])];
      CloseApprovals(r);
      var event := Append(RunJournal, RunAggregate(r), Some(r), None, p, None, CancelledNote);
      found := true;
    }

    method CloseApprovals(r: nat)
      modifies `approvals
      ensures approvals == CloseAll(old(approvals), r)
    {
      ghost var rows := approvals;
      for i := 0 to |approvals|
        invariant |approvals| == |rows|
        invariant forall j :: 0 <= j < i ==> approvals[j] == Closed(rows[j], r)
        invariant forall j :: i <= j < |rows| ==> approvals[j] == rows[j]
      {
        if approvals[i].run == r && approvals[i].state in {Requested, Open} {
          approvals := approvals[i := approvals[i].(state := Expired)];
        }
      }
    }

    // ---- the worker -------------------------------------------------------------------------

    predicate IsFree(r: nat, step: nat, locked: set<nat>, now: int)
      reads `threads
    {
      r < |threads| && r !in locked && step in threads[r].queue && Claimable(threads[r], step, now)
    }

    /** The first free row of a run nobody has locked, by step and then by run id, whose order is `rank`;
        none only when there is no such row. */
    method ClaimNext(worker: string, now: int, locked: set<nat>, rank: nat -> int) returns (c: Option<Claimed>)
      modifies `threads
      ensures c.None? ==> threads == old(threads) && forall r, step :: !old(IsFree(r, step, locked, now))
      ensures c.Some? ==> && c.value == ClaimOf(c.value.run, c.value.step, worker, now)
                          && old(IsFree(c.value.run, c.value.step, locked, now))
                          && Claim(old(Now()), c.value.run, c.value.step, worker, now) == Some(Now())
                          && forall r, step :: old(IsFree(r, step, locked, now)) ==>
                               NoLater((c.value.run, c.value.step), (r, step), rank)
    {
      var free: set<(nat, nat)> :=
        set r, step | 0 <= r < |threads| && step in threads[r].queue && r !in locked && Claimable(threads[r], step, now)
        :: (r, step);
      assert forall r: nat, step: nat :: IsFree(r, step, locked, now) ==> (r, step) in free;
      if free == {} { return None; }
      FirstExists(free, rank);
      var pick :| pick in free && forall q :: q in free ==> NoLater(pick, q, rank);
      TakeLease(pick.0, pick.1, worker, now);
      c := Some(ClaimOf(pick.0, pick.1, worker, now));
    }

    method TakeLease(r: nat, step: nat, worker: string, now: int)
      requires r < |threads| && Claimable(threads[r], step, now)
      modifies `threads
      ensures Claim(old(Now()), r, step, worker, now) == Some(Now())
    {
      threads := threads[r := threads[r].(queue := threads[r].queue[step := Some(Lease(now + LEASE, worker))])];
      threads := threads[r := threads[r].(state := Running)];
      assert threads == old(threads)[r := threads[r]];
    }

    /** The state write guarded on `running`, read back when the guard missed. */
    method SetState(r: nat, state: RunState, failure: Option<string>) returns (settled: RunState)
      requires r < |threads|
      modifies `threads
      ensures var (t, after) := Move(old(threads)[r], state, failure);
              threads == old(threads)[r := t] && settled == after
    {
      if threads[r].state == Running {
        threads := threads[r := threads[r].(state := state, failure := failure)];
        return state;
      }
      settled := threads[r].state;
    }

    method LeaveQueue(r: nat, step: nat)
      requires r < |threads|
      modifies `threads
      ensures threads == old(threads)[r := Leave(old(threads)[r], step)]
    {
      threads := threads[r := threads[r].(queue := threads[r].queue - {step})];
    }

    method StopRun(r: nat, step: nat, state: RunState, failure: Option<string>) returns (settled: RunState)
      requires r < |threads|
      modifies `threads
      ensures threads == old(threads)[r := Stop(old(threads)[r], step, state, failure)]
      ensures settled == Move(old(threads)[r], state, failure).1
    {
      settled := SetState(r, state, failure);
      LeaveQueue(r, step);
    }

    /** A settled step; `None` is the next queue row already being there. */
    method SettleAnswered(r: nat, step: nat, cp: Checkpoint) returns (settled: Option<RunState>)
      requires r < |threads|
      modifies `threads
      ensures match Advance(old(threads)[r], step, cp)
              case None => settled == None
              case Some(t) => threads == old(threads)[r := t] && settled == Some(t.state)
    {
      var wanted := if cp.results != [] then Queued else Done;
      var state := SetState(r, wanted, None);
      LeaveQueue(r, step);
      if state != wanted { return Some(state); }
      threads := threads[r := threads[r].(checkpoints := threads[r].checkpoints + [cp])];
      if cp.results != [] {
        if step + 1 in threads[r].queue { return None; }
        threads := threads[r := threads[r].(queue := threads[r].queue[step + 1 := None])];
      }
      settled := Some(wanted);
    }

    /** One call's tool result, and the notice a lost race also earns; `None` aborts. */
    method Report(r: nat, author: Principal, notice: Json, id: string, o: Outcome) returns (result: Option<ToolResult>)
      requires !o.Waiting?
      modifies `threads
      ensures match ResultOf(old(Now()), r, author, notice, id, o)
              case None => result == None
              case Some(a) => Now() == a.state && result == Some(a.result)
    {
      match o
      case Committed(_, answer) => result := Some(WasCommitted(id, answer));
      case Replayed(i) => result := Some(WasReplayed(id, i));
      case Denied(reason, _, _) =>
        result := Some(WasDenied(id, reason));
        if reason == VERSION_CONFLICT && r < |threads| {
          var d := Deliver(r, Conflict, notice, author);
          if d == Clashed { result := None; }
        }
    }

    /** The plan loop: dispatch in order, stopping at the first call that parks. */
    method DispatchPlan(c: Claimed, w: Work, ceiling: Grants, ghost whole: Batch) returns (plan: Plan)
      requires whole == DispatchAll(cfg, Now(), c, w, ceiling, 0)
      modifies `approvals, `threads, `data, `events, `heads, `actions, `keys
      ensures PlanOf(whole, Now(), plan)
    {
      var results: seq<ToolResult> := [];
      var i := 0;
      PrependNone(whole);
      while i < |w.completion.calls|
        invariant i <= |w.completion.calls|
        invariant whole == PrependAll(results, DispatchAll(cfg, Now(), c, w, ceiling, i))
      {
        var turn := DispatchNext(c, w, ceiling, i, results, whole);
        match turn {
          case Erred => return Threw;
          case Halted(a, op) => return Stopped(results, a, op);
          case Did(result) => results := results + [result];
        }
        i := i + 1;
      }
      PrependFinished(cfg, Now(), c, w, ceiling, results);
      plan := Through(results);
    }

    /** One turn of the loop, against what the whole plan comes to. */
    method DispatchNext(c: Claimed, w: Work, ceiling: Grants, i: nat, results: seq<ToolResult>, ghost whole: Batch)
      returns (turn: Turn)
      requires i < |w.completion.calls| && whole == PrependAll(results, DispatchAll(cfg, Now(), c, w, ceiling, i))
      modifies `approvals, `threads, `data, `events, `heads, `actions, `keys
      ensures match turn
              case Did(result) => whole == PrependAll(results + [result], DispatchAll(cfg, Now(), c, w, ceiling, i + 1))
              case Halted(a, op) => whole == ParkedAt(Now(), results, a, op)
              case Erred => whole == Aborted
    {
      turn := DispatchOne(c, w, ceiling, i);
      if turn.Did? {
        PrependOneMore(results, turn.result, DispatchAll(cfg, Now(), c, w, ceiling, i + 1));
      } else if turn.Halted? {
        assert results + [] == results;
      }
    }

    method DispatchOne(c: Claimed, w: Work, ceiling: Grants, i: nat) returns (turn: Turn)
      requires i < |w.completion.calls|
      modifies `approvals, `threads, `data, `events, `heads, `actions, `keys
      ensures match turn
              case Did(result) => DispatchAll(cfg, old(Now()), c, w, ceiling, i)
                                  == Prepend(result, DispatchAll(cfg, Now(), c, w, ceiling, i + 1))
              case Halted(a, op) => DispatchAll(cfg, old(Now()), c, w, ceiling, i) == ParkedAt(Now(), [], a, op)
              case Erred => DispatchAll(cfg, old(Now()), c, w, ceiling, i) == Aborted
    {
      var p := w.completion.calls[i];
      var o := Dispatch(CtxAt(c, w, ceiling, i), CallFor(cfg, w, i));
      if o.None? { return Erred; }
      if o.value.Waiting? { return Halted(o.value.approval, p.op); }
      var result := Report(c.run, w.principal, w.notice(i), p.id, o.value);
      turn := if result.None? then Erred else Did(result.value);
    }

    /** `model._spent`: what the run's usage rows sum to. */
    method SumUsage(r: nat) returns (total: nat)
      requires r < |threads|
      ensures total == Spend(threads[r].usage)
    {
      var us := threads[r].usage;
      total := 0;
      for i := 0 to |us|
        invariant total == Spend(us[..i])
      {
        assert us[..i + 1][..i] == us[..i];
        total := total + us[i].input + us[i].output;
      }
      assert us[..|us|] == us;
    }

    /** `model.run`: refused past the cap, or a usage row and the journaled plan. */
    method AnswerOrRefuse(c: Claimed, w: Work) returns (answered: bool)
      requires c.run < |threads|
      modifies `threads, `events
      ensures answered <==> WithinCap(old(threads)[c.run], w.estimate)
      ensures Now() == if answered then Planning(old(Now()), c, w) else RefuseStep(old(Now()), c, w)
    {
      var t := threads[c.run];
      var spent := SumUsage(c.run);
      if spent + w.estimate > t.cap {
        var denial := Append(Denial, RunAggregate(c.run), Some(c.run), Some(c.step), w.principal, None,
                             Refusal(BUDGET_EXCEEDED, None, OverBudget(spent, w.estimate, t.cap)));
        var settled := StopRun(c.run, c.step, Failed, Some(BUDGET_EXCEEDED));
        return false;
      }
      var used := Usage(c.step, w.estimate, w.completion.input, w.completion.output, w.completion.cached);
      threads := threads[c.run := t.(usage := t.usage + [used])];
      var planned := Append(RunJournal, RunAggregate(c.run), Some(c.run), Some(c.step), w.principal, None,
                            Planned(w.completion.text, w.completion.calls));
      answered := true;
    }

    /** The end of an answered step: parked, or settled; false aborts. */
    method SettleStep(c: Claimed, w: Work, plan: Plan, read: nat) returns (ok: bool)
      requires !plan.Threw?
      modifies `threads, `events
      ensures if plan.Stopped? then ok && Now() == ParkStep(old(Now()), c, w, plan.approval, plan.op)
              else match FinishStep(old(Now()), c, Checkpoint(c.step, read, w.completion.text, plan.results))
                   case None => !ok
                   case Some(s) => ok && Now() == s
    {
      match plan
      case Stopped(_, a, op) =>
        var parked := Append(RunJournal, RunAggregate(c.run), Some(c.run), Some(c.step), w.principal, None, ParkedNote(a, op));
        if c.run < |threads| {
          var settled := StopRun(c.run, c.step, WaitingApproval, None);
        }
        ok := true;
      case Through(results) =>
        if c.run >= |threads| { return true; }
        var settled := SettleAnswered(c.run, c.step, Checkpoint(c.step, read, w.completion.text, results));
        ok := settled.Some?;
    }

    /** One worked step; false aborts. */
    method WorkClaimed(c: Claimed, w: Work) returns (ok: bool)
      modifies `approvals, `threads, `data, `events, `heads, `actions, `keys
      ensures match Step(cfg, old(Now()), c, w)
              case None => !ok
              case Some(s) => ok && Now() == s
    {
      if c.run >= |threads| { return false; }
      ghost var was := Now();
      var ceiling, read := threads[c.run].ceiling, ReadUpTo(threads[c.run], w.visible);
      var answered := AnswerOrRefuse(c, w);
      if !answered { return true; }
      ghost var whole := DispatchAll(cfg, Now(), c, w, ceiling, 0);
      StepFollowsPlan(cfg, was, c, w, whole);
      var plan := DispatchPlan(c, w, ceiling, whole);
      if plan.Threw? { return false; }
      ok := SettleStep(c, w, plan, read);
    }

    // ---- the tick ---------------------------------------------------------------------------

    method ReapAll(when: int)
      modifies `threads
      ensures Now() == Reap(old(Now()), when)
    {
      ghost var was := threads;
      for i := 0 to |threads|
        invariant |threads| == |was|
        invariant forall j :: 0 <= j < i ==> threads[j] == Reaped(was[j], when)
        invariant forall j :: i <= j < |was| ==> threads[j] == was[j]
      {
        var queue := threads[i].queue;
        threads := threads[i := threads[i].(queue := map k | k in queue ::
          if queue[k].Some? && queue[k].value.until <= when then None else queue[k])];
      }
    }

    /** One stale request; false aborts, or finds nothing stale. */
    method ContinueExpired(a: nat, when: int) returns (ok: bool)
      modifies `threads, `approvals
      ensures match Expire(old(Now()), a, when)
              case None => !ok
              case Some(s) => ok && Now() == s
    {
      if a >= |approvals| || approvals[a].expiresAt > when { return false; }
      if approvals[a].state != Requested { return true; }
      approvals := approvals[a := approvals[a].(state := Expired, reason := Some(EXPIRED))];
      var queued;
      ok, queued := HandBack(approvals[a].run, approvals[a].step);
    }

    // ---- transactions -----------------------------------------------------------------------

    /** One transaction: it commits and joins the history, or every table is put back. */
    method Transact(x: Txn) returns (ok: bool)
      requires Valid()
      modifies this
      ensures Valid()
      ensures match Apply(cfg, old(Now()), x)
              case None => !ok && Now() == old(Now()) && history == old(history)
              case Some(s) => ok && Now() == s && history == old(history) + [x]
    {
      var snapshot := Now();
      ok := Perhaps(x);
      if ok {
        history := history + [x];
        assert history[..|history| - 1] == old(history);
      } else {
        Restore(snapshot);
      }
    }

    method Perhaps(x: Txn) returns (ok: bool)
      modifies `approvals, `threads, `data, `events, `heads, `actions, `keys, `grants
      ensures match Apply(cfg, old(Now()), x)
              case None => !ok && grants == old(grants)
              case Some(s) => ok && Now() == s
    {
      match x
      case CreateRun(p, run) =>
        var made := CreateThread(p, run);
        ok := made.Some?;
      case SendMessage(r, body, p) =>
        if r >= |threads| { return false; }
        var d := Deliver(r, Steer, body, p);
        ok := d == Delivered;
      case CancelRun(r, p) => ok := CancelThread(r, p);
      case ClaimStep(c, now) =>
        if c.lease.until != now + LEASE || c.run >= |threads| || !Claimable(threads[c.run], c.step, now) { return false; }
        TakeLease(c.run, c.step, c.lease.worker, now);
        ok := true;
      case WorkStep(c, w) => ok := WorkClaimed(c, w);
      case CallOperation(p, call, now) =>
        var o := Dispatch(Ctx(p, None, None, now), call);
        ok := o.Some?;
      case ReapLeases(when) =>
        ReapAll(when);
        ok := true;
      case ExpireApproval(a, when) => ok := ContinueExpired(a, when);
      case SetGrants(g) =>
        grants := g;
        ok := true;
    }

    /** What other processes commit meanwhile, each under its own lease. */
    method Others(xs: seq<Txn>)
      requires Valid() && Honoured(cfg, start, history)
      modifies this
      ensures Valid() && Honoured(cfg, start, history) && ApprovalsGrow(old(approvals), approvals)
      ensures xs == [] ==> Now() == old(Now())
    {
      for i := 0 to |xs|
        invariant Valid() && Honoured(cfg, start, history) && ApprovalsGrow(old(approvals), approvals)
        invariant i == 0 ==> Now() == old(Now())
      {
        ghost var before := approvals;
        OtherOne(xs[i]);
        ApprovalsGrowOn(old(approvals), before, approvals);
      }
    }

    method OtherOne(x: Txn)
      requires Valid() && Honoured(cfg, start, history)
      modifies this
      ensures Valid() && Honoured(cfg, start, history) && ApprovalsGrow(old(approvals), approvals)
    {
      if LeaseKept(Now(), x) {
        HoldsAlways();
        ghost var s, h := Now(), history;
        var ok := Transact(x);
        if ok {
          ApplyKeeps(cfg, s, x);
          assert history[..|history| - 1] == h;
        }
      }
    }

    /** Every request stale at the start, one transaction each, with whatever others commit in between,
        for as long as this process leads: none of them is left standing. If nobody else commits, exactly
        those are expired and counted, and no other approval moves. */
    method ExpireStale(when: int, between: nat -> seq<Txn>, leads: nat -> bool) returns (expired: nat)
      requires Valid() && Honoured(cfg, start, history)
      modifies this
      ensures Valid() && Honoured(cfg, start, history) && ApprovalsGrow(old(approvals), approvals)
      ensures (forall i :: leads(i)) ==>
                forall a :: 0 <= a < |old(approvals)| && IsStale(old(approvals)[a], when) ==> approvals[a].state != Requested
      ensures (forall i :: leads(i)) && (forall i :: between(i) == []) ==>
                approvals == ExpiredUpTo(old(approvals), |old(approvals)|, when) && expired == StaleIn(old(approvals), when)
      ensures expired <= StaleIn(old(approvals), when)
    {
      var rows := approvals;
      expired := 0;
      for i := 0 to |rows|
        invariant Valid() && Honoured(cfg, start, history) && ApprovalsGrow(rows, approvals)
        invariant NoneStands(rows, approvals, i, when)
        invariant (forall k :: between(k) == []) ==>
                    approvals == ExpiredUpTo(rows, i, when) && expired == StaleIn(rows[..i], when)
        invariant expired <= StaleIn(rows[..i], when)
      {
        StaleOneMore(rows, i, when);
        if IsStale(rows[i], when) {
          if !leads(i) {
            StaleInPrefix(rows, i, when);
            return;
          }
          ghost var before := approvals;
          var moved := ExpireNext(i, when, between(i), rows);
          NoneStandsOn(rows, before, approvals, i, when);
          if moved { expired := expired + 1; }
        }
      }
      assert rows[..|rows|] == rows;
    }

    /** One stale request's turn: a row someone answered meanwhile is left alone. */
    method ExpireNext(a: nat, when: int, others: seq<Txn>, ghost rows: seq<Approval>) returns (moved: bool)
      requires Valid() && Honoured(cfg, start, history) && ApprovalsGrow(rows, approvals)
      requires a < |rows| && IsStale(rows[a], when)
      modifies this
      ensures Valid() && Honoured(cfg, start, history) && ApprovalsGrow(rows, approvals) && ApprovalsGrow(old(approvals), approvals)
      ensures approvals[a].state != Requested
      ensures others == [] && old(approvals)[a] == rows[a] ==>
                moved && approvals == old(approvals)[a := ExpiredBy(rows[a], when)]
    {
      Others(others);
      ApprovalsGrowOn(rows, old(approvals), approvals);
      assert Later(rows[a], approvals[a]);
      moved := approvals[a].state == Requested;
      if moved {
        ghost var before := approvals;
        ExpireOne(a, when);
        OneExpiredGrows(before, a, when);
        ApprovalsGrowOn(rows, before, approvals);
        ApprovalsGrowOn(old(approvals), before, approvals);
      }
    }

    method ExpireOne(a: nat, when: int)
      requires Valid() && Honoured(cfg, start, history)
      requires a < |approvals| && approvals[a].state == Requested && approvals[a].expiresAt <= when
      modifies this
      ensures Valid() && Honoured(cfg, start, history)
      ensures approvals == old(approvals)[a := ExpiredBy(old(approvals)[a], when)]
    {
      HoldsAlways();
      StaleExpires(cfg, Now(), a, when);
      var ok := Transact(ExpireApproval(a, when));
      assert history[..|history| - 1] == old(history);
    }

    /** So everything proved of histories holds of the object, at every moment between transactions. */
    lemma HoldsAlways()
      requires Valid()
      ensures Always(cfg, Now())
      ensures Honoured(cfg, start, history) ==> LeasedInv(cfg, Now())
    {
      InitialIsLeased(cfg, start.data, start.grants);
      HistoryKeeps(cfg, start, history);
      if Honoured(cfg, start, history) {
        HonouredHistoryKeeps(cfg, start, history);
      }
    }
  }

  /** The order a claim looks at rows in. */
  predicate NoLater(p: (nat, nat), q: (nat, nat), rank: nat -> int) {
    p.1 < q.1 || (p.1 == q.1 && rank(p.0) <= rank(q.0))
  }

  lemma {:induction false} FirstExists(rows: set<(nat, nat)>, rank: nat -> int)
    requires rows != {}
    ensures exists p :: p in rows && forall q :: q in rows ==> NoLater(p, q, rank)
    decreases rows
  {
    var x :| x in rows;
    var rest := rows - {x};
    if rest != {} {
      FirstExists(rest, rank);
      var p :| p in rest && forall q :: q in rest ==> NoLater(p, q, rank);
      var first := if NoLater(p, x, rank) then p else x;
      assert forall q :: q in rows ==> q == x || q in rest;
      assert first in rows && forall q :: q in rows ==> NoLater(first, q, rank);
    } else {
      assert rows == {x};
    }
  }

  /** An UPDATE that matches no row leaves them all. */
  lemma NothingSpent(rows: seq<Approval>, c: Consume)
    requires FirstSpendable(rows, c) == None
    ensures ConsumeAll(rows, c) == rows
  {
  }

  lemma PrependNone(b: Batch)
    ensures PrependAll([], b) == b
  {
    if !b.Aborted? { assert [] + b.results == b.results; }
  }

  lemma PrependFinished(cfg: Config, s: State, c: Claimed, w: Work, ceiling: Grants, results: seq<ToolResult>)
    ensures PrependAll(results, DispatchAll(cfg, s, c, w, ceiling, |w.completion.calls|)) == Finished(s, results)
  {
    assert results + [] == results;
  }

  lemma PrependOneMore(results: seq<ToolResult>, result: ToolResult, b: Batch)
    ensures PrependAll(results, Prepend(result, b)) == PrependAll(results + [result], b)
  {
    if !b.Aborted? { assert results + ([result] + b.results) == results + [result] + b.results; }
  }

  /** A step within the cap ends as its plan does. */
  lemma StepFollowsPlan(cfg: Config, s: State, c: Claimed, w: Work, whole: Batch)
    requires c.run < |s.threads| && WithinCap(s.threads[c.run], w.estimate)
    requires whole == DispatchAll(cfg, Planning(s, c, w), c, w, s.threads[c.run].ceiling, 0)
    ensures Step(cfg, s, c, w)
         == match whole
            case Aborted => None
            case ParkedAt(s1, _, a, op) => Some(ParkStep(s1, c, w, a, op))
            case Finished(s1, results) =>
              FinishStep(s1, c, Checkpoint(c.step, ReadUpTo(s.threads[c.run], w.visible), w.completion.text, results))
  {
  }

  predicate IsStale(a: Approval, when: int) { a.state == Requested && a.expiresAt <= when }

  /** None of the first `n` rows that were stale still asks. */
  ghost predicate NoneStands(rows: seq<Approval>, rows': seq<Approval>, n: nat, when: int) {
    |rows| <= |rows'| && n <= |rows| && forall a :: 0 <= a < n && IsStale(rows[a], when) ==> rows'[a].state != Requested
  }

  lemma NoneStandsOn(rows: seq<Approval>, mid: seq<Approval>, rows': seq<Approval>, n: nat, when: int)
    requires NoneStands(rows, mid, n, when) && ApprovalsGrow(mid, rows') && n < |rows| && rows'[n].state != Requested
    ensures NoneStands(rows, rows', n + 1, when)
  {
    forall a | 0 <= a < n + 1 && IsStale(rows[a], when) ensures rows'[a].state != Requested {
      if a < n { assert Later(mid[a], rows'[a]); }
    }
  }

  lemma OneExpiredGrows(rows: seq<Approval>, a: nat, when: int)
    requires a < |rows|
    ensures ApprovalsGrow(rows, rows[a := ExpiredBy(rows[a], when)])
  {
  }

  function ExpiredBy(a: Approval, when: int): Approval {
    if IsStale(a, when) then a.(state := Expired, reason := Some(EXPIRED)) else a
  }

  function StaleIn(rows: seq<Approval>, when: int): nat {
    if rows == [] then 0 else
      var last := rows[|rows| - 1];
      StaleIn(rows[..|rows| - 1], when) + if IsStale(last, when) then 1 else 0
  }

  lemma {:induction false} StaleInPrefix(rows: seq<Approval>, n: nat, when: int)
    requires n <= |rows|
    ensures StaleIn(rows[..n], when) <= StaleIn(rows, when)
    decreases |rows|
  {
    if n < |rows| {
      StaleInPrefix(rows[..|rows| - 1], n, when);
      assert rows[..|rows| - 1][..n] == rows[..n];
    } else {
      assert rows[..n] == rows;
    }
  }

  /** The approvals once the first `n` of them have been looked at. */
  function ExpiredUpTo(rows: seq<Approval>, n: nat, when: int): (rows': seq<Approval>)
    ensures |rows'| == |rows|
  {
    seq(|rows|, i requires 0 <= i < |rows| => if i < n then ExpiredBy(rows[i], when) else rows[i])
  }

  lemma StaleOneMore(rows: seq<Approval>, i: nat, when: int)
    requires i < |rows|
    ensures ExpiredUpTo(rows, i, when)[i] == rows[i]
    ensures ExpiredUpTo(rows, i + 1, when) == ExpiredUpTo(rows, i, when)[i := ExpiredBy(rows[i], when)]
    ensures StaleIn(rows[..i + 1], when)
         == StaleIn(rows[..i], when) + if IsStale(rows[i], when) then 1 else 0
  {
    assert rows[..i + 1][..i] == rows[..i];
  }

  /** Expiring a stale request never aborts, and keeps run, queue and questions in agreement. */
  lemma StaleExpires(cfg: Config, s: State, a: nat, when: int)
    requires LeasedInv(cfg, s) && a < |s.approvals| && s.approvals[a].state == Requested && s.approvals[a].expiresAt <= when
    ensures var after := Apply(cfg, s, ExpireApproval(a, when));
            after.Some? && LeasedInv(cfg, after.value)
            && after.value.approvals == s.approvals[a := ExpiredBy(s.approvals[a], when)]
  {
    QueueNeverCollides(cfg, s);
    ApplyKeeps(cfg, s, ExpireApproval(a, when));
    ApplyKeepsShapes(cfg, s, ExpireApproval(a, when));
  }
}
