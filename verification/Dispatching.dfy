/** The one way a declared operation runs, and the only way it is refused (`declare/service.py`). */
module Dispatching {
  import opened Tables
  import opened Ledgers
  import opened Approvals
  import opened Runs

  datatype Place = Place(run: nat, step: nat)

  /** Who calls, from which step of which run if any, under which ceiling, and at what time. */
  datatype Ctx = Ctx(principal: Principal, at: Option<Place>, ceiling: Option<Grants>, now: int)

  datatype Call = Call(op: string, args: Json, id: string, expected: Option<int>)

  datatype Outcome =
    | Committed(action: Option<nat>, result: Result)
    | Replayed(stored: nat)
    | Denied(reason: string, event: nat, detail: Detail)
    | Waiting(approval: nat, expiresAt: int)

  /** `Raised` is an exception out of the body: the caller's transaction aborts. */
  datatype Dispatched = Ran(state: State, outcome: Outcome) | Raised

  function RunOf(ctx: Ctx): Option<nat> { if ctx.at.Some? then Some(ctx.at.value.run) else None }
  function StepOf(ctx: Ctx): Option<nat> { if ctx.at.Some? then Some(ctx.at.value.step) else None }
  function KeyOf(ctx: Ctx, call: Call): Key { Key(RunOf(ctx), StepOf(ctx), call.id) }
  function ReservationFor(ctx: Ctx, call: Call): Reservation { Reservation(call.op, KeyOf(ctx, call)) }
  function OperationAggregate(name: string): Aggregate { Aggregate("operation", OfOperation(name)) }

  /** ADR-0015: the stricter of the run's ceiling and the caller's own grant, where both grant it. */
  function UnderCeiling(ceiling: Option<Grants>, op: string, level: Option<Level>): Option<Level> {
    if ceiling.None? then level
    else if level.None? || op !in ceiling.value then None
    else
      var bound := ceiling.value[op];
      if Never in {level.value, bound} then Some(Never)
      else if AsksFirst in {level.value, bound} then Some(AsksFirst)
      else level
  }

  function GrantFor(s: State, p: Principal, op: string): Option<Level> {
    if op in GrantsOf(s, p) then Some(GrantsOf(s, p)[op]) else None
  }

  function EffectiveLevel(s: State, ctx: Ctx, op: string): Option<Level> {
    UnderCeiling(ctx.ceiling, op, GrantFor(s, ctx.principal, op))
  }

  /** Where an operation's events go; `None` when the target id does not parse. */
  function AggregateOf(name: string, op: Operation, args: Json): Option<Aggregate> {
    if op.target.None? then Some(OperationAggregate(name))
    else match op.target.value.path(args)
      case None => None
      case Some(id) => Some(Aggregate(op.target.value.kind, OfTarget(id)))
  }

  /** The reservation goes with the refusal, and one denial event is left behind. */
  function Deny(s: State, ctx: Ctx, call: Call, reason: string, detail: Detail, aggregate: Aggregate): Dispatched {
    var unreserved := s.ledger.(keys := s.ledger.keys - {ReservationFor(ctx, call)});
    var l := AppendTo(unreserved, Denial, aggregate, RunOf(ctx), StepOf(ctx), ctx.principal, Some(call.op),
                      Refusal(reason, Some(call.id), detail));
    Ran(s.(ledger := l), Denied(reason, |s.ledger.events|, detail))
  }

  function Refuse(s: State, ctx: Ctx, call: Call, reason: string): Dispatched {
    Deny(s, ctx, call, reason, NoDetail, OperationAggregate(call.op))
  }

  function ConsumeFor(ctx: Ctx, call: Call, op: Operation, action: Option<nat>): Consume {
    Consume(ctx.principal, op.versionId, ArgsDigest(op.versionId, call.args), action, ctx.now)
  }

  /** Ask a person, unless this continuation was already answered. */
  function ParkCall(s: State, ctx: Ctx, call: Call, op: Operation): Dispatched {
    if ctx.at.None? then Refuse(s, ctx, call, "approval_required")
    else
      var p := Park(ctx.principal, op.versionId, ArgsDigest(op.versionId, call.args),
                    ctx.at.value.run, ctx.at.value.step, call.id, ctx.now);
      match ParkIn(s.approvals, p)
      case Asked(rows, a) => Ran(s.(approvals := rows), Waiting(a, rows[a].expiresAt))
      case AlreadyDecided(state, reason) =>
        Deny(s, ctx, call, "approval_unavailable", Answered(state, reason), OperationAggregate(call.op))
  }

  /** What the operation itself does; `decide_approval` refuses a caller inside a run, and one
      that is neither a person nor the system, by raising. */
  function RunBody(cfg: Config, s: State, ctx: Ctx, op: Operation, args: Json): Option<(State, Result)> {
    match op.body
    case Plain(run) =>
      (match run(s.data, args)
       case None => None
       case Some((data, result)) => Some((s.(data := data), result)))
    case Decide(parse) =>
      if ctx.at.Some? || !Decider(cfg.classes, ctx.principal) then None
      else DecideApproval(s, ctx.principal, parse(args))
  }

  function CommitFor(ctx: Ctx, call: Call, op: Operation, level: Level, aggregate: Aggregate,
                     result: Result, approval: Option<nat>): Commit
  {
    Commit(op.versionId, call.op, aggregate, if op.target.Some? then call.expected else None,
           ctx.principal, RunOf(ctx), StepOf(ctx), KeyOf(ctx, call), Committing(call.args, result),
           level, op.compensator, Some(result), approval)
  }

  /** Spend, run and commit inside one savepoint. A lost version race gives all three back. */
  function WriteCall(cfg: Config, s: State, ctx: Ctx, call: Call, op: Operation, level: Level): Dispatched {
    if op.target.Some? && call.expected.None? then Refuse(s, ctx, call, "expected_version_required")
    else if AggregateOf(call.op, op, call.args).None? then Raised
    else
      var aggregate := AggregateOf(call.op, op, call.args).value;
      var consume := ConsumeFor(ctx, call, op, Some(|s.ledger.actions|));
      var approval := if level == AsksFirst then FirstSpendable(s.approvals, consume) else None;
      if level == AsksFirst && approval.None? then ParkCall(s, ctx, call, op)
      else
        var spent := if level == AsksFirst then s.(approvals := ConsumeAll(s.approvals, consume)) else s;
        match RunBody(cfg, spent, ctx, op, call.args)
        case None => Raised
        case Some((after, result)) =>
          match CommitTo(after.ledger, CommitFor(ctx, call, op, level, aggregate, result, approval))
          case Wrote(l, i) => Ran(after.(ledger := l), Committed(Some(i), result))
          case Stored(i) => Ran(after, Committed(Some(i), result))
          case VersionConflict(expected, actual) =>
            Deny(s, ctx, call, "version_conflict", Conflicting(expected, actual), aggregate)
  }

  /** A read commits no action and completes no reservation; it leaves an audit event. */
  function ReadCall(cfg: Config, s: State, ctx: Ctx, call: Call, op: Operation, level: Level): Dispatched {
    var consume := ConsumeFor(ctx, call, op, None);
    if level == AsksFirst && FirstSpendable(s.approvals, consume).None? then ParkCall(s, ctx, call, op)
    else
      var spent := if level == AsksFirst then s.(approvals := ConsumeAll(s.approvals, consume)) else s;
      match RunBody(cfg, spent, ctx, op, call.args)
      case None => Raised
      case Some((after, result)) =>
        match AggregateOf(call.op, op, call.args)
        case None => Raised
        case Some(aggregate) =>
          var l := AppendTo(after.ledger, ReadAudit, aggregate, RunOf(ctx), StepOf(ctx), ctx.principal,
                            Some(call.op), Reading(call.args));
          Ran(after.(ledger := l), Committed(None, result))
  }

  /** Past the reservation: granted, well-formed, then run. */
  function Admit(cfg: Config, s: State, ctx: Ctx, call: Call): Dispatched
    requires call.op in cfg.registry
  {
    var op := cfg.registry[call.op];
    match EffectiveLevel(s, ctx, call.op)
    case None => Refuse(s, ctx, call, "no_grant")
    case Some(Never) => Refuse(s, ctx, call, "never")
    case Some(level) =>
      if !op.valid(call.args) then Refuse(s, ctx, call, "invalid_args")
      else if op.mode == Read then ReadCall(cfg, s, ctx, call, op, level)
      else WriteCall(cfg, s, ctx, call, op, level)
  }

  function Reserve(s: State, r: Reservation): State {
    if r in s.ledger.keys then s else s.(ledger := s.ledger.(keys := s.ledger.keys[r := None]))
  }

  function Dispatch(cfg: Config, s: State, ctx: Ctx, call: Call): Dispatched {
    if call.op !in cfg.registry then Refuse(s, ctx, call, "unknown_operation")
    else match StoredAction(s.ledger, ReservationFor(ctx, call))
      case Some(i) => Ran(s, Replayed(i))
      case None => Admit(cfg, Reserve(s, ReservationFor(ctx, call)), ctx, call)
  }
}
