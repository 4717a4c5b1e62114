/** What one dispatch promises its caller: a replay is silent, a refusal leaves one event and nothing
    else, a park asks once, and a commit was allowed and is paid for. */
module DispatchTheorems {
  import opened Tables
  import opened Ledgers
  import opened Approvals
  import opened Dispatching
  import opened DispatchLaws

  // ---- the four ways a write ends -----------------------------------------------------------

  function ApprovalFor(s: State, ctx: Ctx, call: Call, op: Operation, level: Level): Option<nat> {
    if level == AsksFirst then FirstSpendable(s.approvals, ConsumeFor(ctx, call, op, Some(|s.ledger.actions|))) else None
  }

  function Landing(cfg: Config, s: State, ctx: Ctx, call: Call, op: Operation, level: Level): CommitOutcome
    requires AggregateOf(call.op, op, call.args).Some? && Written(cfg, s, ctx, call, op, level).Some?
  {
    var (after, result) := Written(cfg, s, ctx, call, op, level).value;
    CommitTo(after.ledger, CommitFor(ctx, call, op, level, AggregateOf(call.op, op, call.args).value, result,
                                     ApprovalFor(s, ctx, call, op, level)))
  }

  /** A write that got past its spend and its body, as the commit decides it. */
  lemma WriteLands(cfg: Config, s: State, ctx: Ctx, call: Call, op: Operation, level: Level)
    requires op.target.Some? ==> call.expected.Some?
    requires AggregateOf(call.op, op, call.args).Some?
    requires level == AsksFirst ==> ApprovalFor(s, ctx, call, op, level).Some?
    requires Written(cfg, s, ctx, call, op, level).Some?
    ensures var (after, result) := Written(cfg, s, ctx, call, op, level).value;
            after.ledger == s.ledger
            && WriteCall(cfg, s, ctx, call, op, level)
            == match Landing(cfg, s, ctx, call, op, level)
               case Wrote(l, i) => Ran(after.(ledger := l), Committed(Some(i), result))
               case Stored(i) => Ran(after, Committed(Some(i), result))
               case VersionConflict(x, y) =>
                 Deny(s, ctx, call, "version_conflict", Conflicting(x, y), AggregateOf(call.op, op, call.args).value)
  {
    var c := ConsumeFor(ctx, call, op, Some(|s.ledger.actions|));
    BodyMovesApprovals(cfg, if level == AsksFirst then s.(approvals := ConsumeAll(s.approvals, c)) else s, ctx, op, call.args);
  }

  /** The form of every committed write. */
  lemma AdmitCommitted(cfg: Config, s: State, ctx: Ctx, call: Call, i: nat, result: Result)
    requires call.op in cfg.registry && StoredAction(s.ledger, ReservationFor(ctx, call)) == None
    requires Admit(cfg, s, ctx, call).Ran? && Admit(cfg, s, ctx, call).outcome == Committed(Some(i), result)
    ensures var op := cfg.registry[call.op];
            && op.mode == Write && op.valid(call.args)
            && EffectiveLevel(s, ctx, call.op).Some?
            && AggregateOf(call.op, op, call.args).Some?
            && var level := EffectiveLevel(s, ctx, call.op).value;
               && level in {MayUse, AsksFirst}
               && (level == AsksFirst ==> ApprovalFor(s, ctx, call, op, level).Some?)
               && Written(cfg, s, ctx, call, op, level).Some?
               && var (after, result') := Written(cfg, s, ctx, call, op, level).value;
                  && result' == result && after.ledger == s.ledger
                  && Landing(cfg, s, ctx, call, op, level).Wrote?
                  && i == |s.ledger.actions|
                  && Admit(cfg, s, ctx, call).state == after.(ledger := Landing(cfg, s, ctx, call, op, level).ledger)
  {
    var op := cfg.registry[call.op];
    var level := EffectiveLevel(s, ctx, call.op).value;
    assert op.mode == Write;
    assert WriteCall(cfg, s, ctx, call, op, level).outcome == Committed(Some(i), result);
    WriteLands(cfg, s, ctx, call, op, level);
  }

  /** The state a read's body runs on: the spend, if it had to ask. */
  function ReadFrom(s: State, ctx: Ctx, call: Call, op: Operation, level: Level): State {
    if level == AsksFirst then s.(approvals := ConsumeAll(s.approvals, ConsumeFor(ctx, call, op, None))) else s
  }

  /** The form of every answered read. */
  lemma AdmitRead(cfg: Config, s: State, ctx: Ctx, call: Call, result: Result)
    requires call.op in cfg.registry
    requires Admit(cfg, s, ctx, call).Ran? && Admit(cfg, s, ctx, call).outcome == Committed(None, result)
    ensures var op := cfg.registry[call.op];
            && op.mode == Read
            && EffectiveLevel(s, ctx, call.op).Some?
            && AggregateOf(call.op, op, call.args).Some?
            && var from := ReadFrom(s, ctx, call, op, EffectiveLevel(s, ctx, call.op).value);
               && RunBody(cfg, from, ctx, op, call.args).Some?
               && var (after, result') := RunBody(cfg, from, ctx, op, call.args).value;
                  && result' == result
                  && Admit(cfg, s, ctx, call).state == after.(ledger :=
                       AppendTo(after.ledger, ReadAudit, AggregateOf(call.op, op, call.args).value, RunOf(ctx), StepOf(ctx),
                                ctx.principal, Some(call.op), Reading(call.args)))
  {
    var op := cfg.registry[call.op];
    var level := EffectiveLevel(s, ctx, call.op).value;
    if op.mode == Write {
      if level == AsksFirst && ApprovalFor(s, ctx, call, op, level).None? {
        assert false;
      } else {
        WriteLands(cfg, s, ctx, call, op, level);
      }
    }
  }

  // ---- replay -------------------------------------------------------------------------------

  /** A write that committed is never run again: at any later time, from the same step and under
      the same call id, whatever the arguments, grants and clock, the same operation answers with
      the same action and changes nothing at all. */
  lemma CommittedWriteReplays(cfg: Config, s: State, ctx: Ctx, call: Call, i: nat, result: Result,
                              later: State, ctx': Ctx, call': Call)
    requires Sound(cfg, s) && Dispatch(cfg, s, ctx, call).Ran?
    requires Dispatch(cfg, s, ctx, call).outcome == Committed(Some(i), result)
    requires LedgerGrows(Dispatch(cfg, s, ctx, call).state.ledger, later.ledger)
    requires ctx'.at == ctx.at && call'.op == call.op && call'.id == call.id
    ensures Dispatch(cfg, later, ctx', call') == Ran(later, Replayed(i))
  {
    var r := ReservationFor(ctx, call);
    if StoredAction(s.ledger, r).None? {
      var reserved := Reserve(s, r);
      ReserveKeepsSound(cfg, s, r);
      CommitCompletesReservation(cfg, reserved, ctx, call, i, result);
    }
    assert StoredAction(Dispatch(cfg, s, ctx, call).state.ledger, r) == Some(i);
  }

  lemma CommitCompletesReservation(cfg: Config, s: State, ctx: Ctx, call: Call, i: nat, result: Result)
    requires Sound(cfg, s) && call.op in cfg.registry && StoredAction(s.ledger, ReservationFor(ctx, call)) == None
    requires Admit(cfg, s, ctx, call).Ran? && Admit(cfg, s, ctx, call).outcome == Committed(Some(i), result)
    ensures StoredAction(Admit(cfg, s, ctx, call).state.ledger, ReservationFor(ctx, call)) == Some(i)
    ensures i == |s.ledger.actions|
  {
    AdmitCommitted(cfg, s, ctx, call, i, result);
  }

  lemma ParkNeverReplays(s: State, ctx: Ctx, call: Call, op: Operation)
    ensures ParkCall(s, ctx, call, op).Ran? && !ParkCall(s, ctx, call, op).outcome.Replayed?
  {
  }

  lemma WriteNeverReplays(cfg: Config, s: State, ctx: Ctx, call: Call, op: Operation, level: Level)
    ensures var d := WriteCall(cfg, s, ctx, call, op, level); d.Ran? ==> !d.outcome.Replayed?
  {
    ParkNeverReplays(s, ctx, call, op);
    var asks := level == AsksFirst && ApprovalFor(s, ctx, call, op, level).None?;
    if (op.target.Some? ==> call.expected.Some?) && AggregateOf(call.op, op, call.args).Some? && !asks
       && Written(cfg, s, ctx, call, op, level).Some?
    {
      WriteLands(cfg, s, ctx, call, op, level);
    }
  }

  lemma ReadNeverReplays(cfg: Config, s: State, ctx: Ctx, call: Call, op: Operation, level: Level)
    ensures var d := ReadCall(cfg, s, ctx, call, op, level); d.Ran? ==> !d.outcome.Replayed?
  {
    ParkNeverReplays(s, ctx, call, op);
  }

  /** A replay answers from the stored reservation and changes nothing. */
  lemma ReplayIsSilent(cfg: Config, s: State, ctx: Ctx, call: Call)
    ensures var d := Dispatch(cfg, s, ctx, call);
            d.Ran? && d.outcome.Replayed? ==>
              d.state == s && StoredAction(s.ledger, ReservationFor(ctx, call)) == Some(d.outcome.stored)
  {
    if call.op in cfg.registry && StoredAction(s.ledger, ReservationFor(ctx, call)).None? {
      AdmitNeverReplays(cfg, Reserve(s, ReservationFor(ctx, call)), ctx, call);
    }
  }

  lemma AdmitNeverReplays(cfg: Config, s: State, ctx: Ctx, call: Call)
    requires call.op in cfg.registry
    ensures Admit(cfg, s, ctx, call).Ran? ==> !Admit(cfg, s, ctx, call).outcome.Replayed?
  {
    var op, level := cfg.registry[call.op], EffectiveLevel(s, ctx, call.op);
    if level.Some? {
      ReadNeverReplays(cfg, s, ctx, call, op, level.value);
      WriteNeverReplays(cfg, s, ctx, call, op, level.value);
    }
  }

  // ---- refusals -----------------------------------------------------------------------------

  /** The only trace a refusal leaves. */
  ghost predicate OnlyDenied(s: State, s': State, ctx: Ctx, call: Call, reason: string, at: nat, detail: Detail) {
    && s'.threads == s.threads && s'.approvals == s.approvals
    && s'.data == s.data && s'.grants == s.grants
    && s'.ledger.heads == s.ledger.heads && s'.ledger.actions == s.ledger.actions
    && s'.ledger.keys == s.ledger.keys - {ReservationFor(ctx, call)}
    && at == |s.ledger.events|
    && |s'.ledger.events| == at + 1 && s.ledger.events <= s'.ledger.events
    && var e := s'.ledger.events[at];
       && e.kind == Denial && e.version == 0 && e.action == None && e.op == Some(call.op)
       && e.run == RunOf(ctx) && e.step == StepOf(ctx) && e.principal == ctx.principal
       && e.payload == Refusal(reason, Some(call.id), detail)
  }

  lemma UnreservedIsUndone(s: State, r: Reservation)
    ensures Reserve(s, r).ledger.keys - {r} == s.ledger.keys - {r}
  {
  }

  /** Whatever the reason, and even when the body ran and an approval was spent before the version
      check failed, a refusal leaves exactly one denial event and drops exactly its own
      reservation: domain data, stream heads, actions, approvals, runs and every other key stand. */
  lemma RefusalFrame(cfg: Config, s: State, ctx: Ctx, call: Call)
    requires Dispatch(cfg, s, ctx, call).Ran? && Dispatch(cfg, s, ctx, call).outcome.Denied?
    ensures var Ran(s', Denied(reason, at, detail)) := Dispatch(cfg, s, ctx, call);
            OnlyDenied(s, s', ctx, call, reason, at, detail)
  {
    var r := ReservationFor(ctx, call);
    var Ran(s', Denied(reason, at, detail)) := Dispatch(cfg, s, ctx, call);
    if call.op in cfg.registry && StoredAction(s.ledger, r).None? {
      UnreservedIsUndone(s, r);
      AdmitRefusal(cfg, Reserve(s, r), ctx, call);
    }
  }

  lemma AdmitRefusal(cfg: Config, s: State, ctx: Ctx, call: Call)
    requires call.op in cfg.registry && Admit(cfg, s, ctx, call).Ran? && Admit(cfg, s, ctx, call).outcome.Denied?
    ensures var Ran(s', Denied(reason, at, detail)) := Admit(cfg, s, ctx, call);
            OnlyDenied(s, s', ctx, call, reason, at, detail)
  {
    var op := cfg.registry[call.op];
    var level := EffectiveLevel(s, ctx, call.op);
    if level.Some? && level.value != Never && op.valid(call.args) {
      if op.mode == Read {
        assert ParkCall(s, ctx, call, op).outcome.Denied?;
        ParkRefusal(s, ctx, call, op);
      } else {
        WriteRefusal(cfg, s, ctx, call, op, level.value);
      }
    }
  }

  lemma ParkRefusal(s: State, ctx: Ctx, call: Call, op: Operation)
    requires ParkCall(s, ctx, call, op).outcome.Denied?
    ensures var Ran(s', Denied(reason, at, detail)) := ParkCall(s, ctx, call, op);
            OnlyDenied(s, s', ctx, call, reason, at, detail)
  {
  }

  lemma WriteRefusal(cfg: Config, s: State, ctx: Ctx, call: Call, op: Operation, level: Level)
    requires WriteCall(cfg, s, ctx, call, op, level).Ran? && WriteCall(cfg, s, ctx, call, op, level).outcome.Denied?
    ensures var Ran(s', Denied(reason, at, detail)) := WriteCall(cfg, s, ctx, call, op, level);
            OnlyDenied(s, s', ctx, call, reason, at, detail)
  {
    if op.target.Some? && call.expected.None? {
    } else if level == AsksFirst && ApprovalFor(s, ctx, call, op, level).None? {
      ParkRefusal(s, ctx, call, op);
    } else {
      WriteLands(cfg, s, ctx, call, op, level);
    }
  }

  /** A conflict is only reported when the version read is not the number of commits there are, and
      it reports both. */
  lemma ConflictIsReal(cfg: Config, s: State, ctx: Ctx, call: Call)
    requires Sound(cfg, s) && Dispatch(cfg, s, ctx, call).Ran? && Dispatch(cfg, s, ctx, call).outcome.Denied?
    requires Dispatch(cfg, s, ctx, call).outcome.reason == "version_conflict"
    ensures call.op in cfg.registry && call.expected.Some?
    ensures var a := AggregateOf(call.op, cfg.registry[call.op], call.args);
            && a.Some?
            && var n := |Stream(s.ledger.events, a.value)|;
               && call.expected.value != n
               && Dispatch(cfg, s, ctx, call).outcome.detail == Conflicting(call.expected.value, n)
  {
    var r := ReservationFor(ctx, call);
    var reserved := Reserve(s, r);
    ReserveKeepsSound(cfg, s, r);
    ConflictForm(cfg, reserved, ctx, call);
    assert GaplessOn(s.ledger, AggregateOf(call.op, cfg.registry[call.op], call.args).value);
  }

  lemma ConflictForm(cfg: Config, s: State, ctx: Ctx, call: Call)
    requires call.op in cfg.registry && Admit(cfg, s, ctx, call).Ran? && Admit(cfg, s, ctx, call).outcome.Denied?
    requires Admit(cfg, s, ctx, call).outcome.reason == "version_conflict"
    ensures call.expected.Some?
    ensures var a := AggregateOf(call.op, cfg.registry[call.op], call.args);
            && a.Some? && call.expected.value != VersionOf(s.ledger, a.value)
            && Admit(cfg, s, ctx, call).outcome.detail == Conflicting(call.expected.value, VersionOf(s.ledger, a.value))
  {
    var op := cfg.registry[call.op];
    var level := EffectiveLevel(s, ctx, call.op).value;
    assert op.mode == Write;
    WriteLands(cfg, s, ctx, call, op, level);
  }

  // ---- parks --------------------------------------------------------------------------------

  /** Asking a person writes nothing but the question, at most once, and keeps the call's
      reservation open so that the parked call resumes under the same key. */
  lemma WaitingFrame(cfg: Config, s: State, ctx: Ctx, call: Call)
    requires Dispatch(cfg, s, ctx, call).Ran? && Dispatch(cfg, s, ctx, call).outcome.Waiting?
    ensures call.op in cfg.registry && ctx.at.Some?
    ensures var Ran(s', Waiting(a, expiresAt)) := Dispatch(cfg, s, ctx, call);
            && s' == s.(approvals := s'.approvals, ledger := s.ledger.(keys := s.ledger.keys[ReservationFor(ctx, call) := None]))
            && a < |s'.approvals| && s'.approvals[a].state == Requested && s'.approvals[a].expiresAt == expiresAt
            && (s'.approvals == s.approvals
                || (a == |s.approvals| && |s'.approvals| == a + 1 && s.approvals <= s'.approvals
                    && s'.approvals[a].grantedTo == ctx.principal
                    && s'.approvals[a].digest == ArgsDigest(cfg.registry[call.op].versionId, call.args)
                    && expiresAt == ctx.now + LIFETIME))
            && s'.approvals[a].run == ctx.at.value.run && s'.approvals[a].step == ctx.at.value.step
            && s'.approvals[a].call == call.id
  {
    var r := ReservationFor(ctx, call);
    assert Reserve(s, r).ledger.keys == s.ledger.keys[r := None];
    WaitingForm(cfg, Reserve(s, r), ctx, call);
  }

  lemma WaitingForm(cfg: Config, s: State, ctx: Ctx, call: Call)
    requires call.op in cfg.registry && Admit(cfg, s, ctx, call).Ran? && Admit(cfg, s, ctx, call).outcome.Waiting?
    ensures Admit(cfg, s, ctx, call) == ParkCall(s, ctx, call, cfg.registry[call.op])
  {
    var op := cfg.registry[call.op];
    var level := EffectiveLevel(s, ctx, call.op).value;
    if op.mode == Write && !(level == AsksFirst && ApprovalFor(s, ctx, call, op, level).None?) {
      WriteLands(cfg, s, ctx, call, op, level);
    }
  }

  // ---- commits ------------------------------------------------------------------------------

  /** The principal holds a grant of the operation, and so does the ceiling, where there is one. */
  ghost predicate GrantedOnBothSides(s: State, p: Principal, ceiling: Option<Grants>, op: string) {
    p in s.grants && op in s.grants[p] && (ceiling.Some? ==> op in ceiling.value)
  }

  /** Neither of them is `never`, and the level that applies is the stricter of the two. */
  ghost predicate Allowed(s: State, p: Principal, ceiling: Option<Grants>, op: string, level: Level) {
    && GrantedOnBothSides(s, p, ceiling, op)
    && s.grants[p][op] != Never && (ceiling.Some? ==> ceiling.value[op] != Never)
    && level == if s.grants[p][op] == AsksFirst || (ceiling.Some? && ceiling.value[op] == AsksFirst) then AsksFirst else MayUse
  }

  /** A call runs at a level exactly when both sides allow it at that level; it has none exactly when a
      side grants nothing, and is `never` exactly when a side says so. */
  lemma LevelIsStricter(s: State, ctx: Ctx, op: string, level: Level)
    ensures level != Never ==> (EffectiveLevel(s, ctx, op) == Some(level) <==> Allowed(s, ctx.principal, ctx.ceiling, op, level))
    ensures EffectiveLevel(s, ctx, op) == None <==> !GrantedOnBothSides(s, ctx.principal, ctx.ceiling, op)
    ensures EffectiveLevel(s, ctx, op) == Some(Never) <==>
              GrantedOnBothSides(s, ctx.principal, ctx.ceiling, op)
              && (s.grants[ctx.principal][op] == Never || (ctx.ceiling.Some? && ctx.ceiling.value[op] == Never))
  {
  }

  /** An approval that pays for these arguments: open, unexpired, and given to this principal for this
      version of the operation and exactly these arguments. Neither run nor step has to match. */
  ghost predicate Pays(a: Approval, ctx: Ctx, versionId: string, args: Json) {
    && a.state == Open && a.expiresAt > ctx.now
    && a.grantedTo == ctx.principal && a.versionId == versionId && a.digest == ArgsDigest(versionId, args)
  }

  ghost predicate SomePays(rows: seq<Approval>, ctx: Ctx, versionId: string, args: Json) {
    exists a :: 0 <= a < |rows| && Pays(rows[a], ctx, versionId, args)
  }

  lemma PayingIsSpendable(rows: seq<Approval>, ctx: Ctx, call: Call, op: Operation, action: Option<nat>)
    ensures forall a :: 0 <= a < |rows| ==> (Pays(rows[a], ctx, op.versionId, call.args) <==> Spendable(rows[a], ConsumeFor(ctx, call, op, action)))
    ensures FirstSpendable(rows, ConsumeFor(ctx, call, op, action)).Some? <==> SomePays(rows, ctx, op.versionId, call.args)
  {
    var found := FirstSpendable(rows, ConsumeFor(ctx, call, op, action));
    if found.Some? { assert Pays(rows[found.value], ctx, op.versionId, call.args); }
  }

  /** The identity of a call: its operation and id, and the run and step it is made from. */
  ghost function KeyAt(ctx: Ctx, id: string): Key {
    match ctx.at
    case None => Key(None, None, id)
    case Some(place) => Key(Some(place.run), Some(place.step), id)
  }

  /** Where a call's events go: its target's own stream, or the operation's. */
  ghost predicate GoesTo(name: string, op: Operation, args: Json, a: Aggregate) {
    match op.target
    case None => a == Aggregate("operation", OfOperation(name))
    case Some(target) => target.path(args).Some? && a == Aggregate(target.kind, OfTarget(target.path(args).value))
  }

  lemma TargetIsParsed(name: string, op: Operation, args: Json)
    ensures forall a :: AggregateOf(name, op, args) == Some(a) <==> GoesTo(name, op, args, a)
  {
  }

  /** The three checks as the dispatch makes them. */
  lemma ChecksOf(s: State, ctx: Ctx, call: Call, op: Operation, action: Option<nat>)
    ensures forall level :: level != Never ==>
              (EffectiveLevel(s, ctx, call.op) == Some(level) <==> Allowed(s, ctx.principal, ctx.ceiling, call.op, level))
    ensures FirstSpendable(s.approvals, ConsumeFor(ctx, call, op, action)).Some? <==> SomePays(s.approvals, ctx, op.versionId, call.args)
    ensures forall a :: AggregateOf(call.op, op, call.args) == Some(a) <==> GoesTo(call.op, op, call.args, a)
  {
    forall level | level != Never
      ensures EffectiveLevel(s, ctx, call.op) == Some(level) <==> Allowed(s, ctx.principal, ctx.ceiling, call.op, level)
    {
      LevelIsStricter(s, ctx, call.op, level);
    }
    PayingIsSpendable(s.approvals, ctx, call, op, action);
    TargetIsParsed(call.op, op, call.args);
  }

  /** A committed write was allowed at that moment; it is one new action and one new commit event,
      the next version of its aggregate, holding the call's own arguments and result; and if it had
      to ask, it names an open, unexpired approval for the same principal, operation version and
      arguments, which it spent. */
  lemma CommitIsAuthorised(cfg: Config, s: State, ctx: Ctx, call: Call, i: nat, result: Result)
    requires Sound(cfg, s) && Dispatch(cfg, s, ctx, call).Ran?
    requires Dispatch(cfg, s, ctx, call).outcome == Committed(Some(i), result)
    ensures call.op in cfg.registry && cfg.registry[call.op].valid(call.args) && cfg.registry[call.op].mode == Write
    ensures var l, l' := s.ledger, Dispatch(cfg, s, ctx, call).state.ledger;
            && i == |l.actions| && |l'.actions| == i + 1 && l.actions <= l'.actions
            && |l'.events| == |l.events| + 1 && l.events <= l'.events
    ensures var act := Dispatch(cfg, s, ctx, call).state.ledger.actions[i];
            && act.event == |s.ledger.events| && act.key == KeyAt(ctx, call.id)
            && act.versionId == cfg.registry[call.op].versionId
            && act.compensator == cfg.registry[call.op].compensator && act.compensatorArgs == Some(result)
            && Allowed(s, ctx.principal, ctx.ceiling, call.op, act.level)
    ensures var e := Dispatch(cfg, s, ctx, call).state.ledger.events[|s.ledger.events|];
            && e.kind == OperationCommit && e.op == Some(call.op) && e.principal == ctx.principal
            && e.run == KeyAt(ctx, call.id).run && e.step == KeyAt(ctx, call.id).step
            && e.payload == Committing(call.args, result)
            && GoesTo(call.op, cfg.registry[call.op], call.args, e.aggregate)
            && e.version == |Stream(s.ledger.events, e.aggregate)| + 1
    ensures var act := Dispatch(cfg, s, ctx, call).state.ledger.actions[i];
            && (act.level == AsksFirst <==> act.approval.Some?)
            && (act.approval.Some? ==>
              && act.approval.value < |s.approvals|
              && Pays(s.approvals[act.approval.value], ctx, cfg.registry[call.op].versionId, call.args))
  {
    var reserved := Reserve(s, ReservationFor(ctx, call));
    ReserveKeepsSound(cfg, s, ReservationFor(ctx, call));
    AdmitCommitted(cfg, reserved, ctx, call, i, result);
    var level := EffectiveLevel(reserved, ctx, call.op).value;
    assert EffectiveLevel(s, ctx, call.op) == Some(level);
    LevelIsStricter(s, ctx, call.op, level);
    PayingIsSpendable(s.approvals, ctx, call, cfg.registry[call.op], Some(i));
    TargetIsParsed(call.op, cfg.registry[call.op], call.args);
    assert GaplessOn(s.ledger, AggregateOf(call.op, cfg.registry[call.op], call.args).value);
  }

  // ---- exactly when a write commits ---------------------------------------------------------

  /** What a call must find to get past its checks: both sides allow it, its arguments are valid, and if
      it asks first, something pays for it. */
  ghost predicate Cleared(cfg: Config, s: State, ctx: Ctx, call: Call)
    requires call.op in cfg.registry
  {
    var op := cfg.registry[call.op];
    && op.valid(call.args)
    && (Allowed(s, ctx.principal, ctx.ceiling, call.op, MayUse)
        || (Allowed(s, ctx.principal, ctx.ceiling, call.op, AsksFirst) && SomePays(s.approvals, ctx, op.versionId, call.args)))
  }

  /** Everything a fresh call of a domain write needs to reach its commit. */
  ghost predicate ReachesCommit(cfg: Config, s: State, ctx: Ctx, call: Call)
    requires call.op in cfg.registry && cfg.registry[call.op].body.Plain?
  {
    var op := cfg.registry[call.op];
    && Cleared(cfg, s, ctx, call)
    && (op.target.Some? ==> call.expected.Some?) && (exists a :: GoesTo(call.op, op, call.args, a))
    && op.body.run(s.data, call.args).Some?
  }

  /** And to land it: a versioned write states the number of commits its target has. */
  ghost predicate MayCommit(cfg: Config, s: State, ctx: Ctx, call: Call)
    requires call.op in cfg.registry && cfg.registry[call.op].body.Plain?
  {
    var op := cfg.registry[call.op];
    && ReachesCommit(cfg, s, ctx, call)
    && (op.target.Some? ==> forall a :: GoesTo(call.op, op, call.args, a) ==> call.expected.value == |Stream(s.ledger.events, a)|)
  }

  /** A domain write under a fresh key commits exactly when its principal and its run both allow it, its
      arguments parse, the version it states is the number of commits its target has, an approval can be
      spent if it must ask, and its body does not raise. */
  lemma WriteCommitsIff(cfg: Config, s: State, ctx: Ctx, call: Call)
    requires Sound(cfg, s) && call.op in cfg.registry && StoredAction(s.ledger, ReservationFor(ctx, call)) == None
    requires cfg.registry[call.op].mode == Write && cfg.registry[call.op].body.Plain?
    ensures (Dispatch(cfg, s, ctx, call).Ran? && Dispatch(cfg, s, ctx, call).outcome.Committed?) <==> MayCommit(cfg, s, ctx, call)
  {
    var m := Reserve(s, ReservationFor(ctx, call));
    assert Dispatch(cfg, s, ctx, call) == Admit(cfg, m, ctx, call);
    assert MayCommit(cfg, m, ctx, call) <==> MayCommit(cfg, s, ctx, call);
    ReserveKeepsSound(cfg, s, ReservationFor(ctx, call));
    CommittedMayCommit(cfg, m, ctx, call);
    MayCommitCommits(cfg, m, ctx, call);
  }

  /** It is refused as a conflict exactly when it would have committed but for the version it states. */
  lemma ConflictIff(cfg: Config, s: State, ctx: Ctx, call: Call)
    requires Sound(cfg, s) && call.op in cfg.registry && StoredAction(s.ledger, ReservationFor(ctx, call)) == None
    requires cfg.registry[call.op].mode == Write && cfg.registry[call.op].body.Plain?
    ensures var d := Dispatch(cfg, s, ctx, call);
            (d.Ran? && d.outcome.Denied? && d.outcome.reason == "version_conflict")
            <==> ReachesCommit(cfg, s, ctx, call) && !MayCommit(cfg, s, ctx, call)
  {
    var m := Reserve(s, ReservationFor(ctx, call));
    assert Dispatch(cfg, s, ctx, call) == Admit(cfg, m, ctx, call);
    assert ReachesCommit(cfg, m, ctx, call) <==> ReachesCommit(cfg, s, ctx, call);
    assert MayCommit(cfg, m, ctx, call) <==> MayCommit(cfg, s, ctx, call);
    ReserveKeepsSound(cfg, s, ReservationFor(ctx, call));
    ConflictReachesCommit(cfg, m, ctx, call);
    ReachingLands(cfg, m, ctx, call);
    CommittedMayCommit(cfg, m, ctx, call);
    MayCommitCommits(cfg, m, ctx, call);
  }

  lemma ConflictReachesCommit(cfg: Config, s: State, ctx: Ctx, call: Call)
    requires call.op in cfg.registry && cfg.registry[call.op].mode == Write && cfg.registry[call.op].body.Plain?
    ensures var d := Admit(cfg, s, ctx, call);
            d.Ran? && d.outcome.Denied? && d.outcome.reason == "version_conflict" ==> ReachesCommit(cfg, s, ctx, call)
  {
    var d, op := Admit(cfg, s, ctx, call), cfg.registry[call.op];
    if d.Ran? && d.outcome.Denied? && d.outcome.reason == "version_conflict" {
      ChecksOf(s, ctx, call, op, Some(|s.ledger.actions|));
    }
  }

  lemma ReachingLands(cfg: Config, s: State, ctx: Ctx, call: Call)
    requires call.op in cfg.registry && StoredAction(s.ledger, ReservationFor(ctx, call)) == None
    requires cfg.registry[call.op].mode == Write && cfg.registry[call.op].body.Plain?
    ensures ReachesCommit(cfg, s, ctx, call) ==>
              var d := Admit(cfg, s, ctx, call);
              d.Ran? && (d.outcome.Committed? || (d.outcome.Denied? && d.outcome.reason == "version_conflict"))
  {
    var op := cfg.registry[call.op];
    if ReachesCommit(cfg, s, ctx, call) {
      ChecksOf(s, ctx, call, op, Some(|s.ledger.actions|));
      WriteLands(cfg, s, ctx, call, op, EffectiveLevel(s, ctx, call.op).value);
    }
  }

  lemma CommittedMayCommit(cfg: Config, s: State, ctx: Ctx, call: Call)
    requires Sound(cfg, s) && call.op in cfg.registry && StoredAction(s.ledger, ReservationFor(ctx, call)) == None
    requires cfg.registry[call.op].mode == Write && cfg.registry[call.op].body.Plain?
    ensures Admit(cfg, s, ctx, call).Ran? && Admit(cfg, s, ctx, call).outcome.Committed? ==> MayCommit(cfg, s, ctx, call)
  {
    var d, op := Admit(cfg, s, ctx, call), cfg.registry[call.op];
    if d.Ran? && d.outcome.Committed? {
      if d.outcome.action.None? { AdmitRead(cfg, s, ctx, call, d.outcome.result); }
      AdmitCommitted(cfg, s, ctx, call, d.outcome.action.value, d.outcome.result);
      ChecksOf(s, ctx, call, op, Some(|s.ledger.actions|));
      assert GaplessOn(s.ledger, AggregateOf(call.op, op, call.args).value);
    }
  }

  lemma MayCommitCommits(cfg: Config, s: State, ctx: Ctx, call: Call)
    requires Sound(cfg, s) && call.op in cfg.registry && StoredAction(s.ledger, ReservationFor(ctx, call)) == None
    requires cfg.registry[call.op].mode == Write && cfg.registry[call.op].body.Plain?
    ensures MayCommit(cfg, s, ctx, call) ==> Admit(cfg, s, ctx, call).Ran? && Admit(cfg, s, ctx, call).outcome.Committed?
  {
    var op := cfg.registry[call.op];
    if MayCommit(cfg, s, ctx, call) {
      ChecksOf(s, ctx, call, op, Some(|s.ledger.actions|));
      assert GaplessOn(s.ledger, AggregateOf(call.op, op, call.args).value);
      WriteLands(cfg, s, ctx, call, op, EffectiveLevel(s, ctx, call.op).value);
    }
  }

  /** A call that asks first spends every approval that pays for it, so that none is left that does; one
      that may run at once spends none. */
  ghost predicate PaidWith(s: State, rows: seq<Approval>, ctx: Ctx, op: string, versionId: string, args: Json, spender: Option<nat>) {
    && |rows| == |s.approvals|
    && forall a :: 0 <= a < |rows| ==>
         rows[a] == if Allowed(s, ctx.principal, ctx.ceiling, op, AsksFirst) && Pays(s.approvals[a], ctx, versionId, args)
                    then s.approvals[a].(state := Consumed, consumedBy := spender) else s.approvals[a]
  }

  lemma SpendIsPayment(s: State, ctx: Ctx, call: Call, op: Operation, spender: Option<nat>)
    ensures var asks := EffectiveLevel(s, ctx, call.op) == Some(AsksFirst);
            PaidWith(s, if asks then ConsumeAll(s.approvals, ConsumeFor(ctx, call, op, spender)) else s.approvals,
                     ctx, call.op, op.versionId, call.args, spender)
  {
    LevelIsStricter(s, ctx, call.op, AsksFirst);
    PayingIsSpendable(s.approvals, ctx, call, op, spender);
  }

  /** What a committed write of a domain operation does to everything but the ledger: it runs its
      body once on the data, spends exactly what pays for it, and touches no run and no grant. */
  lemma CommitEffect(cfg: Config, s: State, ctx: Ctx, call: Call, i: nat, result: Result)
    requires Dispatch(cfg, s, ctx, call).Ran? && Dispatch(cfg, s, ctx, call).outcome == Committed(Some(i), result)
    requires call.op in cfg.registry && cfg.registry[call.op].body.Plain? && StoredAction(s.ledger, ReservationFor(ctx, call)) == None
    ensures var s' := Dispatch(cfg, s, ctx, call).state;
            && cfg.registry[call.op].body.run(s.data, call.args) == Some((s'.data, result))
            && s'.threads == s.threads && s'.grants == s.grants
            && PaidWith(s, s'.approvals, ctx, call.op, cfg.registry[call.op].versionId, call.args, Some(i))
  {
    var reserved := Reserve(s, ReservationFor(ctx, call));
    AdmitCommitted(cfg, reserved, ctx, call, i, result);
    SpendIsPayment(s, ctx, call, cfg.registry[call.op], Some(i));
  }

  // ---- a step's dispatches touch no run -----------------------------------------------------

  function Rethread(d: Dispatched, threads: seq<Thread>): Dispatched {
    match d
    case Raised => Raised
    case Ran(s, o) => Ran(s.(threads := threads), o)
  }

  /** From inside a run a dispatch neither reads nor writes the run tables: the one operation that
      would is refused there. */
  lemma InRunIgnoresRuns(cfg: Config, s: State, ctx: Ctx, call: Call, threads: seq<Thread>)
    requires ctx.at.Some?
    ensures Dispatch(cfg, s.(threads := threads), ctx, call) == Rethread(Dispatch(cfg, s, ctx, call), threads)
  {
    var s1 := s.(threads := threads);
    var r := ReservationFor(ctx, call);
    assert Reserve(s1, r) == Reserve(s, r).(threads := threads);
    if call.op in cfg.registry && StoredAction(s.ledger, r).None? {
      AdmitIgnoresRuns(cfg, Reserve(s, r), ctx, call, threads);
    }
  }

  lemma AdmitIgnoresRuns(cfg: Config, s: State, ctx: Ctx, call: Call, threads: seq<Thread>)
    requires ctx.at.Some? && call.op in cfg.registry
    ensures Admit(cfg, s.(threads := threads), ctx, call) == Rethread(Admit(cfg, s, ctx, call), threads)
  {
    var s1 := s.(threads := threads);
    var op := cfg.registry[call.op];
    assert EffectiveLevel(s1, ctx, call.op) == EffectiveLevel(s, ctx, call.op);
    var level := EffectiveLevel(s, ctx, call.op);
    if level.Some? && level.value != Never && op.valid(call.args) {
      if op.mode == Read {
        ReadIgnoresRuns(cfg, s, ctx, call, op, level.value, threads);
      } else {
        WriteIgnoresRuns(cfg, s, ctx, call, op, level.value, threads);
      }
    }
  }

  lemma ReadIgnoresRuns(cfg: Config, s: State, ctx: Ctx, call: Call, op: Operation, level: Level, threads: seq<Thread>)
    requires ctx.at.Some?
    ensures ReadCall(cfg, s.(threads := threads), ctx, call, op, level)
         == Rethread(ReadCall(cfg, s, ctx, call, op, level), threads)
  {
  }

  lemma WriteIgnoresRuns(cfg: Config, s: State, ctx: Ctx, call: Call, op: Operation, level: Level, threads: seq<Thread>)
    requires ctx.at.Some?
    ensures WriteCall(cfg, s.(threads := threads), ctx, call, op, level)
         == Rethread(WriteCall(cfg, s, ctx, call, op, level), threads)
  {
    var consume := ConsumeFor(ctx, call, op, Some(|s.ledger.actions|));
    var spent := if level == AsksFirst then s.(approvals := ConsumeAll(s.approvals, consume)) else s;
    BodyIgnoresRuns(cfg, spent, ctx, op, call.args, threads);
  }

  lemma BodyIgnoresRuns(cfg: Config, s: State, ctx: Ctx, op: Operation, args: Json, threads: seq<Thread>)
    requires ctx.at.Some?
    ensures var x, x' := RunBody(cfg, s, ctx, op, args), RunBody(cfg, s.(threads := threads), ctx, op, args);
            && x.Some? == x'.Some?
            && (x.Some? ==> x'.value == (x.value.0.(threads := threads), x.value.1) && x.value.0 == s.(data := x.value.0.data))
  {
  }

  // ---- no dispatch changes a grant ----------------------------------------------------------

  lemma BodyKeepsGrants(cfg: Config, s: State, ctx: Ctx, op: Operation, args: Json)
    requires RunBody(cfg, s, ctx, op, args).Some?
    ensures RunBody(cfg, s, ctx, op, args).value.0.grants == s.grants
  {
  }

  lemma RefusalKeepsGrants(cfg: Config, s: State, ctx: Ctx, call: Call)
    ensures var d := Dispatch(cfg, s, ctx, call);
            d.Ran? && (d.outcome.Denied? || d.outcome.Waiting?) ==> d.state.grants == s.grants
  {
    var d := Dispatch(cfg, s, ctx, call);
    if d.Ran? && d.outcome.Denied? { RefusalFrame(cfg, s, ctx, call); }
    if d.Ran? && d.outcome.Waiting? { WaitingFrame(cfg, s, ctx, call); }
  }

  lemma CommitKeepsGrants(cfg: Config, s: State, ctx: Ctx, call: Call)
    ensures var d := Dispatch(cfg, s, ctx, call);
            d.Ran? && d.outcome.Committed? ==> d.state.grants == s.grants
  {
    var d := Dispatch(cfg, s, ctx, call);
    if d.Ran? && d.outcome.Committed? {
      var reserved := Reserve(s, ReservationFor(ctx, call));
      assert d == Admit(cfg, reserved, ctx, call);
      AdmitKeepsGrants(cfg, reserved, ctx, call, d.outcome.action, d.outcome.result);
    }
  }

  lemma AdmitKeepsGrants(cfg: Config, s: State, ctx: Ctx, call: Call, i: Option<nat>, result: Result)
    requires call.op in cfg.registry && StoredAction(s.ledger, ReservationFor(ctx, call)) == None
    requires Admit(cfg, s, ctx, call).Ran? && Admit(cfg, s, ctx, call).outcome == Committed(i, result)
    ensures Admit(cfg, s, ctx, call).state.grants == s.grants
  {
    var op := cfg.registry[call.op];
    if i.Some? {
      AdmitCommitted(cfg, s, ctx, call, i.value, result);
      var c := ConsumeFor(ctx, call, op, Some(|s.ledger.actions|));
      var asks := EffectiveLevel(s, ctx, call.op) == Some(AsksFirst);
      BodyKeepsGrants(cfg, if asks then s.(approvals := ConsumeAll(s.approvals, c)) else s, ctx, op, call.args);
    } else {
      AdmitRead(cfg, s, ctx, call, result);
      BodyKeepsGrants(cfg, ReadFrom(s, ctx, call, op, EffectiveLevel(s, ctx, call.op).value), ctx, op, call.args);
    }
  }

  lemma GrantsStand(cfg: Config, s: State, ctx: Ctx, call: Call)
    requires Dispatch(cfg, s, ctx, call).Ran?
    ensures Dispatch(cfg, s, ctx, call).state.grants == s.grants
  {
    RefusalKeepsGrants(cfg, s, ctx, call);
    CommitKeepsGrants(cfg, s, ctx, call);
    ReplayIsSilent(cfg, s, ctx, call);
  }
}
