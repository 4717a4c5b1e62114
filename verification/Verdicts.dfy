/** Exactly when a call gets each answer, from what stands in the tables: a replay, a refusal and its reason,
    a question, or an answered read. `DispatchTheorems` says the same of writes. */
module Verdicts {
  import opened Tables
  import opened Ledgers
  import opened Approvals
  import opened Dispatching
  import opened DispatchLaws
  import opened DispatchTheorems

  // ---- replays ------------------------------------------------------------------------------

  /** Action `i` is the one this call, made from this step under this id, was committed as. */
  ghost predicate WasCommittedAs(l: Ledger, ctx: Ctx, call: Call, i: nat) {
    && i < |l.actions| && l.actions[i].key == KeyAt(ctx, call.id)
    && l.actions[i].event < |l.events| && l.events[l.actions[i].event].op == Some(call.op)
  }

  lemma CommittedIsStored(cfg: Config, s: State, ctx: Ctx, call: Call, i: nat)
    requires Sound(cfg, s)
    ensures WasCommittedAs(s.ledger, ctx, call, i) <==> StoredAction(s.ledger, Reservation(call.op, KeyAt(ctx, call.id))) == Some(i)
  {
    var r := Reservation(call.op, KeyAt(ctx, call.id));
    if WasCommittedAs(s.ledger, ctx, call, i) {
      assert PairedAction(s.ledger, i);
      assert StoredAction(s.ledger, ReservationOf(s.ledger, i)) == Some(i);
    }
    if StoredAction(s.ledger, r) == Some(i) {
      assert r in s.ledger.keys && ReservationOf(s.ledger, i) == r;
    }
  }

  /** A call is answered from the ledger exactly when the same operation was committed before, from the
      same step of the same run and under the same id. */
  lemma ReplayIff(cfg: Config, s: State, ctx: Ctx, call: Call, i: nat)
    requires Sound(cfg, s)
    ensures Dispatch(cfg, s, ctx, call) == Ran(s, Replayed(i)) <==> WasCommittedAs(s.ledger, ctx, call, i)
  {
    var r := ReservationFor(ctx, call);
    assert r == Reservation(call.op, KeyAt(ctx, call.id));
    CommittedIsStored(cfg, s, ctx, call, i);
    if StoredAction(s.ledger, r) == Some(i) {
      assert r in s.ledger.keys && call.op in cfg.registry;
    }
    ReplayIsSilent(cfg, s, ctx, call);
  }

  // ---- asking -------------------------------------------------------------------------------

  /** The call must ask a person, nothing pays for it, and a write has passed the checks that come
      before the spend. */
  ghost predicate MustAsk(cfg: Config, s: State, ctx: Ctx, call: Call)
    requires call.op in cfg.registry
  {
    var op := cfg.registry[call.op];
    && Allowed(s, ctx.principal, ctx.ceiling, call.op, AsksFirst) && op.valid(call.args)
    && !SomePays(s.approvals, ctx, op.versionId, call.args)
    && (op.mode == Write ==> (op.target.Some? ==> call.expected.Some?) && exists a :: GoesTo(call.op, op, call.args, a))
  }

  /** A question put for this continuation that is unanswered, or was answered by a refusal. */
  ghost predicate Stands(a: Approval, place: Place, id: string) {
    && a.run == place.run && a.step == place.step && a.call == id
    && (a.state == Requested || a.state == Rejected || a.state == Expired)
  }

  ghost predicate NoneStands(rows: seq<Approval>, place: Place, id: string) {
    forall j :: 0 <= j < |rows| ==> !Stands(rows[j], place, id)
  }

  ghost predicate FirstStands(rows: seq<Approval>, place: Place, id: string, k: int) {
    0 <= k < |rows| && Stands(rows[k], place, id) && forall j :: 0 <= j < k ==> !Stands(rows[j], place, id)
  }

  /** The question a call asks, for 72 hours. */
  ghost function QuestionOf(ctx: Ctx, place: Place, versionId: string, call: Call): Approval {
    Approval(ctx.principal, None, versionId, ArgsDigest(versionId, call.args), Requested, None,
             place.run, place.step, call.id, ctx.now + 259200, None)
  }

  lemma FirstOfThem(rows: seq<Approval>, place: Place, id: string)
    ensures match FirstStanding(rows, place.run, place.step, id)
            case None => NoneStands(rows, place, id)
            case Some(k) => FirstStands(rows, place, id, k)
    ensures forall k, j :: FirstStands(rows, place, id, k) && FirstStands(rows, place, id, j) ==> k == j
  {
    assert forall j :: 0 <= j < |rows| ==> (Stands(rows[j], place, id) <==> Standing(rows[j], place.run, place.step, id));
  }

  lemma AdmitAsks(cfg: Config, s: State, ctx: Ctx, call: Call)
    requires call.op in cfg.registry && MustAsk(cfg, s, ctx, call)
    ensures Admit(cfg, s, ctx, call) == ParkCall(s, ctx, call, cfg.registry[call.op])
  {
    var op := cfg.registry[call.op];
    ChecksOf(s, ctx, call, op, if op.mode == Read then None else Some(|s.ledger.actions|));
    assert EffectiveLevel(s, ctx, call.op) == Some(AsksFirst);
  }

  /** A call that must ask, and that nothing pays for, runs nothing. Outside a run it is refused. Inside one
      it asks, unless its continuation was put to a person already: then it waits on that same question, or
      is told how it was answered, and adds none. */
  lemma UnpaidCallAsks(cfg: Config, s: State, ctx: Ctx, call: Call)
    requires call.op in cfg.registry && MustAsk(cfg, s, ctx, call) && StoredAction(s.ledger, ReservationFor(ctx, call)) == None
    ensures Dispatch(cfg, s, ctx, call).Ran?
    ensures var Ran(s', o) := Dispatch(cfg, s, ctx, call);
            s'.data == s.data && s'.threads == s.threads && s'.ledger.actions == s.ledger.actions
            && match ctx.at
               case None => o.Denied? && o.reason == "approval_required" && s'.approvals == s.approvals
               case Some(place) =>
                 && (NoneStands(s.approvals, place, call.id) ==>
                       && o == Waiting(|s.approvals|, ctx.now + 259200)
                       && s'.approvals == s.approvals + [QuestionOf(ctx, place, cfg.registry[call.op].versionId, call)])
                 && (forall k :: FirstStands(s.approvals, place, call.id, k) ==>
                       && s'.approvals == s.approvals
                       && if s.approvals[k].state == Requested then o == Waiting(k, s.approvals[k].expiresAt)
                          else o.Denied? && o.reason == "approval_unavailable"
                               && o.detail == Answered(s.approvals[k].state, s.approvals[k].reason))
  {
    AdmitAsks(cfg, Reserve(s, ReservationFor(ctx, call)), ctx, call);
    if ctx.at.Some? { FirstOfThem(s.approvals, ctx.at.value, call.id); }
  }

  lemma OnlyAskingParks(cfg: Config, s: State, ctx: Ctx, call: Call)
    requires call.op in cfg.registry && Admit(cfg, s, ctx, call).Ran?
    requires var o := Admit(cfg, s, ctx, call).outcome;
             o.Waiting? || (o.Denied? && (o.reason == "approval_required" || o.reason == "approval_unavailable"))
    ensures MustAsk(cfg, s, ctx, call)
  {
    var op := cfg.registry[call.op];
    ChecksOf(s, ctx, call, op, if op.mode == Read then None else Some(|s.ledger.actions|));
    var level := EffectiveLevel(s, ctx, call.op).value;
    if op.mode == Write && !(level == AsksFirst && ApprovalFor(s, ctx, call, op, level).None?) {
      WriteLands(cfg, s, ctx, call, op, level);
    }
  }

  /** A call waits exactly when it is made inside a run, was not committed before, must ask and is unpaid,
      and no refusal of its continuation comes first. */
  lemma WaitsIff(cfg: Config, s: State, ctx: Ctx, call: Call)
    ensures var d := Dispatch(cfg, s, ctx, call);
            d.Ran? && d.outcome.Waiting? <==>
              && call.op in cfg.registry && StoredAction(s.ledger, ReservationFor(ctx, call)) == None
              && MustAsk(cfg, s, ctx, call) && ctx.at.Some?
              && forall k :: FirstStands(s.approvals, ctx.at.value, call.id, k) ==> s.approvals[k].state == Requested
  {
    var d, r := Dispatch(cfg, s, ctx, call), ReservationFor(ctx, call);
    if call.op in cfg.registry && StoredAction(s.ledger, r) == None {
      if d.Ran? && d.outcome.Waiting? {
        OnlyAskingParks(cfg, Reserve(s, r), ctx, call);
        assert MustAsk(cfg, s, ctx, call);
      }
      if MustAsk(cfg, s, ctx, call) {
        UnpaidCallAsks(cfg, s, ctx, call);
        if ctx.at.Some? { FirstOfThem(s.approvals, ctx.at.value, call.id); }
      }
    }
  }

  // ---- reads --------------------------------------------------------------------------------

  /** A read of the domain under a fresh key is answered exactly when both sides allow it, its arguments are
      valid, its target parses, its body does not raise, and, if it asks first, something pays for it. */
  lemma ReadAnswersIff(cfg: Config, s: State, ctx: Ctx, call: Call)
    requires call.op in cfg.registry && StoredAction(s.ledger, ReservationFor(ctx, call)) == None
    requires cfg.registry[call.op].mode == Read && cfg.registry[call.op].body.Plain?
    ensures (Dispatch(cfg, s, ctx, call).Ran? && Dispatch(cfg, s, ctx, call).outcome.Committed?) <==>
              && Cleared(cfg, s, ctx, call) && (exists a :: GoesTo(call.op, cfg.registry[call.op], call.args, a))
              && cfg.registry[call.op].body.run(s.data, call.args).Some?
  {
    var m, op := Reserve(s, ReservationFor(ctx, call)), cfg.registry[call.op];
    ReadAdmittedIff(cfg, m, ctx, call);
    ChecksOf(s, ctx, call, op, None);
    assert EffectiveLevel(m, ctx, call.op) == EffectiveLevel(s, ctx, call.op);
    if AggregateOf(call.op, op, call.args).Some? {
      assert GoesTo(call.op, op, call.args, AggregateOf(call.op, op, call.args).value);
    }
  }

  lemma ReadAdmittedIff(cfg: Config, s: State, ctx: Ctx, call: Call)
    requires call.op in cfg.registry && cfg.registry[call.op].mode == Read && cfg.registry[call.op].body.Plain?
    ensures var op, level := cfg.registry[call.op], EffectiveLevel(s, ctx, call.op);
            (Admit(cfg, s, ctx, call).Ran? && Admit(cfg, s, ctx, call).outcome.Committed?) <==>
              && level in {Some(MayUse), Some(AsksFirst)} && op.valid(call.args) && AggregateOf(call.op, op, call.args).Some?
              && (level == Some(AsksFirst) ==> FirstSpendable(s.approvals, ConsumeFor(ctx, call, op, None)).Some?)
              && op.body.run(s.data, call.args).Some?
  {
  }

  /** What an answered read does: it runs its body once, commits no action, leaves one audit event and its
      reservation open, and spends exactly what pays for it, so that the same call has to ask again. */
  lemma ReadEffect(cfg: Config, s: State, ctx: Ctx, call: Call)
    requires call.op in cfg.registry && StoredAction(s.ledger, ReservationFor(ctx, call)) == None
    requires cfg.registry[call.op].mode == Read && cfg.registry[call.op].body.Plain?
    requires Dispatch(cfg, s, ctx, call).Ran? && Dispatch(cfg, s, ctx, call).outcome.Committed?
    ensures Dispatch(cfg, s, ctx, call).outcome.action == None
    ensures var Ran(s', o) := Dispatch(cfg, s, ctx, call);
            && cfg.registry[call.op].body.run(s.data, call.args) == Some((s'.data, o.result))
            && s'.threads == s.threads && s'.grants == s.grants
            && s'.ledger.actions == s.ledger.actions && s'.ledger.heads == s.ledger.heads
            && s'.ledger.keys == s.ledger.keys[Reservation(call.op, KeyAt(ctx, call.id)) := None]
            && |s'.ledger.events| == |s.ledger.events| + 1 && s.ledger.events <= s'.ledger.events
    ensures var s' := Dispatch(cfg, s, ctx, call).state;
            && PaidWith(s, s'.approvals, ctx, call.op, cfg.registry[call.op].versionId, call.args, None)
            && (Allowed(s, ctx.principal, ctx.ceiling, call.op, AsksFirst) ==>
                  !SomePays(s'.approvals, ctx, cfg.registry[call.op].versionId, call.args))
    ensures var e := Dispatch(cfg, s, ctx, call).state.ledger.events[|s.ledger.events|];
            && GoesTo(call.op, cfg.registry[call.op], call.args, e.aggregate)
            && e == Event(ReadAudit, e.aggregate, 0, KeyAt(ctx, call.id).run, KeyAt(ctx, call.id).step, ctx.principal,
                          Some(call.op), Reading(call.args), None)
  {
    var m, op := Reserve(s, ReservationFor(ctx, call)), cfg.registry[call.op];
    var d := Dispatch(cfg, s, ctx, call);
    assert d == Admit(cfg, m, ctx, call);
    ReadHasNoAction(cfg, m, ctx, call);
    AdmitRead(cfg, m, ctx, call, d.outcome.result);
    TargetIsParsed(call.op, op, call.args);
    SpendIsPayment(s, ctx, call, op, None);
    assert EffectiveLevel(m, ctx, call.op) == EffectiveLevel(s, ctx, call.op);
    assert d.state.approvals == ReadFrom(m, ctx, call, op, EffectiveLevel(m, ctx, call.op).value).approvals;
    if Allowed(s, ctx.principal, ctx.ceiling, call.op, AsksFirst) {
      PaidLeavesNone(s, d.state.approvals, ctx, call.op, op.versionId, call.args);
    }
  }

  lemma ReadHasNoAction(cfg: Config, s: State, ctx: Ctx, call: Call)
    requires call.op in cfg.registry && cfg.registry[call.op].mode == Read
    requires Admit(cfg, s, ctx, call).Ran? && Admit(cfg, s, ctx, call).outcome.Committed?
    ensures Admit(cfg, s, ctx, call).outcome.action == None
  {
  }

  /** Paying spends everything that pays. */
  lemma PaidLeavesNone(s: State, rows: seq<Approval>, ctx: Ctx, op: string, versionId: string, args: Json)
    requires PaidWith(s, rows, ctx, op, versionId, args, None) && Allowed(s, ctx.principal, ctx.ceiling, op, AsksFirst)
    ensures !SomePays(rows, ctx, versionId, args)
  {
  }

  // ---- refusals -----------------------------------------------------------------------------

  predicate DeniedFor(d: Dispatched, reason: string) {
    d.Ran? && d.outcome.Denied? && d.outcome.reason == reason
  }

  lemma ParkDenials(s: State, ctx: Ctx, call: Call, op: Operation)
    ensures var o := ParkCall(s, ctx, call, op).outcome;
            && (o.Denied? ==> o.reason == "approval_required" || o.reason == "approval_unavailable")
            && (o.Denied? && o.reason == "approval_required" ==> o.detail == NoDetail)
            && (o.Denied? ==> Filed(s, ParkCall(s, ctx, call, op).state, OperationAggregate(call.op)))
  {
  }

  /** The one event a refusal leaves, on the stream `a`. */
  ghost predicate Filed(s: State, s': State, a: Aggregate) {
    |s'.ledger.events| == |s.ledger.events| + 1 && s'.ledger.events[|s.ledger.events|].aggregate == a
  }

  lemma ReadDenials(cfg: Config, s: State, ctx: Ctx, call: Call, op: Operation, level: Level)
    requires ReadCall(cfg, s, ctx, call, op, level).Ran? && ReadCall(cfg, s, ctx, call, op, level).outcome.Denied?
    ensures var Ran(s', o) := ReadCall(cfg, s, ctx, call, op, level);
            && (o.reason == "approval_required" || o.reason == "approval_unavailable")
            && (o.reason == "approval_required" ==> o.detail == NoDetail)
            && Filed(s, s', OperationAggregate(call.op))
  {
    assert ReadCall(cfg, s, ctx, call, op, level) == ParkCall(s, ctx, call, op);
    ParkDenials(s, ctx, call, op);
  }

  lemma WriteDenials(cfg: Config, s: State, ctx: Ctx, call: Call, op: Operation, level: Level)
    ensures DeniedFor(WriteCall(cfg, s, ctx, call, op, level), "expected_version_required") <==> op.target.Some? && call.expected.None?
    ensures var d := WriteCall(cfg, s, ctx, call, op, level);
            d.Ran? && d.outcome.Denied? ==>
              && d.outcome.reason in {"expected_version_required", "approval_required", "approval_unavailable", "version_conflict"}
              && (d.outcome.reason == "version_conflict" ==> AggregateOf(call.op, op, call.args).Some?)
              && (d.outcome.reason in {"expected_version_required", "approval_required"} ==> d.outcome.detail == NoDetail)
              && Filed(s, d.state, if d.outcome.reason == "version_conflict" then AggregateOf(call.op, op, call.args).value
                                   else OperationAggregate(call.op))
  {
    if op.target.Some? && call.expected.None? {
    } else if AggregateOf(call.op, op, call.args).Some? {
      if level == AsksFirst && ApprovalFor(s, ctx, call, op, level).None? {
        ParkDenials(s, ctx, call, op);
      } else if Written(cfg, s, ctx, call, op, level).Some? {
        WriteLands(cfg, s, ctx, call, op, level);
      }
    }
  }

  /** Which stream each refusal is filed on, and what it may be for. */
  ghost predicate DenialForm(cfg: Config, s: State, call: Call, d: Dispatched)
    requires call.op in cfg.registry && d.Ran? && d.outcome.Denied?
  {
    && d.outcome.reason in {"no_grant", "never", "invalid_args", "expected_version_required", "approval_required",
                            "approval_unavailable", "version_conflict"}
    && (d.outcome.reason == "version_conflict" ==> AggregateOf(call.op, cfg.registry[call.op], call.args).Some?)
    && (d.outcome.reason !in {"approval_unavailable", "version_conflict"} ==> d.outcome.detail == NoDetail)
    && Filed(s, d.state, if d.outcome.reason == "version_conflict" then AggregateOf(call.op, cfg.registry[call.op], call.args).value
                         else OperationAggregate(call.op))
  }

  lemma AdmitDenials(cfg: Config, s: State, ctx: Ctx, call: Call)
    requires call.op in cfg.registry
    ensures var d, op, level := Admit(cfg, s, ctx, call), cfg.registry[call.op], EffectiveLevel(s, ctx, call.op);
            && (DeniedFor(d, "no_grant") <==> level == None)
            && (DeniedFor(d, "never") <==> level == Some(Never))
            && (DeniedFor(d, "invalid_args") <==> level in {Some(MayUse), Some(AsksFirst)} && !op.valid(call.args))
            && (DeniedFor(d, "expected_version_required") <==>
                  level in {Some(MayUse), Some(AsksFirst)} && op.valid(call.args) && op.mode == Write
                  && op.target.Some? && call.expected.None?)
            && (d.Ran? && d.outcome.Denied? ==> DenialForm(cfg, s, call, d))
  {
    var d, op, level := Admit(cfg, s, ctx, call), cfg.registry[call.op], EffectiveLevel(s, ctx, call.op);
    if level.Some? && level.value != Never && op.valid(call.args) {
      if op.mode == Read {
        if d.Ran? && d.outcome.Denied? { ReadDenials(cfg, s, ctx, call, op, level.value); }
      } else {
        WriteDenials(cfg, s, ctx, call, op, level.value);
      }
    }
  }

  /** Each refusal has its own cause, and there are no others; `ConflictIff` has the cause of the eighth. */
  lemma EachRefusalHasItsCause(cfg: Config, s: State, ctx: Ctx, call: Call)
    requires call.op in cfg.registry && StoredAction(s.ledger, ReservationFor(ctx, call)) == None
    ensures var d, op := Dispatch(cfg, s, ctx, call), cfg.registry[call.op];
            var p, ceiling := ctx.principal, ctx.ceiling;
            var allowed := Allowed(s, p, ceiling, call.op, MayUse) || Allowed(s, p, ceiling, call.op, AsksFirst);
            && (DeniedFor(d, "no_grant") <==> !GrantedOnBothSides(s, p, ceiling, call.op))
            && (DeniedFor(d, "never") <==>
                  && GrantedOnBothSides(s, p, ceiling, call.op)
                  && (s.grants[p][call.op] == Never || (ceiling.Some? && ceiling.value[call.op] == Never)))
            && (DeniedFor(d, "invalid_args") <==> allowed && !op.valid(call.args))
            && (DeniedFor(d, "expected_version_required") <==>
                  allowed && op.valid(call.args) && op.mode == Write && op.target.Some? && call.expected.None?)
  {
    AdmitDenials(cfg, Reserve(s, ReservationFor(ctx, call)), ctx, call);
    LevelIsStricter(s, ctx, call.op, MayUse);
    LevelIsStricter(s, ctx, call.op, AsksFirst);
    assert EffectiveLevel(Reserve(s, ReservationFor(ctx, call)), ctx, call.op) == EffectiveLevel(s, ctx, call.op);
  }

  /** A call is refused for want of an approval exactly when it must ask and is unpaid, and either there is
      no continuation to ask for or the one there is was refused. */
  lemma ApprovalRefusedIff(cfg: Config, s: State, ctx: Ctx, call: Call)
    requires call.op in cfg.registry && StoredAction(s.ledger, ReservationFor(ctx, call)) == None
    ensures DeniedFor(Dispatch(cfg, s, ctx, call), "approval_required") <==> MustAsk(cfg, s, ctx, call) && ctx.at.None?
    ensures DeniedFor(Dispatch(cfg, s, ctx, call), "approval_unavailable") <==>
              && MustAsk(cfg, s, ctx, call) && ctx.at.Some?
              && exists k :: FirstStands(s.approvals, ctx.at.value, call.id, k) && s.approvals[k].state != Requested
  {
    var d, m := Dispatch(cfg, s, ctx, call), Reserve(s, ReservationFor(ctx, call));
    if DeniedFor(d, "approval_required") || DeniedFor(d, "approval_unavailable") {
      OnlyAskingParks(cfg, m, ctx, call);
      assert MustAsk(cfg, s, ctx, call);
    }
    if MustAsk(cfg, s, ctx, call) {
      UnpaidCallAsks(cfg, s, ctx, call);
      if ctx.at.Some? { FirstOfThem(s.approvals, ctx.at.value, call.id); }
    }
  }

  /** An operation nobody declared is refused, and only then for that; every refusal has one of eight
      reasons, and is filed on the operation's own stream, or on its target's when it lost a race there. */
  lemma EveryRefusalIsFiled(cfg: Config, s: State, ctx: Ctx, call: Call)
    ensures DeniedFor(Dispatch(cfg, s, ctx, call), "unknown_operation") <==> call.op !in cfg.registry
    ensures var d := Dispatch(cfg, s, ctx, call);
            d.Ran? && d.outcome.Denied? ==>
              && d.outcome.reason in {"unknown_operation", "no_grant", "never", "invalid_args", "expected_version_required",
                                      "approval_required", "approval_unavailable", "version_conflict"}
              && (d.outcome.reason !in {"approval_unavailable", "version_conflict"} ==> d.outcome.detail == NoDetail)
              && |d.state.ledger.events| == |s.ledger.events| + 1
              && var filed := d.state.ledger.events[|s.ledger.events|].aggregate;
                 if d.outcome.reason == "version_conflict"
                 then call.op in cfg.registry && GoesTo(call.op, cfg.registry[call.op], call.args, filed)
                 else filed == Aggregate("operation", OfOperation(call.op))
  {
    var r := ReservationFor(ctx, call);
    if call.op in cfg.registry && StoredAction(s.ledger, r) == None {
      AdmitDenials(cfg, Reserve(s, r), ctx, call);
      TargetIsParsed(call.op, cfg.registry[call.op], call.args);
    }
  }
}
