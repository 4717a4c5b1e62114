/** What every dispatch keeps, whatever it answers. */
module DispatchLaws {
  import opened Tables
  import opened Ledgers
  import opened Approvals
  import opened Runs
  import opened Dispatching

  // ---- the invariant ------------------------------------------------------------------------

  /** An action ran under a level that let it, and under `asks_first` it names an approval that it
      spent itself, granted to the same principal for the same operation version and arguments. */
  ghost predicate ActionLicensed(l: Ledger, rows: seq<Approval>, i: nat)
    requires Paired(l) && i < |l.actions|
  {
    assert PairedAction(l, i);
    var act := l.actions[i];
    var ev := l.events[act.event];
    && act.level in {MayUse, AsksFirst}
    && (act.level == AsksFirst <==> act.approval.Some?)
    && ev.payload.Committing?
    && (act.approval.Some? ==>
          && act.approval.value < |rows|
          && var a := rows[act.approval.value];
             && a.state == Consumed && a.consumedBy == Some(i)
             && a.grantedTo == ev.principal && a.versionId == act.versionId
             && a.digest == ArgsDigest(act.versionId, ev.payload.args))
  }

  ghost predicate SpenderKnown(l: Ledger, a: Approval) {
    a.consumedBy.Some? ==> a.consumedBy.value < |l.actions| && l.actions[a.consumedBy.value].approval.Some?
  }

  ghost predicate Licensed(l: Ledger, rows: seq<Approval>)
    requires Paired(l)
  {
    && (forall i :: 0 <= i < |l.actions| ==> ActionLicensed(l, rows, i))
    && (forall a :: 0 <= a < |rows| ==> SpenderKnown(l, rows[a]))
  }

  ghost predicate Sound(cfg: Config, s: State) {
    && LedgerInv(s.ledger, cfg.registry.Keys)
    && Granted(s.approvals, cfg.classes)
    && Licensed(s.ledger, s.approvals)
  }

  /** Moving approvals on without spending them for an action, and adding events that are no
      commit, leaves every action licensed. */
  lemma LicencesStand(l: Ledger, rows: seq<Approval>, l': Ledger, rows': seq<Approval>)
    requires Paired(l) && Paired(l') && Licensed(l, rows)
    requires l'.actions == l.actions && l.events <= l'.events
    requires ApprovalsGrow(rows, rows')
    requires forall a :: 0 <= a < |rows'| ==>
               rows'[a].consumedBy == None || (a < |rows| && rows'[a].consumedBy == rows[a].consumedBy)
    ensures Licensed(l', rows')
  {
    forall i | 0 <= i < |l'.actions| ensures ActionLicensed(l', rows', i) {
      assert PairedAction(l, i) && ActionLicensed(l, rows, i);
      if l.actions[i].approval.Some? { assert Later(rows[l.actions[i].approval.value], rows'[l.actions[i].approval.value]); }
    }
    forall a | 0 <= a < |rows'| ensures SpenderKnown(l', rows'[a]) {
      if a < |rows| { assert SpenderKnown(l, rows[a]); }
    }
  }

  // ---- the pieces ---------------------------------------------------------------------------

  lemma ReserveKeepsSound(cfg: Config, s: State, r: Reservation)
    requires Sound(cfg, s) && r.op in cfg.registry
    ensures Sound(cfg, Reserve(s, r)) && LedgerGrows(s.ledger, Reserve(s, r).ledger)
  {
    var s' := Reserve(s, r);
    ReservingKeepsLedger(s.ledger, s'.ledger.keys, cfg.registry.Keys);
    assert s'.ledger == s.ledger.(keys := s'.ledger.keys);
    LicencesStand(s.ledger, s.approvals, s'.ledger, s'.approvals);
  }

  lemma DenyKeepsSound(cfg: Config, s: State, ctx: Ctx, call: Call, reason: string, detail: Detail, a: Aggregate)
    requires Sound(cfg, s) && StoredAction(s.ledger, ReservationFor(ctx, call)) == None
    ensures var s' := Deny(s, ctx, call, reason, detail, a).state;
            Sound(cfg, s') && LedgerGrows(s.ledger, s'.ledger)
  {
    var s' := Deny(s, ctx, call, reason, detail, a).state;
    var keys := s.ledger.keys - {ReservationFor(ctx, call)};
    ReservingKeepsLedger(s.ledger, keys, cfg.registry.Keys);
    var n := |s.ledger.events|;
    assert s'.ledger == s.ledger.(keys := keys).(events := s.ledger.events + [s'.ledger.events[n]]);
    AppendKeepsLedger(s.ledger.(keys := keys), s'.ledger.events[n], cfg.registry.Keys);
    LicencesStand(s.ledger, s.approvals, s'.ledger, s'.approvals);
  }

  /** Settling a requested approval as `answered`, whoever answers. */
  lemma SettleKeepsSound(cfg: Config, s: State, a: nat, answered: Approval)
    requires Sound(cfg, s) && a < |s.approvals| && s.approvals[a].state == Requested
    requires answered.state != Requested && Later(s.approvals[a], answered) && GrantedRow(answered, cfg.classes)
    requires answered.consumedBy == s.approvals[a].consumedBy
    requires Settle(s, a, answered).Some?
    ensures var s' := Settle(s, a, answered).value;
            && Sound(cfg, s') && s'.ledger == s.ledger && ApprovalsGrow(s.approvals, s'.approvals)
            && s'.data == s.data && s'.grants == s.grants
  {
    var s' := Settle(s, a, answered).value;
    LicencesStand(s.ledger, s.approvals, s'.ledger, s'.approvals);
  }

  lemma DecideKeepsSound(cfg: Config, s: State, p: Principal, d: Decision)
    requires Sound(cfg, s) && Decider(cfg.classes, p) && DecideApproval(s, p, d).Some?
    ensures var s' := DecideApproval(s, p, d).value.0;
            && Sound(cfg, s') && s'.ledger == s.ledger && ApprovalsGrow(s.approvals, s'.approvals)
            && s'.data == s.data && s'.grants == s.grants
  {
    if d.approval < |s.approvals| && s.approvals[d.approval].state == Requested {
      assert GrantedRow(s.approvals[d.approval], cfg.classes);
      SettleKeepsSound(cfg, s, d.approval, Answer(s.approvals[d.approval], d, p));
    }
  }

  lemma BodyKeepsSound(cfg: Config, s: State, ctx: Ctx, op: Operation, args: Json)
    requires Sound(cfg, s) && RunBody(cfg, s, ctx, op, args).Some?
    ensures var s' := RunBody(cfg, s, ctx, op, args).value.0;
            && Sound(cfg, s') && s'.ledger == s.ledger && ApprovalsGrow(s.approvals, s'.approvals)
  {
    match op.body
    case Plain(run) =>
    case Decide(parse) => DecideKeepsSound(cfg, s, ctx.principal, parse(args));
  }

  lemma ParkKeepsSound(cfg: Config, s: State, ctx: Ctx, call: Call, op: Operation)
    requires Sound(cfg, s) && StoredAction(s.ledger, ReservationFor(ctx, call)) == None
    ensures var s' := ParkCall(s, ctx, call, op).state;
            Sound(cfg, s') && LedgerGrows(s.ledger, s'.ledger) && ApprovalsGrow(s.approvals, s'.approvals)
  {
    var s' := ParkCall(s, ctx, call, op).state;
    match ParkCall(s, ctx, call, op).outcome
    case Denied(reason, _, detail) =>
      DenyKeepsSound(cfg, s, ctx, call, reason, detail, OperationAggregate(call.op));
    case Waiting(a, _) =>
      LicencesStand(s.ledger, s.approvals, s'.ledger, s'.approvals);
  }

  lemma ConsumeGrows(rows: seq<Approval>, c: Consume)
    ensures ApprovalsGrow(rows, ConsumeAll(rows, c))
  {
  }

  lemma ReadKeepsSound(cfg: Config, s: State, ctx: Ctx, call: Call, op: Operation, level: Level)
    requires Sound(cfg, s) && StoredAction(s.ledger, ReservationFor(ctx, call)) == None
    requires ReadCall(cfg, s, ctx, call, op, level).Ran?
    ensures var s' := ReadCall(cfg, s, ctx, call, op, level).state;
            Sound(cfg, s') && LedgerGrows(s.ledger, s'.ledger) && ApprovalsGrow(s.approvals, s'.approvals)
  {
    var c := ConsumeFor(ctx, call, op, None);
    if level == AsksFirst && FirstSpendable(s.approvals, c).None? {
      ParkKeepsSound(cfg, s, ctx, call, op);
    } else {
      var spent := if level == AsksFirst then s.(approvals := ConsumeAll(s.approvals, c)) else s;
      ConsumeGrows(s.approvals, c);
      LicencesStand(s.ledger, s.approvals, spent.ledger, spent.approvals);
      BodyKeepsSound(cfg, spent, ctx, op, call.args);
      var after := RunBody(cfg, spent, ctx, op, call.args).value.0;
      ApprovalsGrowOn(s.approvals, spent.approvals, after.approvals);
      var s' := ReadCall(cfg, s, ctx, call, op, level).state;
      AppendKeepsLedger(after.ledger, s'.ledger.events[|after.ledger.events|], cfg.registry.Keys);
      LicencesStand(after.ledger, after.approvals, s'.ledger, s'.approvals);
    }
  }

  /** The commit that follows a spend: the new action is licensed by the row it names. */
  lemma CommitLicensed(cfg: Config, l: Ledger, rows: seq<Approval>, c: Commit)
    requires LedgerInv(l, cfg.registry.Keys) && c.op in cfg.registry && CommitTo(l, c).Wrote?
    requires forall i :: 0 <= i < |l.actions| ==> ActionLicensed(l, rows, i)
    requires forall a :: 0 <= a < |rows| ==>
               SpenderKnown(l, rows[a]) || (rows[a].consumedBy == Some(|l.actions|) && c.approval.Some?)
    requires c.level in {MayUse, AsksFirst} && (c.level == AsksFirst <==> c.approval.Some?) && c.payload.Committing?
    requires c.approval.Some? ==>
               && c.approval.value < |rows|
               && var a := rows[c.approval.value];
                  && a.state == Consumed && a.consumedBy == Some(|l.actions|)
                  && a.grantedTo == c.principal && a.versionId == c.versionId
                  && a.digest == ArgsDigest(c.versionId, c.payload.args)
    ensures LedgerInv(CommitTo(l, c).ledger, cfg.registry.Keys) && Licensed(CommitTo(l, c).ledger, rows)
  {
    CommitKeepsLedger(l, c, cfg.registry.Keys);
    var l' := CommitTo(l, c).ledger;
    forall i | 0 <= i < |l'.actions| ensures ActionLicensed(l', rows, i) {
      if i < |l.actions| { assert PairedAction(l, i) && ActionLicensed(l, rows, i); }
    }
    forall a | 0 <= a < |rows| ensures SpenderKnown(l', rows[a]) {
    }
  }

  /** A body may answer one requested approval; it touches no other row. */
  ghost predicate BodyMoves(rows: seq<Approval>, rows': seq<Approval>, classes: map<Principal, Class>) {
    && |rows'| == |rows|
    && forall i :: 0 <= i < |rows| ==>
         rows'[i] == rows[i]
         || (rows[i].state == Requested && Later(rows[i], rows'[i]) && rows'[i].consumedBy == rows[i].consumedBy
             && (GrantedRow(rows[i], classes) ==> GrantedRow(rows'[i], classes)))
  }

  lemma BodyMovesApprovals(cfg: Config, s: State, ctx: Ctx, op: Operation, args: Json)
    requires RunBody(cfg, s, ctx, op, args).Some?
    ensures var s' := RunBody(cfg, s, ctx, op, args).value.0;
            s'.ledger == s.ledger && BodyMoves(s.approvals, s'.approvals, cfg.classes)
  {
    match op.body
    case Plain(run) =>
    case Decide(parse) =>
      var d := parse(args);
      if d.approval < |s.approvals| && s.approvals[d.approval].state == Requested {
        var answered := Answer(s.approvals[d.approval], d, ctx.principal);
        assert RunBody(cfg, s, ctx, op, args).value.0.approvals == s.approvals[d.approval := answered];
      }
  }

  /** After a spend and a body: old actions keep their licences, and the only rows naming an
      unknown spender name the action about to be committed. */
  lemma SpendThenBody(cfg: Config, s: State, c: Consume, rows: seq<Approval>)
    requires Sound(cfg, s) && c.action == Some(|s.ledger.actions|)
    requires BodyMoves(ConsumeAll(s.approvals, c), rows, cfg.classes)
    ensures ApprovalsGrow(s.approvals, rows) && Granted(rows, cfg.classes)
    ensures forall i :: 0 <= i < |s.ledger.actions| ==> ActionLicensed(s.ledger, rows, i)
    ensures forall a :: 0 <= a < |rows| ==>
              SpenderKnown(s.ledger, rows[a]) || rows[a].consumedBy == Some(|s.ledger.actions|)
    ensures FirstSpendable(s.approvals, c).Some? ==>
              rows[FirstSpendable(s.approvals, c).value] == Spent(s.approvals[FirstSpendable(s.approvals, c).value], c)
  {
    var spent := ConsumeAll(s.approvals, c);
    forall a | 0 <= a < |rows|
      ensures Later(s.approvals[a], rows[a]) && GrantedRow(rows[a], cfg.classes)
      ensures SpenderKnown(s.ledger, rows[a]) || rows[a].consumedBy == Some(|s.ledger.actions|)
    {
      assert SpenderKnown(s.ledger, s.approvals[a]) && GrantedRow(s.approvals[a], cfg.classes);
      assert spent[a] == s.approvals[a] || spent[a] == Spent(s.approvals[a], c);
    }
    forall i | 0 <= i < |s.ledger.actions| ensures ActionLicensed(s.ledger, rows, i) {
      assert PairedAction(s.ledger, i) && ActionLicensed(s.ledger, s.approvals, i);
      if s.ledger.actions[i].approval.Some? {
        assert Later(s.approvals[s.ledger.actions[i].approval.value], rows[s.ledger.actions[i].approval.value]);
      }
    }
  }

  /** The state a write commits from: the spend, then the body. */
  function Written(cfg: Config, s: State, ctx: Ctx, call: Call, op: Operation, level: Level): Option<(State, Result)> {
    var c := ConsumeFor(ctx, call, op, Some(|s.ledger.actions|));
    RunBody(cfg, if level == AsksFirst then s.(approvals := ConsumeAll(s.approvals, c)) else s, ctx, op, call.args)
  }

  lemma WriteCommits(cfg: Config, s: State, ctx: Ctx, call: Call, op: Operation, level: Level, a: Aggregate,
                     approval: Option<nat>)
    requires Sound(cfg, s) && call.op in cfg.registry && level in {MayUse, AsksFirst}
    requires Written(cfg, s, ctx, call, op, level).Some?
    requires approval == if level == AsksFirst
                         then FirstSpendable(s.approvals, ConsumeFor(ctx, call, op, Some(|s.ledger.actions|))) else None
    requires level == AsksFirst ==> approval.Some?
    requires var (after, result) := Written(cfg, s, ctx, call, op, level).value;
             CommitTo(after.ledger, CommitFor(ctx, call, op, level, a, result, approval)).Wrote?
    ensures var (after, result) := Written(cfg, s, ctx, call, op, level).value;
            var l := CommitTo(after.ledger, CommitFor(ctx, call, op, level, a, result, approval)).ledger;
            Sound(cfg, after.(ledger := l)) && LedgerGrows(s.ledger, l) && ApprovalsGrow(s.approvals, after.approvals)
  {
    var c := ConsumeFor(ctx, call, op, Some(|s.ledger.actions|));
    var (after, result) := Written(cfg, s, ctx, call, op, level).value;
    if level == AsksFirst {
      BodyMovesApprovals(cfg, s.(approvals := ConsumeAll(s.approvals, c)), ctx, op, call.args);
      SpendThenBody(cfg, s, c, after.approvals);
    } else {
      BodyKeepsSound(cfg, s, ctx, op, call.args);
    }
    CommitLicensed(cfg, s.ledger, after.approvals, CommitFor(ctx, call, op, level, a, result, approval));
  }

  lemma WriteKeepsSound(cfg: Config, s: State, ctx: Ctx, call: Call, op: Operation, level: Level)
    requires Sound(cfg, s) && call.op in cfg.registry && level in {MayUse, AsksFirst}
    requires StoredAction(s.ledger, ReservationFor(ctx, call)) == None
    requires WriteCall(cfg, s, ctx, call, op, level).Ran?
    ensures var s' := WriteCall(cfg, s, ctx, call, op, level).state;
            Sound(cfg, s') && LedgerGrows(s.ledger, s'.ledger) && ApprovalsGrow(s.approvals, s'.approvals)
  {
    if op.target.Some? && call.expected.None? {
      DenyKeepsSound(cfg, s, ctx, call, "expected_version_required", NoDetail, OperationAggregate(call.op));
      return;
    }
    var a := AggregateOf(call.op, op, call.args).value;
    var c := ConsumeFor(ctx, call, op, Some(|s.ledger.actions|));
    var approval := if level == AsksFirst then FirstSpendable(s.approvals, c) else None;
    if level == AsksFirst && approval.None? {
      ParkKeepsSound(cfg, s, ctx, call, op);
      return;
    }
    var (after, result) := Written(cfg, s, ctx, call, op, level).value;
    BodyMovesApprovals(cfg, if level == AsksFirst then s.(approvals := ConsumeAll(s.approvals, c)) else s, ctx, op, call.args);
    match CommitTo(after.ledger, CommitFor(ctx, call, op, level, a, result, approval))
    case Wrote(_, _) => WriteCommits(cfg, s, ctx, call, op, level, a, approval);
    case VersionConflict(expected, actual) =>
      DenyKeepsSound(cfg, s, ctx, call, "version_conflict", Conflicting(expected, actual), a);
  }

  /** Every dispatch keeps the plane sound, only ever adds to the ledger, and moves approvals only
      forwards. */
  lemma DispatchKeepsSound(cfg: Config, s: State, ctx: Ctx, call: Call)
    requires Sound(cfg, s) && Dispatch(cfg, s, ctx, call).Ran?
    ensures var s' := Dispatch(cfg, s, ctx, call).state;
            Sound(cfg, s') && LedgerGrows(s.ledger, s'.ledger) && ApprovalsGrow(s.approvals, s'.approvals)
  {
    var r := ReservationFor(ctx, call);
    if call.op !in cfg.registry {
      DenyKeepsSound(cfg, s, ctx, call, "unknown_operation", NoDetail, OperationAggregate(call.op));
    } else if StoredAction(s.ledger, r).None? {
      ReserveKeepsSound(cfg, s, r);
      AdmitKeepsSound(cfg, Reserve(s, r), ctx, call);
      LedgerGrowsOn(s.ledger, Reserve(s, r).ledger, Dispatch(cfg, s, ctx, call).state.ledger);
    }
  }

  lemma AdmitKeepsSound(cfg: Config, s: State, ctx: Ctx, call: Call)
    requires Sound(cfg, s) && call.op in cfg.registry && Admit(cfg, s, ctx, call).Ran?
    requires StoredAction(s.ledger, ReservationFor(ctx, call)) == None
    ensures var s' := Admit(cfg, s, ctx, call).state;
            Sound(cfg, s') && LedgerGrows(s.ledger, s'.ledger) && ApprovalsGrow(s.approvals, s'.approvals)
  {
    var op := cfg.registry[call.op];
    var level := EffectiveLevel(s, ctx, call.op);
    if level.Some? && level.value in {MayUse, AsksFirst} && op.valid(call.args) {
      if op.mode == Read {
        ReadKeepsSound(cfg, s, ctx, call, op, level.value);
      } else {
        WriteKeepsSound(cfg, s, ctx, call, op, level.value);
      }
    } else {
      var reason := if level.None? then "no_grant" else if level.value == Never then "never" else "invalid_args";
      DenyKeepsSound(cfg, s, ctx, call, reason, NoDetail, OperationAggregate(call.op));
    }
  }
}
