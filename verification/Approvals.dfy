/** Spending and asking for an approval (`identity/service.py`). */
module Approvals {
  import opened Tables

  /** A request nobody answers stops being answerable after 72 hours. */
  const LIFETIME: int := 72 * 3600

  datatype Consume = Consume(
    grantedTo: Principal, versionId: string, digest: ArgsDigest, action: Option<nat>, now: int)

  datatype Park = Park(
    grantedTo: Principal, versionId: string, digest: ArgsDigest,
    run: nat, step: nat, call: string, now: int)

  // ---- consume ------------------------------------------------------------------------------

  /** The consume-once predicate; it names no run and no step. */
  predicate Spendable(a: Approval, c: Consume) {
    && a.grantedTo == c.grantedTo
    && a.versionId == c.versionId
    && a.digest == c.digest
    && a.state == Open
    && a.expiresAt > c.now
  }

  function Spent(a: Approval, c: Consume): Approval {
    a.(state := Consumed, consumedBy := c.action)
  }

  /** The one UPDATE: every row the predicate matches. */
  function ConsumeAll(rows: seq<Approval>, c: Consume): (rows': seq<Approval>)
    ensures |rows'| == |rows|
  {
    seq(|rows|, i requires 0 <= i < |rows| => if Spendable(rows[i], c) then Spent(rows[i], c) else rows[i])
  }

  /** The row whose id RETURNING hands back, or none when nothing matched. */
  function FirstSpendable(rows: seq<Approval>, c: Consume): (found: Option<nat>)
    ensures found.Some? ==> found.value < |rows| && Spendable(rows[found.value], c)
                            && forall i :: 0 <= i < found.value ==> !Spendable(rows[i], c)
    ensures found == None ==> forall i :: 0 <= i < |rows| ==> !Spendable(rows[i], c)
  {
    if rows == [] then None else
      var n := |rows| - 1;
      var found := FirstSpendable(rows[..n], c);
      if found.Some? then found else if Spendable(rows[n], c) then Some(n) else None
  }

  // ---- park ---------------------------------------------------------------------------------

  /** A row this continuation was already left in; an open or consumed one has moved on. */
  predicate Standing(a: Approval, run: nat, step: nat, call: string) {
    && a.run == run && a.step == step && a.call == call
    && a.state in {Requested, Rejected, Expired}
  }

  function FirstStanding(rows: seq<Approval>, run: nat, step: nat, call: string): (found: Option<nat>)
    ensures found.Some? ==> found.value < |rows| && Standing(rows[found.value], run, step, call)
                            && forall i :: 0 <= i < found.value ==> !Standing(rows[i], run, step, call)
    ensures found == None ==> forall i :: 0 <= i < |rows| ==> !Standing(rows[i], run, step, call)
  {
    if rows == [] then None else
      var n := |rows| - 1;
      var found := FirstStanding(rows[..n], run, step, call);
      if found.Some? then found else if Standing(rows[n], run, step, call) then Some(n) else None
  }

  datatype ParkOutcome =
    | Asked(rows: seq<Approval>, approval: nat)
    | AlreadyDecided(state: ApprovalState, reason: Option<string>)

  function Request(p: Park): Approval {
    Approval(p.grantedTo, None, p.versionId, p.digest, Requested, None, p.run, p.step, p.call,
             p.now + LIFETIME, None)
  }

  function ParkIn(rows: seq<Approval>, p: Park): ParkOutcome {
    match FirstStanding(rows, p.run, p.step, p.call)
    case None => Asked(rows + [Request(p)], |rows|)
    case Some(i) =>
      if rows[i].state == Requested then Asked(rows, i) else AlreadyDecided(rows[i].state, rows[i].reason)
  }

  // ---- what every history keeps -------------------------------------------------------------

  predicate Decider(classes: map<Principal, Class>, p: Principal) {
    p in classes && classes[p] in {User, System}
  }

  /** An approval that stands open, or was spent, was opened by a person or the system. */
  ghost predicate Granted(rows: seq<Approval>, classes: map<Principal, Class>) {
    forall i :: 0 <= i < |rows| ==> GrantedRow(rows[i], classes)
  }

  ghost predicate GrantedRow(a: Approval, classes: map<Principal, Class>) {
    && (a.state in {Open, Consumed} ==> a.grantedBy.Some? && Decider(classes, a.grantedBy.value))
    && (a.consumedBy.Some? ==> a.state == Consumed)
    && a.digest.versionId == a.versionId
  }

  /** How one approval may change over any stretch of history: its binding never moves, a settled
      one never moves, and an open one can only be spent or expire. */
  ghost predicate Later(a: Approval, a': Approval) {
    && a' == a.(state := a'.state, reason := a'.reason, grantedBy := a'.grantedBy, consumedBy := a'.consumedBy)
    && (a'.state == a.state ==> a' == a)
    && (a.state in {Consumed, Rejected, Expired} ==> a' == a)
    && (a.state == Open ==> a'.state in {Open, Consumed, Expired} && a'.grantedBy == a.grantedBy)
  }

  ghost predicate ApprovalsGrow(rows: seq<Approval>, rows': seq<Approval>) {
    && |rows| <= |rows'|
    && forall i :: 0 <= i < |rows| ==> Later(rows[i], rows'[i])
  }

  lemma ApprovalsGrowOn(a: seq<Approval>, b: seq<Approval>, c: seq<Approval>)
    requires ApprovalsGrow(a, b) && ApprovalsGrow(b, c)
    ensures ApprovalsGrow(a, c)
  {
    forall i | 0 <= i < |a| ensures Later(a[i], c[i]) {
      assert Later(a[i], b[i]) && Later(b[i], c[i]);
    }
  }
}
