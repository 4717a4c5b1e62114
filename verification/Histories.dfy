/** Histories: any interleaving of committed transactions over one plane. */
module Histories {
  import opened Tables
  import opened Runs
  import opened Dispatching
  import opened Working

  datatype Txn =
    | CreateRun(who: Principal, run: NewRun)
    | SendMessage(to: nat, body: Json, who: Principal)
    | CancelRun(which: nat, who: Principal)
    | ClaimStep(claim: Claimed, now: int)
    | WorkStep(claim: Claimed, work: Work)
    | CallOperation(who: Principal, call: Call, now: int)
    | ReapLeases(when: int)
    | ExpireApproval(approval: nat, when: int)
    | SetGrants(grants: map<Principal, Grants>)

  /** The state a transaction leaves, or `None` when it finds nothing to do or aborts. */
  function Apply(cfg: Config, s: State, x: Txn): Option<State> {
    match x
    case CreateRun(p, run) => Create(s, p, run)
    case SendMessage(r, body, p) => Send(s, r, body, p)
    case CancelRun(r, p) => Cancel(s, r, p)
    case ClaimStep(c, now) =>
      if c.lease.until == now + LEASE then Claim(s, c.run, c.step, c.lease.worker, now) else None
    case WorkStep(c, w) => Step(cfg, s, c, w)
    case CallOperation(p, call, now) =>
      (match Dispatch(cfg, s, Ctx(p, None, None, now), call)
       case Raised => None
       case Ran(s', _) => Some(s'))
    case ReapLeases(when) => Some(Reap(s, when))
    case ExpireApproval(a, when) => Expire(s, a, when)
    case SetGrants(g) => Some(s.(grants := g))
  }

  function Send(s: State, r: nat, body: Json, p: Principal): Option<State> {
    if r >= |s.threads| then None
    else match Post(s.threads[r], Steer, body, p)
      case Posted(t) => Some(s.(threads := s.threads[r := t]))
      case _ => None
  }

  ghost function Exec(cfg: Config, s: State, h: seq<Txn>): Option<State> {
    if h == [] then Some(s)
    else match Exec(cfg, s, h[..|h| - 1])
      case None => None
      case Some(m) => Apply(cfg, m, h[|h| - 1])
  }

  /** The lease assumption for one transaction: a worker whose step was reclaimed never commits. A
      claim stands while its queue row still carries the lease the claim wrote, or the run was
      cancelled under it and the claim is still of the step after its last checkpoint. */
  predicate Holds(s: State, c: Claimed) {
    && c.run < |s.threads|
    && ((s.threads[c.run].state == Cancelled && c.step == |s.threads[c.run].checkpoints| + 1)
        || (c.step in s.threads[c.run].queue && s.threads[c.run].queue[c.step] == Some(c.lease)))
  }

  predicate LeaseKept(s: State, x: Txn) {
    x.WorkStep? ==> Holds(s, x.claim)
  }

  /** Every step of the history committed under a lease it still held. */
  ghost predicate Honoured(cfg: Config, s: State, h: seq<Txn>) {
    h == [] || (var before := Exec(cfg, s, h[..|h| - 1]);
                && Honoured(cfg, s, h[..|h| - 1])
                && (before.Some? ==> LeaseKept(before.value, h[|h| - 1])))
  }
}
