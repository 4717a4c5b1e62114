/** The tables of one (org, plane) as values, and the declarations dispatch reads.

    A row's identifier is its position in its table, which is what a fresh UUID amounts to when
    rows are only ever added. The rows a run owns (its queue rows, mailbox, checkpoints and usage)
    are kept with it in a `Thread`, because every statement that touches them is keyed by the run. */
module Tables {
  datatype Option<+T> = None | Some(value: T)

  type Json = string
  type Principal = string
  type Data = map<string, string>

  datatype Level = MayUse | AsksFirst | Never
  type Grants = map<string, Level>
  datatype Class = User | Agent | RunClass | System | External
  datatype Stage = DEV | QA | PROD

  // ---- declarations -------------------------------------------------------------------------

  datatype Mode = Read | Write
  datatype Decision = Decision(approval: nat, approve: bool, reason: Option<string>)

  /** An operation's body: any function over the domain data (`None` when it raises), or the one
      declared operation that reaches the run tables, `governance.decide_approval`. */
  datatype Body =
    | Plain(run: (Data, Json) -> Option<(Data, Result)>)
    | Decide(parse: Json -> Decision)

  datatype Target = Target(kind: string, path: Json -> Option<string>)

  datatype Operation = Operation(
    mode: Mode,
    target: Option<Target>,
    versionId: string,
    compensator: Option<string>,
    valid: Json -> bool,
    body: Body)

  datatype Config = Config(registry: map<string, Operation>, classes: map<Principal, Class>)

  // ---- the ledger ---------------------------------------------------------------------------

  /** What an operation answers: a document, or what `decide_approval` reports. */
  datatype Result =
    | Document(json: Json)
    | Decided(decided: bool, state: Option<ApprovalState>, runQueued: bool)

  datatype AggregateId = OfTarget(id: string) | OfOperation(name: string) | OfRun(run: nat)
  datatype Aggregate = Aggregate(kind: string, id: AggregateId)

  /** The three parts SHA-256 digests into an idempotency key. */
  datatype Key = Key(run: Option<nat>, step: Option<nat>, call: string)
  datatype Reservation = Reservation(op: string, key: Key)

  datatype EventKind = OperationCommit | RunJournal | ReadAudit | Denial
  datatype Proposed = Proposed(op: string, args: Json, id: string)

  datatype Payload =
    | CreatedNote
    | CancelledNote
    | Planned(text: string, calls: seq<Proposed>)
    | ParkedNote(approval: nat, op: string)
    | Committing(args: Json, result: Result)
    | Reading(args: Json)
    | Refusal(reason: string, call: Option<string>, detail: Detail)

  datatype Detail =
    | NoDetail
    | Conflicting(expected: int, actual: int)
    | Answered(state: ApprovalState, why: Option<string>)
    | OverBudget(spent: nat, estimate: nat, cap: nat)

  datatype Event = Event(
    kind: EventKind,
    aggregate: Aggregate,
    version: nat,
    run: Option<nat>,
    step: Option<nat>,
    principal: Principal,
    op: Option<string>,
    payload: Payload,
    action: Option<nat>)

  datatype Head = Head(version: nat, last: nat)

  datatype Action = Action(
    event: nat,
    versionId: string,
    approval: Option<nat>,
    key: Key,
    level: Level,
    compensator: Option<string>,
    compensatorArgs: Option<Result>)

  datatype Ledger = Ledger(
    events: seq<Event>,
    heads: map<Aggregate, Head>,
    actions: seq<Action>,
    keys: map<Reservation, Option<nat>>)

  // ---- approvals ----------------------------------------------------------------------------

  datatype ApprovalState = Requested | Open | Consumed | Rejected | Expired

  /** The parts SHA-256 digests into an approval's binding. */
  datatype ArgsDigest = ArgsDigest(versionId: string, args: Json)

  datatype Approval = Approval(
    grantedTo: Principal,
    grantedBy: Option<Principal>,
    versionId: string,
    digest: ArgsDigest,
    state: ApprovalState,
    reason: Option<string>,
    run: nat,
    step: nat,
    call: string,
    expiresAt: int,
    consumedBy: Option<nat>)

  // ---- runs ---------------------------------------------------------------------------------

  datatype RunState = Queued | Running | WaitingApproval | Done | Failed | Cancelled
  datatype MessageKind = Steer | Conflict | ContextLost
  datatype Message = Message(no: nat, kind: MessageKind, body: Json, author: Principal)
  datatype Lease = Lease(until: int, worker: string)
  datatype ToolResult =
    | WasCommitted(id: string, result: Result)
    | WasReplayed(id: string, action: nat)
    | WasDenied(id: string, reason: string)
  datatype Checkpoint = Checkpoint(step: nat, mailboxSeq: nat, text: string, results: seq<ToolResult>)

  /** One answered model call; `estimate` is the token cost on the manifest row the call filled. */
  datatype Usage = Usage(step: nat, estimate: nat, input: nat, output: nat, cached: nat)

  datatype Thread = Thread(
    state: RunState,
    failure: Option<string>,
    cap: nat,
    ceiling: Grants,
    queue: map<nat, Option<Lease>>,
    mailbox: seq<Message>,
    checkpoints: seq<Checkpoint>,
    usage: seq<Usage>)

  datatype State = State(
    threads: seq<Thread>,
    approvals: seq<Approval>,
    ledger: Ledger,
    data: Data,
    grants: map<Principal, Grants>)

  function GrantsOf(s: State, p: Principal): Grants {
    if p in s.grants then s.grants[p] else map[]
  }

  /** An empty plane: no run, no approval, an empty ledger. */
  function Initial(data: Data, grants: map<Principal, Grants>): State {
    State([], [], Ledger([], map[], [], map[]), data, grants)
  }
}
