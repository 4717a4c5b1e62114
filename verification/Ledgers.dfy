/** The ledger's two writes (`declare/ledger.py`) and what every history of them keeps. */
module Ledgers {
  import opened Tables

  // ---- the two writes -----------------------------------------------------------------------

  datatype Commit = Commit(
    versionId: string,
    op: string,
    aggregate: Aggregate,
    expected: Option<int>,
    principal: Principal,
    run: Option<nat>,
    step: Option<nat>,
    key: Key,
    payload: Payload,
    level: Level,
    compensator: Option<string>,
    compensatorArgs: Option<Result>,
    approval: Option<nat>)

  datatype CommitOutcome =
    | Wrote(ledger: Ledger, action: nat)
    | Stored(action: nat)
    | VersionConflict(expected: int, actual: int)

  function VersionOf(l: Ledger, a: Aggregate): nat {
    if a in l.heads then l.heads[a].version else 0
  }

  /** The action a reservation already names, if any. */
  function StoredAction(l: Ledger, r: Reservation): Option<nat> {
    if r in l.keys then l.keys[r] else None
  }

  function CommitEvent(l: Ledger, c: Commit): Event {
    Event(OperationCommit, c.aggregate, VersionOf(l, c.aggregate) + 1, c.run, c.step, c.principal,
          Some(c.op), c.payload, Some(|l.actions|))
  }

  function CommitAction(l: Ledger, c: Commit): Action {
    Action(|l.events|, c.versionId, c.approval, c.key, c.level, c.compensator, c.compensatorArgs)
  }

  function CommitTo(l: Ledger, c: Commit): CommitOutcome {
    var r := Reservation(c.op, c.key);
    var actual := VersionOf(l, c.aggregate);
    if StoredAction(l, r).Some? then Stored(StoredAction(l, r).value)
    else if c.expected.Some? && c.expected.value != actual then VersionConflict(c.expected.value, actual)
    else Wrote(Ledger(l.events + [CommitEvent(l, c)],
                      l.heads[c.aggregate := Head(actual + 1, |l.events|)],
                      l.actions + [CommitAction(l, c)],
                      l.keys[r := Some(|l.actions|)]),
               |l.actions|)
  }

  /** An event that is no operation: version 0 and no action. */
  function AppendTo(l: Ledger, kind: EventKind, a: Aggregate, run: Option<nat>, step: Option<nat>,
                    p: Principal, op: Option<string>, payload: Payload): Ledger
  {
    l.(events := l.events + [Event(kind, a, 0, run, step, p, op, payload, None)])
  }

  // ---- streams ------------------------------------------------------------------------------

  /** The positions of the commit events on one aggregate, in append order. */
  ghost function Stream(es: seq<Event>, a: Aggregate): (at: seq<nat>)
    ensures forall k :: 0 <= k < |at| ==> at[k] < |es|
  {
    if es == [] then [] else
      var n := |es| - 1;
      Stream(es[..n], a) + if es[n].kind == OperationCommit && es[n].aggregate == a then [n] else []
  }

  lemma StreamOfAppend(es: seq<Event>, e: Event, a: Aggregate)
    ensures Stream(es + [e], a)
         == Stream(es, a) + if e.kind == OperationCommit && e.aggregate == a then [|es|] else []
  {
    assert (es + [e])[..|es|] == es;
  }

  /** Every aggregate's commit events carry versions 1..head, and the head points at the last. */
  ghost predicate Gapless(l: Ledger) {
    forall a: Aggregate :: GaplessOn(l, a)
  }

  ghost predicate GaplessOn(l: Ledger, a: Aggregate) {
    var at := Stream(l.events, a);
    && VersionOf(l, a) == |at|
    && (forall k :: 0 <= k < |at| ==> l.events[at[k]].version == k + 1)
    && (a in l.heads ==> at != [] && l.heads[a].last == at[|at| - 1])
  }

  /** Commit events and actions name each other one to one; no other event has a version or action. */
  ghost predicate Paired(l: Ledger) {
    && (forall i :: 0 <= i < |l.actions| ==> PairedAction(l, i))
    && (forall e :: 0 <= e < |l.events| ==> PairedEvent(l, e))
  }

  ghost predicate PairedAction(l: Ledger, i: nat)
    requires i < |l.actions|
  {
    var e := l.actions[i].event;
    && e < |l.events| && l.events[e].kind == OperationCommit && l.events[e].action == Some(i)
    && l.events[e].op.Some?
  }

  ghost predicate PairedEvent(l: Ledger, e: nat)
    requires e < |l.events|
  {
    var ev := l.events[e];
    if ev.kind == OperationCommit then
      ev.action.Some? && ev.action.value < |l.actions| && l.actions[ev.action.value].event == e
    else
      ev.version == 0 && ev.action == None
  }

  /** The reservation an action was committed under. */
  ghost function ReservationOf(l: Ledger, i: nat): Reservation
    requires i < |l.actions| && PairedAction(l, i)
  {
    Reservation(l.events[l.actions[i].event].op.value, l.actions[i].key)
  }

  /** Keys and actions name each other one to one, and only declared operations hold keys. */
  ghost predicate Keyed(l: Ledger, ops: set<string>)
    requires Paired(l)
  {
    && (forall i :: 0 <= i < |l.actions| ==> StoredAction(l, ReservationOf(l, i)) == Some(i))
    && (forall r :: r in l.keys ==> r.op in ops)
    && (forall r :: r in l.keys && l.keys[r].Some? ==>
          l.keys[r].value < |l.actions| && ReservationOf(l, l.keys[r].value) == r)
  }

  ghost predicate LedgerInv(l: Ledger, ops: set<string>) {
    Gapless(l) && Paired(l) && Keyed(l, ops)
  }

  lemma EventKeepsGapless(l: Ledger, e: Event, l': Ledger, a: Aggregate)
    requires GaplessOn(l, a) && l'.events == l.events + [e]
    requires if e.kind == OperationCommit && e.aggregate == a
             then e.version == VersionOf(l, a) + 1 && a in l'.heads && l'.heads[a] == Head(e.version, |l.events|)
             else (a in l'.heads <==> a in l.heads) && (a in l.heads ==> l'.heads[a] == l.heads[a])
    ensures GaplessOn(l', a)
  {
    StreamOfAppend(l.events, e, a);
    var at, at' := Stream(l.events, a), Stream(l'.events, a);
    forall k | 0 <= k < |at'| ensures l'.events[at'[k]].version == k + 1 {
      if k < |at| { assert l'.events[at[k]] == l.events[at[k]]; }
    }
  }

  lemma CommitKeepsGapless(l: Ledger, c: Commit)
    requires Gapless(l) && CommitTo(l, c).Wrote?
    ensures Gapless(CommitTo(l, c).ledger)
  {
    forall a: Aggregate ensures GaplessOn(CommitTo(l, c).ledger, a) {
      assert GaplessOn(l, a);
      EventKeepsGapless(l, CommitEvent(l, c), CommitTo(l, c).ledger, a);
    }
  }

  lemma CommitKeepsPairs(l: Ledger, c: Commit)
    requires Paired(l) && CommitTo(l, c).Wrote?
    ensures Paired(CommitTo(l, c).ledger)
    ensures forall i :: 0 <= i < |l.actions| ==>
              ReservationOf(CommitTo(l, c).ledger, i) == ReservationOf(l, i)
    ensures ReservationOf(CommitTo(l, c).ledger, |l.actions|) == Reservation(c.op, c.key)
  {
    var l' := CommitTo(l, c).ledger;
    forall i | 0 <= i < |l'.actions| ensures PairedAction(l', i) {
      if i < |l.actions| { assert PairedAction(l, i); }
    }
    forall e | 0 <= e < |l'.events| ensures PairedEvent(l', e) {
      if e < |l.events| { assert PairedEvent(l, e); }
    }
    forall i | 0 <= i < |l.actions| ensures ReservationOf(l', i) == ReservationOf(l, i) {
      assert PairedAction(l, i) && PairedAction(l', i);
    }
    assert PairedAction(l', |l.actions|);
  }

  lemma CommitKeepsLedger(l: Ledger, c: Commit, ops: set<string>)
    requires LedgerInv(l, ops) && c.op in ops && CommitTo(l, c).Wrote?
    ensures LedgerInv(CommitTo(l, c).ledger, ops)
  {
    CommitKeepsGapless(l, c);
    CommitKeepsPairs(l, c);
  }

  lemma AppendKeepsLedger(l: Ledger, e: Event, ops: set<string>)
    requires LedgerInv(l, ops) && e.kind != OperationCommit && e.version == 0 && e.action == None
    ensures LedgerInv(l.(events := l.events + [e]), ops)
  {
    var l' := l.(events := l.events + [e]);
    forall a: Aggregate ensures GaplessOn(l', a) {
      assert GaplessOn(l, a);
      EventKeepsGapless(l, e, l', a);
    }
    forall i | 0 <= i < |l'.actions| ensures PairedAction(l', i) {
      assert PairedAction(l, i);
    }
    forall e' | 0 <= e' < |l'.events| ensures PairedEvent(l', e') {
      if e' < |l.events| { assert PairedEvent(l, e'); }
    }
    forall i | 0 <= i < |l'.actions| ensures ReservationOf(l', i) == ReservationOf(l, i) {
      assert PairedAction(l, i) && PairedAction(l', i);
    }
  }

  /** Reserving a key, or dropping a reservation that names no action, disturbs nothing else. */
  lemma ReservingKeepsLedger(l: Ledger, keys: map<Reservation, Option<nat>>, ops: set<string>)
    requires LedgerInv(l, ops)
    requires forall r :: r in keys ==> r.op in ops
    requires forall r :: StoredAction(l, r) == StoredAction(l.(keys := keys), r)
    ensures LedgerInv(l.(keys := keys), ops)
  {
    var l' := l.(keys := keys);
    forall a: Aggregate ensures GaplessOn(l', a) {
      assert GaplessOn(l, a);
    }
    forall i | 0 <= i < |l'.actions| ensures PairedAction(l', i) {
      assert PairedAction(l, i);
    }
    forall e | 0 <= e < |l'.events| ensures PairedEvent(l', e) {
      assert PairedEvent(l, e);
    }
    forall i | 0 <= i < |l'.actions| ensures ReservationOf(l', i) == ReservationOf(l, i) {
      assert PairedAction(l, i) && PairedAction(l', i);
    }
    forall r | r in l'.keys && l'.keys[r].Some?
      ensures l'.keys[r].value < |l'.actions| && ReservationOf(l', l'.keys[r].value) == r
    {
      assert StoredAction(l', r) == StoredAction(l, r) == Some(l'.keys[r].value);
      assert r in l.keys && l.keys[r].Some?;
    }
  }

  // ---- what the invariant buys --------------------------------------------------------------

  /** A versioned commit under a fresh key lands exactly when the version it read is the number
      of earlier commits on its aggregate; a refused one reports that number. */
  lemma CommitLandsIff(l: Ledger, c: Commit)
    requires Gapless(l) && StoredAction(l, Reservation(c.op, c.key)) == None && c.expected.Some?
    ensures CommitTo(l, c).Wrote? <==> c.expected.value == |Stream(l.events, c.aggregate)|
    ensures !CommitTo(l, c).Wrote? ==>
              CommitTo(l, c) == VersionConflict(c.expected.value, |Stream(l.events, c.aggregate)|)
  {
    assert GaplessOn(l, c.aggregate);
  }

  /** No two actions share an operation name and a key. */
  lemma OneActionPerReservation(l: Ledger, ops: set<string>, i: nat, j: nat)
    requires LedgerInv(l, ops) && i < |l.actions| && j < |l.actions|
    requires ReservationOf(l, i) == ReservationOf(l, j)
    ensures i == j
  {
    assert StoredAction(l, ReservationOf(l, i)) == Some(i);
    assert StoredAction(l, ReservationOf(l, j)) == Some(j);
  }

  // ---- append-only --------------------------------------------------------------------------

  /** What no transaction undoes: events and actions stand, and a key that names an action keeps
      naming that action. */
  ghost predicate LedgerGrows(l: Ledger, l': Ledger) {
    && l.events <= l'.events
    && l.actions <= l'.actions
    && (forall r :: StoredAction(l, r).Some? ==> StoredAction(l', r) == StoredAction(l, r))
  }

  lemma LedgerGrowsOn(a: Ledger, b: Ledger, c: Ledger)
    requires LedgerGrows(a, b) && LedgerGrows(b, c)
    ensures LedgerGrows(a, c)
  {
  }
}
