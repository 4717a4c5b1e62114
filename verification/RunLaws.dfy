/** What the moves of one run keep, step by step. */
module RunLaws {
  import opened Tables
  import opened Runs
  import opened Working

  // ---- how a run may change -----------------------------------------------------------------

  /** Over any stretch of history, under no assumption on leases: the ceiling and the cap never move,
      the mailbox, checkpoints and usage only grow, a cancelled run is over for good, and a failed
      one is only ever cancelled. */
  ghost predicate RunLater(t: Thread, t': Thread) {
    && t'.cap == t.cap && t'.ceiling == t.ceiling
    && t.mailbox <= t'.mailbox && t.checkpoints <= t'.checkpoints && t.usage <= t'.usage
    && (t.state == Cancelled ==> t'.state == Cancelled)
    && (t.state == Failed ==> t'.state in {Failed, Cancelled})
    && (t.state in {Cancelled, Failed} ==>
          t'.checkpoints == t.checkpoints && t'.mailbox == t.mailbox && t'.queue.Keys <= t.queue.Keys)
  }

  ghost predicate RunsGrow(ts: seq<Thread>, ts': seq<Thread>) {
    && |ts| <= |ts'|
    && forall r :: 0 <= r < |ts| ==> RunLater(ts[r], ts'[r])
  }

  lemma RunsGrowOn(a: seq<Thread>, b: seq<Thread>, c: seq<Thread>)
    requires RunsGrow(a, b) && RunsGrow(b, c)
    ensures RunsGrow(a, c)
  {
    forall r | 0 <= r < |a| ensures RunLater(a[r], c[r]) {
      assert RunLater(a[r], b[r]) && RunLater(b[r], c[r]);
    }
  }

  // ---- what every run keeps, leases or no leases --------------------------------------------

  ghost predicate Numbered(ms: seq<Message>) {
    forall k :: 0 <= k < |ms| ==> ms[k].no == k + 1
  }

  /** The mailbox is numbered 1..m, and no checkpoint claims to have read past it. */
  ghost predicate ReadWithin(t: Thread) {
    && Numbered(t.mailbox)
    && (forall k :: 0 <= k < |t.checkpoints| ==> t.checkpoints[k].mailboxSeq <= |t.mailbox|)
  }

  /** Steps 1..n in order, each having read at least as far as the one before. */
  ghost predicate Climbing(cs: seq<Checkpoint>) {
    && (forall k :: 0 <= k < |cs| ==> cs[k].step == k + 1)
    && (forall j, k :: 0 <= j <= k < |cs| ==> cs[j].mailboxSeq <= cs[k].mailboxSeq)
  }

  lemma ClimbingOn(cs: seq<Checkpoint>, cp: Checkpoint)
    requires Climbing(cs) && cp.step == |cs| + 1 && LastRead(cs) <= cp.mailboxSeq
    ensures Climbing(cs + [cp])
  {
    ClimbingEndsLast(cs);
  }

  lemma ClimbingEndsLast(cs: seq<Checkpoint>)
    requires Climbing(cs)
    ensures LastStep(cs) == |cs|
    ensures LastRead(cs) == if cs == [] then 0 else cs[|cs| - 1].mailboxSeq
  {
    if cs != [] {
      assert cs[|cs| - 1].step == |cs|;
      var before := cs[..|cs| - 1];
      assert forall k :: 0 <= k < |before| ==> before[k].step <= |before|;
    }
  }

  /** Each model call was within the cap when it was made. */
  ghost predicate Affordable(t: Thread) {
    forall k :: 0 <= k < |t.usage| ==> Spend(t.usage[..k]) + t.usage[k].estimate <= t.cap
  }

  ghost predicate RunInv(t: Thread) {
    && ReadWithin(t) && Affordable(t)
    && (t.state == Cancelled ==> t.queue == map[])
  }

  ghost predicate AllRuns(ts: seq<Thread>) {
    forall r :: 0 <= r < |ts| ==> RunInv(ts[r])
  }

  /** A move that leaves the mailbox, checkpoints, usage, cap and ceiling alone. */
  ghost predicate OnlyMoves(t: Thread, t': Thread) {
    t' == t.(state := t'.state, failure := t'.failure, queue := t'.queue)
  }

  lemma MovesKeep(t: Thread, t': Thread)
    requires RunInv(t) && OnlyMoves(t, t') && (t'.state == Cancelled ==> t'.queue == map[])
    ensures RunInv(t')
  {
  }

  // ---- the drain ----------------------------------------------------------------------------

  lemma {:induction false} AfterIsSuffix(ms: seq<Message>, seen: nat)
    requires Numbered(ms)
    ensures After(ms, seen) == if seen <= |ms| then ms[seen..] else []
  {
    if ms != [] {
      AfterIsSuffix(ms[..|ms| - 1], seen);
    }
  }

  /** A step drains exactly the messages past the last watermark that its drain could see, and its
      checkpoint will say so. */
  lemma DrainIsRange(t: Thread, visible: nat)
    requires ReadWithin(t)
    ensures var w, upto := Watermark(t), ReadUpTo(t, visible);
            && w <= upto <= |t.mailbox|
            && Drain(t, visible) == t.mailbox[w..upto]
            && (w <= visible <= |t.mailbox| ==> upto == visible)
            && (visible >= |t.mailbox| ==> upto == |t.mailbox|)
  {
    var seen, w := Seen(t, visible), Watermark(t);
    assert w <= |t.mailbox|;
    AfterIsSuffix(seen, w);
    assert Numbered(seen) && seen <= t.mailbox;
    SuffixIsRange(t.mailbox, seen, w);
  }

  lemma SuffixIsRange(ms: seq<Message>, seen: seq<Message>, w: nat)
    requires Numbered(ms) && seen <= ms && w <= |ms|
    ensures var drained := if w <= |seen| then seen[w..] else [];
            && drained == ms[w..if w <= |seen| then |seen| else w]
            && (drained != [] ==> drained[|drained| - 1].no == |seen|)
  {
  }

  // ---- messages -----------------------------------------------------------------------------

  lemma LastOfNumbered(ms: seq<Message>)
    requires Numbered(ms)
    ensures LastSeq(ms) == |ms|
  {
    if ms != [] { assert ms[|ms| - 1].no == |ms|; }
  }

  lemma PostKeeps(t: Thread, kind: MessageKind, body: Json, author: Principal)
    requires RunInv(t) && Post(t, kind, body, author).Posted?
    ensures var t' := Post(t, kind, body, author).thread;
            && RunInv(t') && RunLater(t, t') && t'.checkpoints == t.checkpoints && t'.usage == t.usage
            && t'.mailbox == t.mailbox + [Message(|t.mailbox| + 1, kind, body, author)]
            && (t.state != Done ==> t' == t.(mailbox := t'.mailbox))
  {
    LastOfNumbered(t.mailbox);
  }

  // ---- settling a step ----------------------------------------------------------------------

  lemma StopKeeps(t: Thread, step: nat, state: RunState, failure: Option<string>)
    requires RunInv(t) && state in {WaitingApproval, Failed}
    ensures RunInv(Stop(t, step, state, failure)) && RunLater(t, Stop(t, step, state, failure))
  {
    MovesKeep(t, Stop(t, step, state, failure));
  }

  lemma AdvanceKeeps(t: Thread, step: nat, cp: Checkpoint)
    requires RunInv(t) && cp.mailboxSeq <= |t.mailbox| && Advance(t, step, cp).Some?
    ensures RunInv(Advance(t, step, cp).value) && RunLater(t, Advance(t, step, cp).value)
  {
  }

  lemma AnswerKeeps(t: Thread, u: Usage)
    requires RunInv(t) && WithinCap(t, u.estimate)
    ensures RunInv(t.(usage := t.usage + [u])) && RunLater(t, t.(usage := t.usage + [u]))
  {
    var us := t.usage + [u];
    forall k | 0 <= k < |us| ensures Spend(us[..k]) + us[k].estimate <= t.cap {
      if k < |t.usage| { assert us[..k] == t.usage[..k]; } else { assert us[..k] == t.usage; }
    }
  }
}
