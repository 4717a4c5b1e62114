/** No message of a run is read by two steps or lost between them (`runs/service.post`, `work._drain`). */
module Mailboxes {
  import opened Tables
  import opened Runs
  import opened Working
  import opened Histories
  import opened RunLaws
  import opened Lifecycle
  import opened Leases
  import opened Guarantees

  /** Where step `k`'s reading ends. */
  function ReadBy(cs: seq<Checkpoint>, k: int): nat {
    if 0 < k <= |cs| then cs[k - 1].mailboxSeq else 0
  }

  /** The messages step `k` drained, as the checkpoints remember it. */
  function Portion(t: Thread, k: nat): seq<Message> {
    var from, upto := ReadBy(t.checkpoints, k - 1), ReadBy(t.checkpoints, k);
    if from <= upto <= |t.mailbox| then t.mailbox[from..upto] else []
  }

  /** The portions of steps 1..n, one after the other. */
  function Portions(t: Thread, n: nat): seq<Message> {
    if n == 0 then [] else Portions(t, n - 1) + Portion(t, n)
  }

  // ---- every message once -------------------------------------------------------------------

  lemma {:induction false} PortionsAreThePrefix(t: Thread, n: nat)
    requires ReadWithin(t) && Climbing(t.checkpoints) && n <= |t.checkpoints|
    ensures Portions(t, n) == t.mailbox[..ReadBy(t.checkpoints, n)]
  {
    if n > 0 {
      PortionsAreThePrefix(t, n - 1);
      var from, upto := ReadBy(t.checkpoints, n - 1), ReadBy(t.checkpoints, n);
      assert t.mailbox[..from] + t.mailbox[from..upto] == t.mailbox[..upto];
    }
  }

  /** Message number `no` falls to step `k`. */
  ghost predicate ReadAt(t: Thread, no: int, k: int) {
    1 <= k <= |t.checkpoints| && ReadBy(t.checkpoints, k - 1) < no <= ReadBy(t.checkpoints, k)
  }

  ghost predicate ReadOnce(t: Thread, no: int) {
    && (exists k :: ReadAt(t, no, k))
    && (forall j, k :: ReadAt(t, no, j) && ReadAt(t, no, k) ==> j == k)
  }

  /** In every state an honoured history reaches: the mailbox is numbered 1..m without a gap, and the
      portions of the settled steps are adjacent, share nothing and make up exactly the messages up to
      the watermark. */
  lemma EveryMessageOnce(cfg: Config, data: Data, grants: map<Principal, Grants>, h: seq<Txn>, r: nat)
    requires Honoured(cfg, Initial(data, grants), h) && Exec(cfg, Initial(data, grants), h).Some?
    requires r < |Exec(cfg, Initial(data, grants), h).value.threads|
    ensures MailReadOnce(Exec(cfg, Initial(data, grants), h).value.threads[r])
  {
    InitialIsLeased(cfg, data, grants);
    HonouredHistoryKeeps(cfg, Initial(data, grants), h);
    InvReadsOnce(cfg, Exec(cfg, Initial(data, grants), h).value, r);
  }

  ghost predicate MailReadOnce(t: Thread) {
    && (forall k :: 0 <= k < |t.mailbox| ==> t.mailbox[k].no == k + 1)
    && Watermark(t) <= |t.mailbox|
    && Portions(t, |t.checkpoints|) == t.mailbox[..Watermark(t)]
    && (forall k :: 0 <= k < Watermark(t) ==> ReadOnce(t, t.mailbox[k].no))
  }

  lemma InvReadsOnce(cfg: Config, s: State, r: nat)
    requires LeasedInv(cfg, s) && r < |s.threads|
    ensures MailReadOnce(s.threads[r])
  {
    assert RunInv(s.threads[r]) && Shape(s.threads[r]);
    PortionsPartition(s.threads[r]);
  }

  lemma PortionsPartition(t: Thread)
    requires ReadWithin(t) && Climbing(t.checkpoints)
    ensures Watermark(t) <= |t.mailbox| && Portions(t, |t.checkpoints|) == t.mailbox[..Watermark(t)]
    ensures forall k :: 0 <= k < Watermark(t) ==> ReadOnce(t, t.mailbox[k].no)
  {
    ClimbingEndsLast(t.checkpoints);
    PortionsAreThePrefix(t, |t.checkpoints|);
    forall k | 0 <= k < Watermark(t) ensures ReadOnce(t, t.mailbox[k].no) {
      var step := ReaderOf(t, t.mailbox[k].no, |t.checkpoints|);
      OneReader(t, t.mailbox[k].no);
    }
  }

  lemma OneReader(t: Thread, no: int)
    requires Climbing(t.checkpoints)
    ensures forall j, k :: ReadAt(t, no, j) && ReadAt(t, no, k) ==> j == k
  {
    assert forall j, k :: 1 <= j <= k < |t.checkpoints| ==> ReadBy(t.checkpoints, j) <= ReadBy(t.checkpoints, k);
  }

  lemma {:induction false} ReaderOf(t: Thread, no: int, n: nat) returns (k: nat)
    requires n <= |t.checkpoints| && 0 < no <= ReadBy(t.checkpoints, n)
    ensures ReadAt(t, no, k)
  {
    if no > ReadBy(t.checkpoints, n - 1) {
      k := n;
    } else {
      k := ReaderOf(t, no, n - 1);
    }
  }

  // ---- a portion is what its step drained ---------------------------------------------------

  /** The step commits and leaves a checkpoint. */
  ghost predicate Settles(cfg: Config, s: State, c: Claimed, w: Work) {
    && c.run < |s.threads| && Step(cfg, s, c, w).Some? && c.run < |Step(cfg, s, c, w).value.threads|
    && |Step(cfg, s, c, w).value.threads[c.run].checkpoints| > |s.threads[c.run].checkpoints|
  }

  /** The run a settling step leaves: what it was, with the checkpoint that says how far it read. */
  lemma SettlingStepCheckpoints(cfg: Config, s: State, c: Claimed, w: Work)
    requires LeasedInv(cfg, s) && c.run < |s.threads| && s.threads[c.run].state == Running
    requires Settles(cfg, s, c, w)
    ensures var t, t' := s.threads[c.run], Step(cfg, s, c, w).value.threads[c.run];
            && |t'.checkpoints| == |t.checkpoints| + 1 && t.checkpoints <= t'.checkpoints
            && t'.checkpoints[|t.checkpoints|].step == c.step
            && t'.checkpoints[|t.checkpoints|].mailboxSeq == ReadUpTo(t, w.visible)
  {
    var t := s.threads[c.run];
    if WithinCap(t, w.estimate) {
      RunningStepLeaves(cfg, s, c, w);
    }
  }

  /** What a step drained is, for ever after, the portion of the mailbox its checkpoint marks off. */
  lemma PortionIsWhatWasDrained(cfg: Config, s: State, c: Claimed, w: Work, h: seq<Txn>)
    requires LeasedInv(cfg, s) && Holds(s, c) && s.threads[c.run].state == Running
    requires Settles(cfg, s, c, w) && Exec(cfg, Step(cfg, s, c, w).value, h).Some?
    ensures var s' := Exec(cfg, Step(cfg, s, c, w).value, h).value;
            c.run < |s'.threads| && c.step <= |s'.threads[c.run].checkpoints|
            && Portion(s'.threads[c.run], c.step) == Drain(s.threads[c.run], w.visible)
  {
    var t, s1 := s.threads[c.run], Step(cfg, s, c, w).value;
    HeldStepReads(cfg, s, c, w.visible);
    SettlingStepCheckpoints(cfg, s, c, w);
    StepKeeps(cfg, s, c, w);
    LaterRun(cfg, s1, h, c.run);
    var t' := Exec(cfg, s1, h).value.threads[c.run];
    assert RunLater(t, s1.threads[c.run]) && RunLater(s1.threads[c.run], t');
    PortionStands(t, t', c.step, ReadUpTo(t, w.visible));
  }

  lemma HeldStepReads(cfg: Config, s: State, c: Claimed, visible: nat)
    requires LeasedInv(cfg, s) && Holds(s, c) && s.threads[c.run].state == Running
    ensures var t := s.threads[c.run];
            && c.step == |t.checkpoints| + 1
            && ReadBy(t.checkpoints, |t.checkpoints|) <= ReadUpTo(t, visible) <= |t.mailbox|
            && Drain(t, visible) == t.mailbox[ReadBy(t.checkpoints, |t.checkpoints|)..ReadUpTo(t, visible)]
  {
    var t := s.threads[c.run];
    assert RunInv(t) && Shape(t);
    HeldStepIsNext(t, c);
    DrainIsRange(t, visible);
    ClimbingEndsLast(t.checkpoints);
  }

  lemma LaterRun(cfg: Config, s: State, h: seq<Txn>, r: nat)
    requires Always(cfg, s) && r < |s.threads| && Exec(cfg, s, h).Some?
    ensures r < |Exec(cfg, s, h).value.threads| && RunLater(s.threads[r], Exec(cfg, s, h).value.threads[r])
  {
    HistoryKeeps(cfg, s, h);
  }

  lemma PortionStands(t: Thread, t': Thread, k: nat, upto: nat)
    requires k == |t.checkpoints| + 1 <= |t'.checkpoints| && t.checkpoints <= t'.checkpoints && t.mailbox <= t'.mailbox
    requires t'.checkpoints[k - 1].mailboxSeq == upto && upto <= |t.mailbox|
    requires ReadBy(t.checkpoints, |t.checkpoints|) <= upto
    ensures Portion(t', k) == t.mailbox[ReadBy(t.checkpoints, |t.checkpoints|)..upto]
  {
    assert ReadBy(t'.checkpoints, k - 1) == ReadBy(t.checkpoints, k - 1);
  }

  // ---- a step worked again ------------------------------------------------------------------

  /** While its run has not checkpointed, working a step again drains everything the earlier attempt
      drained, in the same order, and then whatever arrived since. */
  lemma ReworkDrainsMore(cfg: Config, s: State, h: seq<Txn>, r: nat, visible: nat, visible': nat)
    requires Always(cfg, s) && Exec(cfg, s, h).Some? && r < |s.threads|
    requires r < |Exec(cfg, s, h).value.threads|
    requires Exec(cfg, s, h).value.threads[r].checkpoints == s.threads[r].checkpoints
    requires visible <= |s.threads[r].mailbox| && visible <= visible'
    ensures Drain(s.threads[r], visible) <= Drain(Exec(cfg, s, h).value.threads[r], visible')
  {
    HistoryKeeps(cfg, s, h);
    var t, t' := s.threads[r], Exec(cfg, s, h).value.threads[r];
    assert RunInv(t) && RunInv(t') && RunLater(t, t');
    DrainsNest(t, t', visible, visible');
  }

  lemma DrainsNest(t: Thread, t': Thread, visible: nat, visible': nat)
    requires ReadWithin(t) && ReadWithin(t') && t.mailbox <= t'.mailbox && t.checkpoints == t'.checkpoints
    requires visible <= |t.mailbox| && visible <= visible'
    ensures Drain(t, visible) <= Drain(t', visible')
  {
    DrainIsRange(t, visible);
    DrainIsRange(t', visible');
    if visible < Watermark(t) { UnseenDrainsNothing(t, visible); }
    RangesNest(t.mailbox, t'.mailbox, Watermark(t), ReadUpTo(t, visible), ReadUpTo(t', visible'));
  }

  lemma RangesNest(ms: seq<Message>, ms': seq<Message>, w: nat, upto: nat, upto': nat)
    requires ms <= ms' && w <= upto <= |ms| && upto <= upto' <= |ms'|
    ensures ms[w..upto] <= ms'[w..upto']
  {
    assert ms[w..upto] == ms'[w..upto];
  }

  lemma UnseenDrainsNothing(t: Thread, visible: nat)
    requires ReadWithin(t) && visible <= Watermark(t) <= |t.mailbox|
    ensures Drain(t, visible) == [] && ReadUpTo(t, visible) == Watermark(t)
  {
    AfterIsSuffix(Seen(t, visible), Watermark(t));
  }
}
