/** The conversation a step is shown (`work._transcript`, `work._said`, `work._intake`). */
module Transcripts {
  import opened Tables
  import opened Working
  import opened RunLaws
  import opened Mailboxes

  datatype Line = Heard(message: Message) | Spoke(step: nat, text: string)

  function Tag(kind: MessageKind): string {
    match kind
    case Steer => "person"
    case Conflict => "conflict"
    case ContextLost => "context_lost"
  }

  function Render(line: Line, bodyText: Json -> string): string {
    match line
    case Heard(m) => "[" + Tag(m.kind) + "] " + bodyText(m.body)
    case Spoke(_, text) => "[agent] " + text
  }

  /** A line shows who spoke: the tag it opens with is that speaker's own, and what follows is what was said. */
  lemma LineShowsSpeaker(line: Line, bodyText: Json -> string)
    ensures var text := Render(line, bodyText);
            && (line.Heard? && line.message.kind == Steer <==> "[person] " <= text)
            && (line.Heard? && line.message.kind == Conflict <==> "[conflict] " <= text)
            && (line.Heard? && line.message.kind == ContextLost <==> "[context_lost] " <= text)
            && (line.Spoke? <==> "[agent] " <= text)
            && (line.Heard? ==> |bodyText(line.message.body)| <= |text|
                                && text[|text| - |bodyText(line.message.body)|..] == bodyText(line.message.body))
            && (line.Spoke? ==> text == "[agent] " + line.text)
  {
    var text := Render(line, bodyText);
    var person, conflict, lost, agent := "[person] ", "[conflict] ", "[context_lost] ", "[agent] ";
    assert person[1] == 'p' && conflict[1] == 'c' && lost[1] == 'c' && agent[1] == 'a';
    assert conflict[4] == 'f' && lost[4] == 't';
    if line.Heard? {
      var body := bodyText(line.message.body);
      match line.message.kind
      case Steer => assert text == person + body;
      case Conflict => assert text == conflict + body;
      case ContextLost => assert text == lost + body;
    }
  }

  function Rendered(lines: seq<Line>, bodyText: Json -> string): seq<string> {
    seq(|lines|, i requires 0 <= i < |lines| => Render(lines[i], bodyText))
  }

  function Joined(parts: seq<string>): string {
    if parts == [] then ""
    else if |parts| == 1 then parts[0]
    else Joined(parts[..|parts| - 1]) + "\n\n" + parts[|parts| - 1]
  }

  // ---- what the agent said ------------------------------------------------------------------

  predicate IsPlan(e: Event, r: nat, step: nat) {
    e.run == Some(r) && e.step == Some(step) && e.payload.Planned?
  }

  /** The last plan journaled at a step of a run. */
  function LastPlan(es: seq<Event>, r: nat, step: nat): Option<string> {
    if es == [] then None
    else if IsPlan(es[|es| - 1], r, step) then Some(es[|es| - 1].payload.text)
    else LastPlan(es[..|es| - 1], r, step)
  }

  ghost predicate Says(said: map<nat, string>, es: seq<Event>, r: nat) {
    forall step: nat :: if step in said then LastPlan(es, r, step) == Some(said[step]) else LastPlan(es, r, step) == None
  }

  method Said(es: seq<Event>, r: nat) returns (said: map<nat, string>)
    ensures Says(said, es, r)
  {
    said := map[];
    for i := 0 to |es|
      invariant Says(said, es[..i], r)
    {
      assert es[..i + 1][..i] == es[..i];
      var event := es[i];
      if event.run == Some(r) && event.payload.Planned? && event.step.Some? {
        said := said[event.step.value := event.payload.text];
      }
    }
    assert es[..|es|] == es;
  }

  // ---- the merge ----------------------------------------------------------------------------

  ghost predicate InOrder(ms: seq<Message>) {
    forall i, j :: 0 <= i < j < |ms| ==> ms[i].no <= ms[j].no
  }

  function Between(ms: seq<Message>, after: nat, upto: nat): seq<Message> {
    if ms == [] then [] else
      var last := ms[|ms| - 1];
      Between(ms[..|ms| - 1], after, upto) + if after < last.no <= upto then [last] else []
  }

  function Hear(ms: seq<Message>): seq<Line> {
    seq(|ms|, i requires 0 <= i < |ms| => Heard(ms[i]))
  }

  function Reply(said: map<nat, string>, step: nat): seq<Line> {
    if step in said && said[step] != "" then [Spoke(step, said[step])] else []
  }

  /** How far any of these steps had read. */
  function Furthest(worked: seq<Checkpoint>): nat {
    if worked == [] then 0 else
      var before, seen := Furthest(worked[..|worked| - 1]), worked[|worked| - 1].mailboxSeq;
      if seen > before then seen else before
  }

  /** For each worked step in order: the messages it was the first to read, then what it said. */
  function Conversation(worked: seq<Checkpoint>, ms: seq<Message>, said: map<nat, string>): seq<Line> {
    if worked == [] then [] else
      var before, last := worked[..|worked| - 1], worked[|worked| - 1];
      Conversation(before, ms, said) + Hear(Between(ms, Furthest(before), last.mailboxSeq)) + Reply(said, last.step)
  }

  lemma {:induction false} BetweenIsSlice(ms: seq<Message>, after: nat, upto: nat, a: nat, b: nat)
    requires a <= b <= |ms|
    requires forall j :: 0 <= j < a ==> ms[j].no <= after
    requires forall j :: a <= j < |ms| ==> ms[j].no > after
    requires forall j :: a <= j < b ==> ms[j].no <= upto
    requires forall j :: b <= j < |ms| ==> ms[j].no > upto
    ensures Between(ms, after, upto) == ms[a..b]
  {
    if ms != [] {
      var n := |ms| - 1;
      BetweenIsSlice(ms[..n], after, upto, if a > n then n else a, if b > n then n else b);
      assert ms[a..b] == (if a < b && b > n then ms[..n][a..n] + [ms[n]] else ms[a..b]);
    }
  }

  /** `read` messages were numbered up to `seen`, and the rest are past it. */
  ghost predicate SplitAt(ms: seq<Message>, read: int, seen: nat) {
    && 0 <= read <= |ms|
    && (forall j :: 0 <= j < read ==> ms[j].no <= seen)
    && (forall j :: read <= j < |ms| ==> ms[j].no > seen)
  }

  lemma RenderedOneMore(told: seq<Line>, line: Line, bodyText: Json -> string)
    ensures Rendered(told + [line], bodyText) == Rendered(told, bodyText) + [Render(line, bodyText)]
  {
  }

  lemma HearOneMore(before: seq<Line>, ms: seq<Message>, start: nat, read: nat)
    requires start <= read < |ms|
    ensures before + Hear(ms[start..read + 1]) == before + Hear(ms[start..read]) + [Heard(ms[read])]
  {
    assert Hear(ms[start..read + 1]) == Hear(ms[start..read]) + [Heard(ms[read])];
  }

  lemma HearNothing(before: seq<Line>, ms: seq<Message>, start: nat)
    requires start <= |ms|
    ensures before + Hear(ms[start..start]) == before
  {
    assert ms[start..start] == [];
  }

  /** What one more worked step adds to the conversation. */
  lemma ConversationOneMore(worked: seq<Checkpoint>, ms: seq<Message>, said: map<nat, string>, i: nat)
    requires i < |worked|
    ensures Conversation(worked[..i + 1], ms, said)
         == Conversation(worked[..i], ms, said)
            + Hear(Between(ms, Furthest(worked[..i]), worked[i].mailboxSeq)) + Reply(said, worked[i].step)
    ensures Furthest(worked[..i + 1])
         == if worked[i].mailboxSeq > Furthest(worked[..i]) then worked[i].mailboxSeq else Furthest(worked[..i])
  {
    assert worked[..i + 1][..i] == worked[..i];
  }

  lemma ReadingMovesOn(ms: seq<Message>, start: nat, seen: nat, read: nat, upto: nat)
    requires InOrder(ms) && SplitAt(ms, start, seen) && start <= read <= |ms|
    requires forall j :: start <= j < read ==> ms[j].no <= upto
    requires read < |ms| ==> ms[read].no > upto
    ensures Between(ms, seen, upto) == ms[start..read]
    ensures SplitAt(ms, read, if upto > seen then upto else seen)
  {
    BetweenIsSlice(ms, seen, upto, start, read);
  }

  /** The inner index: read on while the messages are within what the step had read. */
  method ReadOn(messages: seq<Message>, start: nat, upto: nat, bodyText: Json -> string, before: seq<string>, ghost told: seq<Line>)
    returns (lines: seq<string>, read: nat)
    requires start <= |messages| && before == Rendered(told, bodyText)
    ensures start <= read <= |messages|
    ensures forall j :: start <= j < read ==> messages[j].no <= upto
    ensures read < |messages| ==> messages[read].no > upto
    ensures lines == Rendered(told + Hear(messages[start..read]), bodyText)
  {
    lines, read := before, start;
    HearNothing(told, messages, start);
    while read < |messages| && messages[read].no <= upto
      invariant start <= read <= |messages|
      invariant forall j :: start <= j < read ==> messages[j].no <= upto
      invariant lines == Rendered(told + Hear(messages[start..read]), bodyText)
    {
      var message := messages[read];
      HearOneMore(told, messages, start, read);
      RenderedOneMore(told + Hear(messages[start..read]), Heard(message), bodyText);
      lines := lines + ["[" + Tag(message.kind) + "] " + bodyText(message.body)];
      read := read + 1;
    }
  }

  /** The two-index loop: `worked` by step and `messages` by number, as their queries order them. */
  method Transcript(worked: seq<Checkpoint>, messages: seq<Message>, said: map<nat, string>,
                    bodyText: Json -> string) returns (text: string)
    requires InOrder(messages) && SplitAt(messages, 0, 0)
    ensures text == Joined(Rendered(Conversation(worked, messages, said), bodyText))
  {
    var lines: seq<string> := [];
    var read := 0;
    ghost var told: seq<Line> := [];
    for i := 0 to |worked|
      invariant SplitAt(messages, read, Furthest(worked[..i]))
      invariant told == Conversation(worked[..i], messages, said) && lines == Rendered(told, bodyText)
    {
      var start, step, upto := read, worked[i].step, worked[i].mailboxSeq;
      lines, read := ReadOn(messages, start, upto, bodyText, lines, told);
      ReadingMovesOn(messages, start, Furthest(worked[..i]), read, upto);
      ConversationOneMore(worked, messages, said, i);
      told := told + Hear(messages[start..read]);
      if step in said && said[step] != "" {
        RenderedOneMore(told, Spoke(step, said[step]), bodyText);
        lines := lines + ["[agent] " + said[step]];
      } else {
        assert told + [] == told;
      }
      told := told + Reply(said, step);
    }
    assert worked[..|worked|] == worked;
    text := Joined(lines);
  }

  // ---- what the conversation says -----------------------------------------------------------

  /** The conversation of a run whose watermarks climb: each step's portion of the mailbox, then what
      the step said, up to step `n`. */
  function Told(t: Thread, said: map<nat, string>, n: nat): seq<Line> {
    if n == 0 then [] else Told(t, said, n - 1) + Hear(Portion(t, n)) + Reply(said, n)
  }

  lemma {:induction false} FurthestIsLast(cs: seq<Checkpoint>)
    requires Climbing(cs)
    ensures Furthest(cs) == ReadBy(cs, |cs|)
  {
    if cs != [] {
      FurthestIsLast(cs[..|cs| - 1]);
    }
  }

  lemma {:induction false} ConversationIsTold(t: Thread, said: map<nat, string>, w: nat, n: nat)
    requires ReadWithin(t) && Climbing(t.checkpoints) && n <= |t.checkpoints|
    requires ReadBy(t.checkpoints, n) <= w <= |t.mailbox|
    ensures Conversation(t.checkpoints[..n], t.mailbox[..w], said) == Told(t, said, n)
  {
    if n > 0 {
      ConversationAtAStep(t, said, w, n);
      ReadByClimbs(t.checkpoints, n - 1, n);
      ConversationIsTold(t, said, w, n - 1);
    }
  }

  /** The loop's share of step `n` is the step's portion of the mailbox. */
  lemma ConversationAtAStep(t: Thread, said: map<nat, string>, w: nat, n: nat)
    requires ReadWithin(t) && Climbing(t.checkpoints) && 0 < n <= |t.checkpoints|
    requires ReadBy(t.checkpoints, n) <= w <= |t.mailbox|
    ensures Conversation(t.checkpoints[..n], t.mailbox[..w], said)
         == Conversation(t.checkpoints[..n - 1], t.mailbox[..w], said) + Hear(Portion(t, n)) + Reply(said, n)
  {
    var cs, ms := t.checkpoints[..n], t.mailbox[..w];
    var from, upto := ReadBy(t.checkpoints, n - 1), ReadBy(t.checkpoints, n);
    ReadByClimbs(t.checkpoints, n - 1, n);
    assert cs[..n - 1] == t.checkpoints[..n - 1];
    FurthestIsLast(cs[..n - 1]);
    BetweenIsSlice(ms, from, upto, from, upto);
    assert ms[from..upto] == Portion(t, n);
  }

  /** What the worker hands assembly as the transcript is that conversation, for every run an honoured
      history reaches. */
  lemma TranscriptIsTold(t: Thread, said: map<nat, string>)
    requires ReadWithin(t) && Climbing(t.checkpoints)
    ensures Watermark(t) <= |t.mailbox|
    ensures Conversation(t.checkpoints, t.mailbox[..Watermark(t)], said) == Told(t, said, |t.checkpoints|)
  {
    ClimbingEndsLast(t.checkpoints);
    ConversationIsTold(t, said, Watermark(t), |t.checkpoints|);
    assert t.checkpoints[..|t.checkpoints|] == t.checkpoints;
  }

  function HeardIn(lines: seq<Line>): seq<Message> {
    if lines == [] then [] else
      var last := lines[|lines| - 1];
      HeardIn(lines[..|lines| - 1]) + if last.Heard? then [last.message] else []
  }

  lemma {:induction false} HeardInMore(a: seq<Line>, b: seq<Line>)
    ensures HeardIn(a + b) == HeardIn(a) + HeardIn(b)
  {
    if b == [] {
      assert a + b == a;
    } else {
      HeardInMore(a, b[..|b| - 1]);
      assert (a + b)[..|a + b| - 1] == a + b[..|b| - 1];
    }
  }

  lemma {:induction false} HeardInHear(ms: seq<Message>)
    ensures HeardIn(Hear(ms)) == ms
  {
    if ms != [] {
      HeardInHear(ms[..|ms| - 1]);
      assert Hear(ms)[..|ms| - 1] == Hear(ms[..|ms| - 1]);
    }
  }

  lemma HeardAtAStep(before: seq<Line>, ms: seq<Message>, said: map<nat, string>, step: nat)
    ensures HeardIn(before + Hear(ms) + Reply(said, step)) == HeardIn(before) + ms
  {
    HeardInMore(before + Hear(ms), Reply(said, step));
    HeardInMore(before, Hear(ms));
    HeardInHear(ms);
    assert HeardIn(Reply(said, step)) == [];
  }

  lemma Adjacent(ms: seq<Message>, from: nat, upto: nat)
    requires from <= upto <= |ms|
    ensures ms[..from] + ms[from..upto] == ms[..upto]
  {
  }

  /** The transcript tells every message up to the watermark exactly once, in mailbox order. */
  lemma EveryMessageIsTold(t: Thread, said: map<nat, string>, n: nat)
    requires ReadWithin(t) && Climbing(t.checkpoints) && n <= |t.checkpoints|
    ensures ReadBy(t.checkpoints, n) <= |t.mailbox|
    ensures HeardIn(Told(t, said, n)) == t.mailbox[..ReadBy(t.checkpoints, n)]
  {
    PortionsAreThePrefix(t, n);
    ToldIsPortions(t, said, n);
  }

  /** What is told step by step, however it is told. */
  ghost predicate TellsSteps(told: nat -> seq<Line>, t: Thread, said: map<nat, string>, n: nat) {
    told(0) == [] && forall k: nat :: k < n ==> told(k + 1) == told(k) + Hear(Portion(t, k + 1)) + Reply(said, k + 1)
  }

  lemma {:induction false} TellsPortions(told: nat -> seq<Line>, t: Thread, said: map<nat, string>, n: nat)
    requires TellsSteps(told, t, said, n)
    ensures HeardIn(told(n)) == Portions(t, n)
  {
    if n > 0 {
      TellsPortions(told, t, said, n - 1);
      HeardAtAStep(told(n - 1), Portion(t, n), said, n);
      assert told(n) == told(n - 1) + Hear(Portion(t, n)) + Reply(said, n);
    }
  }

  lemma ToldIsPortions(t: Thread, said: map<nat, string>, n: nat)
    ensures HeardIn(Told(t, said, n)) == Portions(t, n)
  {
    var told := (k: nat) => Told(t, said, k);
    assert TellsSteps(told, t, said, n);
    TellsPortions(told, t, said, n);
  }

  /** One turn's prompt holds the mailbox as drained: the transcript and the intake share no message
      and together are every message up to where the step's checkpoint will say it read. */
  lemma TurnHoldsMailboxOnce(t: Thread, said: map<nat, string>, visible: nat)
    requires ReadWithin(t) && Climbing(t.checkpoints)
    ensures ReadUpTo(t, visible) <= |t.mailbox|
    ensures HeardIn(Told(t, said, |t.checkpoints|)) + Drain(t, visible) == t.mailbox[..ReadUpTo(t, visible)]
  {
    EveryMessageIsTold(t, said, |t.checkpoints|);
    DrainIsRange(t, visible);
    ClimbingEndsLast(t.checkpoints);
    Adjacent(t.mailbox, Watermark(t), ReadUpTo(t, visible));
  }

  /** The lines step `n` adds: messages past what was read before it, and then its reply. */
  lemma LinesOfStep(t: Thread, said: map<nat, string>, n: nat, i: nat)
    requires ReadWithin(t) && Climbing(t.checkpoints) && 0 < n <= |t.checkpoints| && i < |Told(t, said, n)|
    ensures var before, lines := Told(t, said, n - 1), Told(t, said, n);
            if i < |before| then lines[i] == before[i]
            else match lines[i]
                 case Heard(m) => ReadBy(t.checkpoints, n - 1) < m.no <= ReadBy(t.checkpoints, n)
                                  && i < |before| + |Portion(t, n)|
                 case Spoke(k, text) => k == n && i == |lines| - 1 && i >= |before| + |Portion(t, n)|
                                        && n in said && text == said[n] && text != ""
  {
  }

  /** Every line told by step `n` belongs to it or to an earlier one. */
  lemma {:induction false} LinesUpTo(t: Thread, said: map<nat, string>, n: nat, i: nat)
    requires ReadWithin(t) && Climbing(t.checkpoints) && n <= |t.checkpoints| && i < |Told(t, said, n)|
    ensures match Told(t, said, n)[i]
            case Heard(m) => 0 < m.no <= ReadBy(t.checkpoints, n)
            case Spoke(k, text) => 1 <= k <= n && k in said && text == said[k] && text != ""
  {
    LinesOfStep(t, said, n, i);
    if i < |Told(t, said, n - 1)| {
      LinesUpTo(t, said, n - 1, i);
    }
  }

  lemma ReadByClimbs(cs: seq<Checkpoint>, j: nat, k: nat)
    requires Climbing(cs) && j <= k <= |cs|
    ensures ReadBy(cs, j) <= ReadBy(cs, k)
  {
  }

  /** A message comes before a step's reply exactly when that step or an earlier one had read it, and
      replies come in step order, at most one a step. */
  lemma {:induction false} RepliesFollowWhatTheyAnswer(t: Thread, said: map<nat, string>, n: nat, i: nat, j: nat)
    requires ReadWithin(t) && Climbing(t.checkpoints) && n <= |t.checkpoints|
    requires i < |Told(t, said, n)| && j < |Told(t, said, n)| && Told(t, said, n)[j].Spoke?
    ensures var lines := Told(t, said, n);
            match lines[i]
            case Heard(m) => i < j <==> m.no <= ReadBy(t.checkpoints, lines[j].step)
            case Spoke(k, _) => i < j <==> k < lines[j].step
  {
    LinesOfStep(t, said, n, i);
    LinesOfStep(t, said, n, j);
    LinesUpTo(t, said, n, i);
    LinesUpTo(t, said, n, j);
    var before := |Told(t, said, n - 1)|;
    if i < before && j < before {
      RepliesFollowWhatTheyAnswer(t, said, n - 1, i, j);
    } else if i < before {
      LinesUpTo(t, said, n - 1, i);
      ReadByClimbs(t.checkpoints, n - 1, n);
    } else if j < before {
      LinesUpTo(t, said, n - 1, j);
      ReadByClimbs(t.checkpoints, Told(t, said, n)[j].step, n - 1);
    }
  }
}
