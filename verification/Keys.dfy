/** The strings the kernel hashes determine what they were made of. SHA-256 itself is taken to be
    injective, so it is the strings that must not be ambiguous. */
module Keys {
  import opened Tables

  // ---- separators ---------------------------------------------------------------------------

  predicate Free(s: string, sep: char) { sep !in s }

  function Join(parts: seq<string>, sep: char): string {
    if parts == [] then ""
    else if |parts| == 1 then parts[0]
    else parts[0] + [sep] + Join(parts[1..], sep)
  }

  /** The first separator ends the first part, whatever follows it. */
  lemma FirstPart(p: string, r: string, p': string, r': string, sep: char)
    requires Free(p, sep) && Free(p', sep) && p + [sep] + r == p' + [sep] + r'
    ensures p == p' && r == r'
  {
    var s := p + [sep] + r;
    assert forall k :: 0 <= k < |p| ==> s[k] == p[k];
    assert forall k :: 0 <= k < |p'| ==> s[k] == p'[k];
    assert s[|p|] == sep && s[|p'|] == sep;
    assert |p| == |p'|;
    assert p == s[..|p|] && p' == s[..|p'|];
    assert r == s[|p| + 1..] && r' == s[|p'| + 1..];
  }

  lemma JoinHasSeparator(parts: seq<string>, sep: char)
    requires parts != [] && Free(parts[0], sep)
    ensures sep in Join(parts, sep) <==> |parts| > 1
  {
    if |parts| > 1 { assert Join(parts, sep)[|parts[0]|] == sep; }
  }

  /** Joining non-empty lists of separator-free parts loses nothing, their number included. */
  lemma {:induction false} JoinDetermines(a: seq<string>, b: seq<string>, sep: char)
    requires a != [] && b != [] && Join(a, sep) == Join(b, sep)
    requires forall k :: 0 <= k < |a| ==> Free(a[k], sep)
    requires forall k :: 0 <= k < |b| ==> Free(b[k], sep)
    ensures a == b
    decreases |a|
  {
    assert sep in Join(a, sep) <==> |a| > 1 by { JoinHasSeparator(a, sep); }
    assert sep in Join(b, sep) <==> |b| > 1 by { JoinHasSeparator(b, sep); }
    if |a| == 1 {
      assert a == [a[0]] && b == [b[0]];
    } else {
      FirstPart(a[0], Join(a[1..], sep), b[0], Join(b[1..], sep), sep);
      JoinDetermines(a[1..], b[1..], sep);
      assert a == [a[0]] + a[1..] && b == [b[0]] + b[1..];
    }
  }

  // ---- numbers ------------------------------------------------------------------------------

  const DIGITS: string := "0123456789"

  function Decimal(n: nat): (s: string)
    ensures s != [] && forall k :: 0 <= k < |s| ==> s[k] in DIGITS
  {
    if n < 10 then [DIGITS[n]] else Decimal(n / 10) + [DIGITS[n % 10]]
  }

  lemma {:induction false} DecimalDetermines(n: nat, m: nat)
    requires Decimal(n) == Decimal(m)
    ensures n == m
    decreases n
  {
    var s, t := Decimal(n), Decimal(m);
    assert s[|s| - 1] == DIGITS[n % 10] && t[|t| - 1] == DIGITS[m % 10];
    assert n % 10 == m % 10;
    if n >= 10 && m >= 10 {
      assert Decimal(n / 10) == s[..|s| - 1] && Decimal(m / 10) == t[..|t| - 1];
      DecimalDetermines(n / 10, m / 10);
    }
  }

  // ---- the idempotency key ------------------------------------------------------------------

  /** A UUID as it is printed: 36 characters, none of them a colon. */
  type UuidText = s: string | |s| == 36 && ':' !in s witness seq(36, i => '0')

  function RunText(run: Option<UuidText>): string {
    match run
    case None => "None"
    case Some(id) => id
  }

  function StepText(step: Option<nat>): string {
    match step
    case None => "None"
    case Some(n) => Decimal(n)
  }

  function KeyText(run: Option<UuidText>, step: Option<nat>, call: string): string {
    RunText(run) + ":" + StepText(step) + ":" + call
  }

  lemma StepTextDetermines(a: Option<nat>, b: Option<nat>)
    ensures Free(StepText(a), ':')
    ensures StepText(a) == StepText(b) ==> a == b
  {
    assert 'N' !in DIGITS && ':' !in DIGITS;
    assert StepText(a)[0] in DIGITS <==> a.Some?;
    assert StepText(b)[0] in DIGITS <==> b.Some?;
    if a.Some? && b.Some? && StepText(a) == StepText(b) {
      DecimalDetermines(a.value, b.value);
    }
  }

  /** `run:step:call` determines all three, for any call id whatever, colons included. */
  lemma KeyTextDetermines(run: Option<UuidText>, step: Option<nat>, call: string,
                          run': Option<UuidText>, step': Option<nat>, call': string)
    requires KeyText(run, step, call) == KeyText(run', step', call')
    ensures run == run' && step == step' && call == call'
  {
    StepTextDetermines(step, step');
    StepTextDetermines(step', step);
    KeyTextForm(run, step, call);
    KeyTextForm(run', step', call');
    FirstPart(RunText(run), StepText(step) + [':'] + call, RunText(run'), StepText(step') + [':'] + call', ':');
    FirstPart(StepText(step), call, StepText(step'), call', ':');
    RunTextDetermines(run, run');
  }

  lemma KeyTextForm(run: Option<UuidText>, step: Option<nat>, call: string)
    ensures KeyText(run, step, call) == RunText(run) + [':'] + (StepText(step) + [':'] + call)
    ensures Free(RunText(run), ':')
  {
  }

  lemma RunTextDetermines(a: Option<UuidText>, b: Option<UuidText>)
    requires RunText(a) == RunText(b)
    ensures a == b
  {
    assert |RunText(None)| == 4;
  }

  /** So the tuple the tables carry for a key is what its digest stands for: however distinct runs are
      given distinct UUIDs, distinct keys hash distinct strings. */
  lemma KeysHashApart(uuid: nat -> UuidText, a: Key, b: Key)
    requires forall r, q :: uuid(r) == uuid(q) ==> r == q
    requires HashedKey(uuid, a) == HashedKey(uuid, b)
    ensures a == b
  {
    KeyTextDetermines(RunId(uuid, a), a.step, a.call, RunId(uuid, b), b.step, b.call);
  }

  function RunId(uuid: nat -> UuidText, k: Key): Option<UuidText> {
    if k.run.Some? then Some(uuid(k.run.value)) else None
  }

  function HashedKey(uuid: nat -> UuidText, k: Key): string {
    KeyText(RunId(uuid, k), k.step, k.call)
  }

  // ---- the approval binding -----------------------------------------------------------------

  const DOMAIN := "agentquilt.approval.v1"
  const NUL: char := '\0'

  function ArgsText(versionId: string, canonical: string, scope: string): string {
    Join([DOMAIN, versionId, canonical, scope], NUL)
  }

  /** The NUL-joined pre-image determines the operation version, the canonical arguments and the scope,
      since neither of the first two contains a NUL (section 3.2.2.2 of RFC 8785 escapes control
      characters); the scope may contain anything. */
  lemma ArgsTextDetermines(v: string, args: string, scope: string, v': string, args': string, scope': string)
    requires Free(v, NUL) && Free(v', NUL) && Free(args, NUL) && Free(args', NUL)
    requires ArgsText(v, args, scope) == ArgsText(v', args', scope')
    ensures v == v' && args == args' && scope == scope'
  {
    ArgsTextForm(v, args, scope);
    ArgsTextForm(v', args', scope');
    FirstPart(DOMAIN, v + [NUL] + (args + [NUL] + scope), DOMAIN, v' + [NUL] + (args' + [NUL] + scope'), NUL);
    FirstPart(v, args + [NUL] + scope, v', args' + [NUL] + scope', NUL);
    FirstPart(args, scope, args', scope', NUL);
  }

  lemma ArgsTextForm(v: string, args: string, scope: string)
    ensures ArgsText(v, args, scope) == DOMAIN + [NUL] + (v + [NUL] + (args + [NUL] + scope))
    ensures Free(DOMAIN, NUL)
  {
    assert [DOMAIN, v, args, scope][1..] == [v, args, scope];
    assert [v, args, scope][1..] == [args, scope];
    assert [args, scope][1..] == [scope];
    assert Join([args, scope], NUL) == args + [NUL] + scope;
    assert Join([v, args, scope], NUL) == v + [NUL] + (args + [NUL] + scope);
    assert ArgsText(v, args, scope) == DOMAIN + [NUL] + Join([v, args, scope], NUL);
  }

  /** With a canonical form that is injective and NUL-free, distinct bindings hash distinct strings. */
  lemma DigestsHashApart(canonical: Json -> string, a: ArgsDigest, b: ArgsDigest)
    requires forall x, y :: canonical(x) == canonical(y) ==> x == y
    requires forall x :: Free(canonical(x), NUL)
    requires Free(a.versionId, NUL) && Free(b.versionId, NUL)
    requires ArgsText(a.versionId, canonical(a.args), "") == ArgsText(b.versionId, canonical(b.args), "")
    ensures a == b
  {
    ArgsTextDetermines(a.versionId, canonical(a.args), "", b.versionId, canonical(b.args), "");
  }

  // ---- the prefix key -----------------------------------------------------------------------

  datatype Term = Term(slot: string, owner: string, version: string)
  datatype Binding = Binding(provider: string, model: string, effort: Option<string>)

  function TermText(t: Term): string {
    t.slot + "|" + t.owner + "|" + t.version
  }

  function EffortText(b: Binding): string {
    if b.effort.Some? then b.effort.value else ""
  }

  function TermTexts(ts: seq<Term>): seq<string> {
    seq(|ts|, k requires 0 <= k < |ts| => TermText(ts[k]))
  }

  function KeyTerms(ts: seq<Term>, b: Binding): seq<string> {
    TermTexts(ts) + [b.provider, b.model, EffortText(b)]
  }

  function PrefixText(ts: seq<Term>, b: Binding): string {
    Join(KeyTerms(ts, b), '\n')
  }

  predicate OneLine(ts: seq<Term>, b: Binding) {
    && (forall k :: 0 <= k < |ts| ==> Free(TermText(ts[k]), '\n') && Free(ts[k].slot, '|') && Free(ts[k].owner, '|'))
    && Free(b.provider, '\n') && Free(b.model, '\n') && Free(EffortText(b), '\n')
  }

  lemma TermTextDetermines(a: Term, b: Term)
    requires Free(a.slot, '|') && Free(a.owner, '|') && Free(b.slot, '|') && Free(b.owner, '|')
    requires TermText(a) == TermText(b)
    ensures a == b
  {
    assert TermText(a) == a.slot + ['|'] + (a.owner + ['|'] + a.version);
    assert TermText(b) == b.slot + ['|'] + (b.owner + ['|'] + b.version);
    FirstPart(a.slot, a.owner + ['|'] + a.version, b.slot, b.owner + ['|'] + b.version, '|');
    FirstPart(a.owner, a.version, b.owner, b.version, '|');
  }

  /** The prefix key determines the ordered (slot, owner, version) sequence, its length included, and
      the tier binding, where a missing effort and an empty one are the same. */
  lemma PrefixTextDetermines(ts: seq<Term>, b: Binding, ts': seq<Term>, b': Binding)
    requires OneLine(ts, b) && OneLine(ts', b') && PrefixText(ts, b) == PrefixText(ts', b')
    ensures ts == ts' && b.provider == b'.provider && b.model == b'.model && EffortText(b) == EffortText(b')
  {
    var xs, xs' := KeyTerms(ts, b), KeyTerms(ts', b');
    JoinDetermines(xs, xs', '\n');
    var n := |ts|;
    assert xs[n] == b.provider && xs[n + 1] == b.model && xs[n + 2] == EffortText(b);
    assert xs'[n] == b'.provider && xs'[n + 1] == b'.model && xs'[n + 2] == EffortText(b');
    forall k | 0 <= k < n ensures ts[k] == ts'[k] {
      assert xs[k] == TermText(ts[k]) && xs'[k] == TermText(ts'[k]);
      TermTextDetermines(ts[k], ts'[k]);
    }
  }
}
