/** Who may put a layer where in the prefix (`context/service._prefix`, `_claim`, `_prefix_key`). */
module Prefixes {
  import opened Tables
  import opened Sorting
  import opened Fitting
  import Keys

  datatype Slot = L0 | L1 | L2 | L3 | L4 | L5 | L6
  datatype Layer = Layer(slot: Slot, version: string, body: string)
  datatype PrefixLayer = PrefixLayer(slot: Slot, owner: string, version: string, body: string)

  /** A registered contributor, with what it returned for this turn. */
  datatype Contributor = Contributor(owner: string, declared: seq<Slot>, layers: seq<Layer>)

  const KERNEL := "kernel"

  function Rank(slot: Slot): int {
    match slot
    case L0 => 0
    case L1 => 1
    case L2 => 2
    case L3 => 3
    case L4 => 4
    case L5 => 5
    case L6 => 6
  }

  function Order(layer: PrefixLayer): int { Rank(layer.slot) }

  // ---- claiming a slot ----------------------------------------------------------------------

  datatype Fault =
    | Undeclared(owner: string, slot: Slot)
    | Taken(slot: Slot, holder: string, owner: string)
    | Twice(owner: string, slot: Slot)

  function Claim(seen: map<Slot, string>, slot: Slot, owner: string, declared: seq<Slot>): (fault: Option<Fault>)
    ensures fault == None <==> slot in declared && slot !in seen
  {
    if slot !in declared then Some(Undeclared(owner, slot))
    else if slot in seen && seen[slot] != owner then Some(Taken(slot, seen[slot], owner))
    else if slot in seen then Some(Twice(owner, slot))
    else None
  }

  // ---- what contributors offer --------------------------------------------------------------

  /** A layer as its contributor offers it, and whether it declared the slot. */
  datatype Offer = Offer(layer: PrefixLayer, declared: bool)

  function OfferOf(c: Contributor, layer: Layer): Offer {
    Offer(PrefixLayer(layer.slot, c.owner, layer.version, layer.body), layer.slot in c.declared)
  }

  function OffersOf(c: Contributor): seq<Offer> {
    seq(|c.layers|, k requires 0 <= k < |c.layers| => OfferOf(c, c.layers[k]))
  }

  /** What each of `xs` gives, one after the other. */
  function Flat<T, U>(give: T -> seq<U>, xs: seq<T>): seq<U> {
    if xs == [] then [] else Flat(give, xs[..|xs| - 1]) + give(xs[|xs| - 1])
  }

  function Offers(cs: seq<Contributor>): seq<Offer> {
    Flat(OffersOf, cs)
  }

  function OfferOrder(o: Offer): int { Rank(o.layer.slot) }

  function Layers(os: seq<Offer>): seq<PrefixLayer> {
    seq(|os|, k requires 0 <= k < |os| => os[k].layer)
  }

  /** Each offered slot is one its contributor declared, no two offers share one, and none is the
      kernel's. */
  ghost predicate Acceptable(os: seq<Offer>) {
    && (forall k :: 0 <= k < |os| ==> os[k].declared && os[k].layer.slot !in {L0, L5})
    && Distinct(os, OfferOrder)
  }

  /** Why the `k`-th offer was the first that could not be taken: its contributor never declared the slot, or
      the slot was already held, by another or by itself. */
  ghost predicate FirstFault(policy: PrefixLayer, tools: PrefixLayer, os: seq<Offer>, k: int, fault: Fault) {
    && 0 <= k < |os| && Acceptable(os[..k])
    && var layer, held := os[k].layer, [policy, tools] + Layers(os[..k]);
       match fault
       case Undeclared(owner, slot) => !os[k].declared && owner == layer.owner && slot == layer.slot
       case Taken(slot, holder, owner) =>
         && os[k].declared && owner == layer.owner && slot == layer.slot && holder != owner
         && exists j :: 0 <= j < |held| && held[j].slot == slot && held[j].owner == holder
       case Twice(owner, slot) =>
         && os[k].declared && owner == layer.owner && slot == layer.slot
         && exists j :: 0 <= j < |held| && held[j].slot == slot && held[j].owner == owner
  }

  predicate IsKernels(policy: PrefixLayer, tools: PrefixLayer) {
    policy.slot == L0 && policy.owner == KERNEL && tools.slot == L5 && tools.owner == KERNEL
  }

  // ---- assembly -----------------------------------------------------------------------------

  datatype Assembly = Prefix(layers: seq<PrefixLayer>) | Refused(fault: Fault)

  ghost predicate SeenIn(seen: map<Slot, string>, layers: seq<PrefixLayer>) {
    && (forall k :: 0 <= k < |layers| ==> layers[k].slot in seen && seen[layers[k].slot] == layers[k].owner)
    && (forall slot :: slot in seen ==> exists k :: 0 <= k < |layers| && layers[k].slot == slot)
  }

  lemma RefusedOffer(os: seq<Offer>, rest: seq<Offer>, seen: map<Slot, string>, policy: PrefixLayer, tools: PrefixLayer, bad: Offer)
    requires IsKernels(policy, tools) && SeenIn(seen, [policy, tools] + Layers(os))
    requires !bad.declared || bad.layer.slot in seen
    ensures !Acceptable(os + [bad] + rest)
  {
    var all := os + [bad] + rest;
    assert all[|os|] == bad;
    if bad.declared && bad.layer.slot !in {L0, L5} {
      var kernel := [policy, tools];
      var k :| 0 <= k < |kernel + Layers(os)| && (kernel + Layers(os))[k].slot == bad.layer.slot;
      assert k >= 2 && os[k - 2].layer.slot == bad.layer.slot;
      assert all[k - 2] == os[k - 2];
    }
  }

  lemma FaultIsFirst(os: seq<Offer>, rest: seq<Offer>, seen: map<Slot, string>, policy: PrefixLayer, tools: PrefixLayer,
                     bad: Offer, fault: Fault)
    requires SeenIn(seen, [policy, tools] + Layers(os)) && Acceptable(os)
    requires if !bad.declared then fault == Undeclared(bad.layer.owner, bad.layer.slot)
             else bad.layer.slot in seen
                  && fault == if seen[bad.layer.slot] != bad.layer.owner
                              then Taken(bad.layer.slot, seen[bad.layer.slot], bad.layer.owner)
                              else Twice(bad.layer.owner, bad.layer.slot)
    ensures FirstFault(policy, tools, os + [bad] + rest, |os|, fault)
  {
    var all, held := os + [bad] + rest, [policy, tools] + Layers(os);
    assert all[|os|] == bad && all[..|os|] == os;
    if bad.declared {
      var j :| 0 <= j < |held| && held[j].slot == bad.layer.slot;
      assert held[j].owner == seen[bad.layer.slot];
    }
  }

  lemma SeenOneMore(seen: map<Slot, string>, layers: seq<PrefixLayer>, layer: PrefixLayer)
    requires SeenIn(seen, layers) && layer.slot !in seen
    ensures SeenIn(seen[layer.slot := layer.owner], layers + [layer])
  {
    var seen', layers' := seen[layer.slot := layer.owner], layers + [layer];
    forall slot | slot in seen' ensures exists k :: 0 <= k < |layers'| && layers'[k].slot == slot {
      if slot in seen {
        var k :| 0 <= k < |layers| && layers[k].slot == slot;
        assert layers'[k].slot == slot;
      } else {
        assert layers'[|layers|].slot == slot;
      }
    }
  }

  lemma AcceptedOffer(os: seq<Offer>, seen: map<Slot, string>, policy: PrefixLayer, tools: PrefixLayer, next: Offer)
    requires IsKernels(policy, tools) && SeenIn(seen, [policy, tools] + Layers(os)) && Acceptable(os)
    requires next.declared && next.layer.slot !in seen
    ensures Acceptable(os + [next])
    ensures [policy, tools] + Layers(os + [next]) == [policy, tools] + Layers(os) + [next.layer]
  {
    var layers := [policy, tools] + Layers(os);
    assert layers[0].slot in seen && layers[1].slot in seen;
    forall k | 0 <= k < |os| ensures OfferOrder(os[k]) != OfferOrder(next) {
      assert layers[k + 2].slot == os[k].layer.slot;
      RankDetermines(os[k].layer.slot, next.layer.slot);
    }
  }

  lemma RankDetermines(a: Slot, b: Slot)
    ensures Rank(a) == Rank(b) <==> a == b
  {
  }

  /** The nested loop: contributors in registration order, each layer claiming its slot or failing the
      whole assembly. */
  method Assemble(policy: PrefixLayer, tools: PrefixLayer, cs: seq<Contributor>) returns (r: Assembly)
    requires IsKernels(policy, tools)
    ensures r.Prefix? <==> Acceptable(Offers(cs))
    ensures r.Prefix? ==> r.layers == Sorted([policy, tools] + Layers(Offers(cs)), Order)
    ensures r.Refused? ==> exists k :: FirstFault(policy, tools, Offers(cs), k, r.fault)
  {
    var layers := [policy, tools];
    var seen := map[policy.slot := policy.owner, tools.slot := tools.owner];
    ghost var os: seq<Offer> := [];
    assert layers == [policy, tools] + Layers(os);
    assert SeenIn(seen, layers) by { assert layers[0].slot == L0 && layers[1].slot == L5; }
    for i := 0 to |cs|
      invariant os == Offers(cs[..i]) && layers == [policy, tools] + Layers(os)
      invariant SeenIn(seen, layers) && Acceptable(os)
    {
      var c := cs[i];
      ghost var before := os;
      for j := 0 to |c.layers|
        invariant os == before + OffersOf(c)[..j] && layers == [policy, tools] + Layers(os)
        invariant SeenIn(seen, layers) && Acceptable(os)
      {
        var layer := c.layers[j];
        ghost var next := OfferOf(c, layer);
        var fault := Claim(seen, layer.slot, c.owner, c.declared);
        if fault.Some? {
          ghost var rest := OffersFrom(cs, i, j);
          RefusedOffer(os, rest, seen, policy, tools, next);
          FaultIsFirst(os, rest, seen, policy, tools, next, fault.value);
          return Refused(fault.value);
        }
        AcceptedOffer(os, seen, policy, tools, next);
        SeenOneMore(seen, layers, next.layer);
        assert OffersOf(c)[..j + 1] == OffersOf(c)[..j] + [next];
        seen := seen[layer.slot := c.owner];
        layers := layers + [PrefixLayer(layer.slot, c.owner, layer.version, layer.body)];
        os := os + [next];
      }
      assert OffersOf(c)[..|c.layers|] == OffersOf(c);
      assert cs[..i + 1][..i] == cs[..i];
    }
    assert cs[..|cs|] == cs;
    r := Prefix(Sorted(layers, Order));
  }

  /** Offers past the `j`-th of contributor `i`. */
  lemma {:induction false} OffersFrom(cs: seq<Contributor>, i: nat, j: nat) returns (rest: seq<Offer>)
    requires i < |cs| && j < |cs[i].layers|
    ensures Offers(cs) == Offers(cs[..i]) + OffersOf(cs[i])[..j] + [OfferOf(cs[i], cs[i].layers[j])] + rest
    decreases |cs|
  {
    var n := |cs| - 1;
    if i == n {
      rest := OffersOf(cs[i])[j + 1..];
      assert OffersOf(cs[i]) == OffersOf(cs[i])[..j] + [OffersOf(cs[i])[j]] + rest;
    } else {
      var more := OffersFrom(cs[..n], i, j);
      assert cs[..n][..i] == cs[..i];
      rest := more + OffersOf(cs[n]);
    }
  }

  // ---- what an accepted prefix is -----------------------------------------------------------

  lemma KernelAndOffersDiffer(policy: PrefixLayer, tools: PrefixLayer, os: seq<Offer>)
    requires IsKernels(policy, tools) && Acceptable(os)
    ensures Distinct([policy, tools] + Layers(os), Order)
  {
    var all := [policy, tools] + Layers(os);
    assert forall k :: 2 <= k < |all| ==> all[k] == os[k - 2].layer;
  }

  /** An accepted prefix holds exactly one layer a slot, in L0..L6 order. */
  lemma PrefixIsInOrder(policy: PrefixLayer, tools: PrefixLayer, cs: seq<Contributor>)
    requires IsKernels(policy, tools) && Acceptable(Offers(cs))
    ensures var prefix := Sorted([policy, tools] + Layers(Offers(cs)), Order);
            && (forall i, j :: 0 <= i < j < |prefix| ==> SlotText(prefix[i].slot)[1] < SlotText(prefix[j].slot)[1])
            && multiset(prefix) == multiset([policy, tools] + Layers(Offers(cs)))
  {
    var prefix := Sorted([policy, tools] + Layers(Offers(cs)), Order);
    KernelAndOffersDiffer(policy, tools, Offers(cs));
    SortedStrictly([policy, tools] + Layers(Offers(cs)), Order);
    SortedSorts([policy, tools] + Layers(Offers(cs)), Order);
    forall i, j | 0 <= i < j < |prefix| ensures SlotText(prefix[i].slot)[1] < SlotText(prefix[j].slot)[1] {
      assert Order(prefix[i]) < Order(prefix[j]);
      SlotsAreLettered(prefix[i].slot, prefix[j].slot);
    }
  }

  lemma SlotsAreLettered(a: Slot, b: Slot)
    ensures Rank(a) < Rank(b) <==> SlotText(a)[1] < SlotText(b)[1]
  {
  }

  // ---- registration order does not matter ---------------------------------------------------

  lemma {:induction false} FlatSplit<T, U>(give: T -> seq<U>, xs: seq<T>, ys: seq<T>)
    ensures Flat(give, xs + ys) == Flat(give, xs) + Flat(give, ys)
  {
    if ys == [] {
      assert xs + ys == xs;
    } else {
      FlatSplit(give, xs, ys[..|ys| - 1]);
      assert (xs + ys)[..|xs + ys| - 1] == xs + ys[..|ys| - 1];
    }
  }

  lemma FlatOne<T, U>(give: T -> seq<U>, x: T)
    ensures Flat(give, [x]) == give(x)
  {
    assert [x][..0] == [];
  }

  lemma FlatThree<T, U>(give: T -> seq<U>, before: seq<T>, x: T, after: seq<T>)
    ensures Flat(give, before + ([x] + after)) == Flat(give, before) + (give(x) + Flat(give, after))
  {
    FlatSplit(give, before, [x] + after);
    FlatSplit(give, [x], after);
    FlatOne(give, x);
  }

  lemma FlatAround<T, U>(give: T -> seq<U>, xs: seq<T>, i: nat)
    requires i < |xs|
    ensures Flat(give, xs) == Flat(give, xs[..i]) + (give(xs[i]) + Flat(give, xs[i + 1..]))
  {
    SplitAround(xs, i);
    FlatThree(give, xs[..i], xs[i], xs[i + 1..]);
  }

  lemma SplitAround<T>(xs: seq<T>, i: nat)
    requires i < |xs|
    ensures xs == xs[..i] + ([xs[i]] + xs[i + 1..])
  {
  }

  lemma MiddleOut<U>(a: seq<U>, b: seq<U>, c: seq<U>)
    ensures multiset(a + (b + c)) == multiset(a + c) + multiset(b)
  {
  }

  lemma FlatWithout<T, U>(give: T -> seq<U>, xs: seq<T>, i: nat)
    requires i < |xs|
    ensures multiset(Flat(give, xs)) == multiset(Flat(give, xs[..i] + xs[i + 1..])) + multiset(give(xs[i]))
  {
    FlatAround(give, xs, i);
    FlatSplit(give, xs[..i], xs[i + 1..]);
    MiddleOut(Flat(give, xs[..i]), give(xs[i]), Flat(give, xs[i + 1..]));
  }

  lemma RemoveOne<T>(xs: seq<T>, i: nat)
    requires i < |xs|
    ensures multiset(xs[..i] + xs[i + 1..]) == multiset(xs) - multiset{xs[i]}
  {
    assert xs == xs[..i] + [xs[i]] + xs[i + 1..];
  }

  lemma Matching<T>(xs: seq<T>, ys: seq<T>) returns (i: nat)
    requires multiset(xs) == multiset(ys) && xs != []
    ensures i < |ys| && ys[i] == xs[|xs| - 1]
    ensures multiset(ys[..i] + ys[i + 1..]) == multiset(xs[..|xs| - 1])
  {
    WithoutLast(xs);
    assert xs[|xs| - 1] in multiset(ys);
    i :| 0 <= i < |ys| && ys[i] == xs[|xs| - 1];
    RemoveOne(ys, i);
  }

  lemma {:induction false} FlatPermutes<T, U>(give: T -> seq<U>, xs: seq<T>, ys: seq<T>)
    requires multiset(xs) == multiset(ys)
    ensures multiset(Flat(give, xs)) == multiset(Flat(give, ys))
    decreases |xs|
  {
    EmptyTogether(xs, ys);
    if xs != [] {
      var i := Matching(xs, ys);
      FlatPermutes(give, xs[..|xs| - 1], ys[..i] + ys[i + 1..]);
      FlatWithout(give, ys, i);
      BothEnds(Flat(give, xs[..|xs| - 1]), give(xs[|xs| - 1]));
    }
  }

  lemma BothEnds<T>(all: seq<T>, one: seq<T>)
    ensures multiset(all + one) == multiset(all) + multiset(one)
  {
  }

  lemma {:induction false} OccursTwice<T>(xs: seq<T>, v: T) returns (i: nat, j: nat)
    requires multiset(xs)[v] >= 2
    ensures i < j < |xs| && xs[i] == v && xs[j] == v
  {
    var n := |xs| - 1;
    assert xs == xs[..n] + [xs[n]];
    if xs[n] == v {
      assert v in multiset(xs[..n]);
      i :| 0 <= i < n && xs[..n][i] == v;
      j := n;
    } else {
      i, j := OccursTwice(xs[..n], v);
    }
  }

  lemma TwoOfThem<T>(xs: seq<T>, i: nat, j: nat)
    requires i < j < |xs| && xs[i] == xs[j]
    ensures multiset(xs)[xs[i]] >= 2
  {
    assert xs == xs[..i] + [xs[i]] + xs[i + 1..j] + [xs[j]] + xs[j + 1..];
  }

  lemma DistinctPermutes<T>(xs: seq<T>, ys: seq<T>, key: T -> int)
    requires multiset(xs) == multiset(ys) && Distinct(xs, key)
    ensures Distinct(ys, key)
  {
    forall i, j | 0 <= i < j < |ys| ensures key(ys[i]) != key(ys[j]) {
      if ys[i] == ys[j] {
        TwoOfThem(ys, i, j);
        var a, b := OccursTwice(xs, ys[i]);
        assert false;
      } else {
        assert ys[i] in multiset(xs) && ys[j] in multiset(xs);
        var a :| 0 <= a < |xs| && xs[a] == ys[i];
        var b :| 0 <= b < |xs| && xs[b] == ys[j];
      }
    }
  }

  lemma AcceptancePermutes(os: seq<Offer>, ps: seq<Offer>)
    requires multiset(os) == multiset(ps) && Acceptable(os)
    ensures Acceptable(ps)
  {
    DistinctPermutes(os, ps, OfferOrder);
    forall k | 0 <= k < |ps| ensures ps[k].declared && ps[k].layer.slot !in {L0, L5} {
      assert ps[k] in multiset(os);
    }
  }

  function LayerOf(o: Offer): seq<PrefixLayer> { [o.layer] }

  lemma {:induction false} LayersAreFlat(os: seq<Offer>)
    ensures Layers(os) == Flat(LayerOf, os)
  {
    if os != [] {
      LayersAreFlat(os[..|os| - 1]);
      assert Layers(os) == Layers(os[..|os| - 1]) + LayerOf(os[|os| - 1]);
    }
  }

  lemma LayersPermute(os: seq<Offer>, ps: seq<Offer>)
    requires multiset(os) == multiset(ps)
    ensures multiset(Layers(os)) == multiset(Layers(ps))
  {
    FlatPermutes(LayerOf, os, ps);
    LayersAreFlat(os);
    LayersAreFlat(ps);
  }

  function SlotText(slot: Slot): string {
    match slot
    case L0 => "L0"
    case L1 => "L1"
    case L2 => "L2"
    case L3 => "L3"
    case L4 => "L4"
    case L5 => "L5"
    case L6 => "L6"
  }

  function Terms(layers: seq<PrefixLayer>): seq<Keys.Term> {
    seq(|layers|, k requires 0 <= k < |layers| => Keys.Term(SlotText(layers[k].slot), layers[k].owner, layers[k].version))
  }

  /** Whatever order the contributors were registered in: the same assembly is accepted, the same
      prefix comes out, and so the same string is hashed into its key. */
  lemma RegistrationOrderIsForgotten(policy: PrefixLayer, tools: PrefixLayer, cs: seq<Contributor>, ds: seq<Contributor>,
                                     bound: Keys.Binding)
    requires IsKernels(policy, tools) && multiset(cs) == multiset(ds)
    ensures Acceptable(Offers(cs)) <==> Acceptable(Offers(ds))
    ensures Acceptable(Offers(cs)) ==>
              var xs, ys := [policy, tools] + Layers(Offers(cs)), [policy, tools] + Layers(Offers(ds));
              Sorted(xs, Order) == Sorted(ys, Order)
              && Keys.PrefixText(Terms(Sorted(xs, Order)), bound) == Keys.PrefixText(Terms(Sorted(ys, Order)), bound)
  {
    FlatPermutes(OffersOf, cs, ds);
    if Acceptable(Offers(cs)) { AcceptancePermutes(Offers(cs), Offers(ds)); }
    if Acceptable(Offers(ds)) { AcceptancePermutes(Offers(ds), Offers(cs)); }
    if Acceptable(Offers(cs)) {
      LayersPermute(Offers(cs), Offers(ds));
      KernelAndOffersDiffer(policy, tools, Offers(cs));
      KernelAndOffersDiffer(policy, tools, Offers(ds));
      SortedForgetsOrder([policy, tools] + Layers(Offers(cs)), [policy, tools] + Layers(Offers(ds)), Order);
    }
  }

  /** Two accepted prefixes hash the same string only if they hold the same slots, from the same owners,
      at the same versions, in the same order, under the same binding. */
  lemma PrefixKeysTellApart(xs: seq<PrefixLayer>, b: Keys.Binding, ys: seq<PrefixLayer>, b': Keys.Binding)
    requires Keys.OneLine(Terms(xs), b) && Keys.OneLine(Terms(ys), b')
    requires Keys.PrefixText(Terms(xs), b) == Keys.PrefixText(Terms(ys), b')
    ensures |xs| == |ys| && b.provider == b'.provider && b.model == b'.model && Keys.EffortText(b) == Keys.EffortText(b')
    ensures forall k :: 0 <= k < |xs| ==>
              xs[k].slot == ys[k].slot && xs[k].owner == ys[k].owner && xs[k].version == ys[k].version
  {
    Keys.PrefixTextDetermines(Terms(xs), b, Terms(ys), b');
    forall k | 0 <= k < |xs|
      ensures xs[k].slot == ys[k].slot && xs[k].owner == ys[k].owner && xs[k].version == ys[k].version
    {
      assert Terms(xs)[k] == Terms(ys)[k];
      SlotTextDetermines(xs[k].slot, ys[k].slot);
    }
  }

  lemma SlotTextDetermines(a: Slot, b: Slot)
    requires SlotText(a) == SlotText(b)
    ensures a == b
  {
    assert SlotText(a)[1] == SlotText(b)[1];
  }

  // ---- every prompt costs something ---------------------------------------------------------

  function PrefixCost(layers: seq<PrefixLayer>): nat {
    if layers == [] then 0 else PrefixCost(layers[..|layers| - 1]) + Tokens(layers[|layers| - 1].body)
  }

  lemma {:induction false} LayerCosts(layers: seq<PrefixLayer>, i: nat)
    requires i < |layers|
    ensures PrefixCost(layers) >= Tokens(layers[i].body)
  {
    if i < |layers| - 1 { LayerCosts(layers[..|layers| - 1], i); }
  }

  /** With a platform policy that says anything at all, no prompt is free: the estimate a step is held
      to is positive. */
  lemma EveryPromptCosts(policy: PrefixLayer, tools: PrefixLayer, cs: seq<Contributor>)
    requires IsKernels(policy, tools) && Acceptable(Offers(cs)) && policy.body != ""
    ensures PrefixCost(Sorted([policy, tools] + Layers(Offers(cs)), Order)) > 0
  {
    var all := [policy, tools] + Layers(Offers(cs));
    PrefixIsInOrder(policy, tools, cs);
    assert all[0] == policy;
    assert policy in multiset(Sorted(all, Order));
    var i :| 0 <= i < |Sorted(all, Order)| && Sorted(all, Order)[i] == policy;
    LayerCosts(Sorted(all, Order), i);
  }
}
