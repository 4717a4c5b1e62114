/** Which envelope slices make it into a prompt (`context/service._fit`, `tokens`). */
module Fitting {
  import opened Sorting

  datatype EnvelopeSlot = D1 | D3 | D4 | D5 | D6
  datatype Slice = Slice(slot: EnvelopeSlot, body: string, provenance: string, priority: int)

  /** A character estimate: four characters to a token, rounded up. */
  function Tokens(body: string): nat { (|body| + 3) / 4 }

  lemma TokensRoundUp(body: string)
    ensures 4 * Tokens(body) - 4 < |body| <= 4 * Tokens(body)
  {
  }

  function Priority(s: Slice): int { s.priority }

  function SlotOrder(s: Slice): int {
    match s.slot
    case D1 => 0
    case D3 => 1
    case D4 => 2
    case D5 => 3
    case D6 => 4
  }

  function Cost(ss: seq<Slice>): nat {
    if ss == [] then 0 else Cost(ss[..|ss| - 1]) + Tokens(ss[|ss| - 1].body)
  }

  // ---- selections ---------------------------------------------------------------------------

  /** The slices a selection keeps, or drops, in order. */
  function Chosen(ss: seq<Slice>, keep: seq<bool>, which: bool): seq<Slice>
    requires |keep| == |ss|
  {
    if ss == [] then [] else
      var n := |ss| - 1;
      var before := Chosen(ss[..n], keep[..n], which);
      if keep[n] == which then before + [ss[n]] else before
  }

  /** A selection fits when it keeps nothing, or keeps what the budget has room for past the prefix. */
  ghost predicate Fits(ss: seq<Slice>, keep: seq<bool>, prefix: nat, budget: int) {
    |keep| == |ss| && (Chosen(ss, keep, true) == [] || prefix + Cost(Chosen(ss, keep, true)) <= budget)
  }

  /** `a` keeps the first slice the two differ on. */
  ghost predicate Above(a: seq<bool>, b: seq<bool>) {
    exists i :: 0 <= i < |a| && i < |b| && a[..i] == b[..i] && a[i] && !b[i]
  }

  /** The greedy selection over slices in the order they are considered. */
  function Greedy(ss: seq<Slice>, prefix: nat, budget: int): (keep: seq<bool>)
    ensures |keep| == |ss|
  {
    if ss == [] then [] else
      var n := |ss| - 1;
      var before := Greedy(ss[..n], prefix, budget);
      before + [prefix + Cost(Chosen(ss[..n], before, true)) + Tokens(ss[n].body) <= budget]
  }

  // ---- what the greedy selection is ---------------------------------------------------------

  lemma CostOfMore(ss: seq<Slice>, s: Slice)
    ensures Cost(ss + [s]) == Cost(ss) + Tokens(s.body)
  {
    assert (ss + [s])[..|ss|] == ss;
  }

  lemma {:induction false} GreedyOfPrefix(ss: seq<Slice>, prefix: nat, budget: int, n: nat)
    requires n <= |ss|
    ensures Greedy(ss, prefix, budget)[..n] == Greedy(ss[..n], prefix, budget)
  {
    if n < |ss| {
      GreedyOfPrefix(ss[..|ss| - 1], prefix, budget, n);
      assert ss[..|ss| - 1][..n] == ss[..n];
      assert Greedy(ss, prefix, budget)[..n] == Greedy(ss[..|ss| - 1], prefix, budget)[..n];
    } else {
      assert ss[..n] == ss;
    }
  }

  /** What is kept costs no more than the budget leaves, or nothing is kept at all. */
  lemma {:induction false} GreedyFits(ss: seq<Slice>, prefix: nat, budget: int)
    ensures Fits(ss, Greedy(ss, prefix, budget), prefix, budget)
  {
    if ss != [] {
      var n := |ss| - 1;
      GreedyFits(ss[..n], prefix, budget);
      var before, keep := Greedy(ss[..n], prefix, budget), Greedy(ss, prefix, budget);
      assert keep[..n] == before;
      CostOfMore(Chosen(ss[..n], before, true), ss[n]);
    }
  }

  lemma {:induction false} ChosenIsCheaper(ss: seq<Slice>, keep: seq<bool>, n: nat)
    requires |keep| == |ss| && n <= |ss|
    ensures Cost(Chosen(ss[..n], keep[..n], true)) <= Cost(Chosen(ss, keep, true))
  {
    if n < |ss| {
      var m := |ss| - 1;
      ChosenIsCheaper(ss[..m], keep[..m], n);
      assert ss[..m][..n] == ss[..n] && keep[..m][..n] == keep[..n];
      CostOfMore(Chosen(ss[..m], keep[..m], true), ss[m]);
    } else {
      assert ss[..n] == ss && keep[..n] == keep;
    }
  }

  /** Why slice `i` was kept or dropped: the room left by what was kept before it. */
  lemma GreedyDecides(ss: seq<Slice>, prefix: nat, budget: int, i: nat)
    requires i < |ss|
    ensures var keep := Greedy(ss, prefix, budget);
            keep[i] <==> prefix + Cost(Chosen(ss[..i], keep[..i], true)) + Tokens(ss[i].body) <= budget
  {
    var keep := Greedy(ss, prefix, budget);
    GreedyOfPrefix(ss, prefix, budget, i);
    GreedyOfPrefix(ss, prefix, budget, i + 1);
    assert ss[..i + 1][..i] == ss[..i];
    assert keep[i] == keep[..i + 1][i];
  }

  /** No dropped slice could be added back to what was kept. */
  lemma NoneFitsBack(ss: seq<Slice>, prefix: nat, budget: int, i: nat)
    requires i < |ss| && !Greedy(ss, prefix, budget)[i]
    ensures prefix + Cost(Chosen(ss, Greedy(ss, prefix, budget), true)) + Tokens(ss[i].body) > budget
  {
    GreedyDecides(ss, prefix, budget, i);
    ChosenIsCheaper(ss, Greedy(ss, prefix, budget), i);
  }

  lemma ChosenKeepsSome(ss: seq<Slice>, keep: seq<bool>, i: nat)
    requires |keep| == |ss| && i < |ss| && keep[i]
    ensures Chosen(ss, keep, true) != []
    ensures Cost(Chosen(ss[..i], keep[..i], true)) + Tokens(ss[i].body) <= Cost(Chosen(ss, keep, true))
  {
    ChosenIsCheaper(ss, keep, i + 1);
    assert ss[..i + 1][..i] == ss[..i] && keep[..i + 1][..i] == keep[..i];
    CostOfMore(Chosen(ss[..i], keep[..i], true), ss[i]);
    SomeStays(ss, keep, i);
  }

  lemma {:induction false} SomeStays(ss: seq<Slice>, keep: seq<bool>, i: nat)
    requires |keep| == |ss| && i < |ss| && keep[i]
    ensures Chosen(ss, keep, true) != []
  {
    if i < |ss| - 1 { SomeStays(ss[..|ss| - 1], keep[..|ss| - 1], i); }
  }

  /** Of all selections that fit, none keeps the first slice on which it differs from the greedy one:
      the greedy selection is lexicographically greatest. */
  lemma GreedyIsGreatest(ss: seq<Slice>, prefix: nat, budget: int, keep: seq<bool>)
    requires Fits(ss, keep, prefix, budget)
    ensures !Above(keep, Greedy(ss, prefix, budget))
    ensures keep == Greedy(ss, prefix, budget) || Above(Greedy(ss, prefix, budget), keep)
  {
    var greedy := Greedy(ss, prefix, budget);
    forall i | 0 <= i < |ss| && keep[..i] == greedy[..i] && keep[i] ensures greedy[i] {
      ChosenKeepsSome(ss, keep, i);
      GreedyDecides(ss, prefix, budget, i);
    }
    if keep != greedy {
      var i := FirstDifference(keep, greedy);
      assert keep[..i] == greedy[..i];
    }
  }

  lemma {:induction false} FirstDifference(a: seq<bool>, b: seq<bool>) returns (i: nat)
    requires |a| == |b| && a != b
    ensures i < |a| && a[..i] == b[..i] && a[i] != b[i]
    decreases |a|
  {
    var n := |a| - 1;
    if a[..n] == b[..n] {
      assert a == a[..n] + [a[n]] && b == b[..n] + [b[n]];
      i := n;
    } else {
      i := FirstDifference(a[..n], b[..n]);
      assert a[..n][..i] == a[..i] && b[..n][..i] == b[..i];
    }
  }

  lemma {:induction false} ChosenSplits(ss: seq<Slice>, keep: seq<bool>)
    requires |keep| == |ss|
    ensures multiset(Chosen(ss, keep, true)) + multiset(Chosen(ss, keep, false)) == multiset(ss)
  {
    if ss != [] {
      var n := |ss| - 1;
      ChosenSplits(ss[..n], keep[..n]);
      assert ss == ss[..n] + [ss[n]];
    }
  }

  // ---- the loop -----------------------------------------------------------------------------

  /** The greedy split in priority order, what is kept put back in slot order. */
  ghost predicate FitOf(slices: seq<Slice>, prefix: nat, budget: int, kept: seq<Slice>, dropped: seq<Slice>) {
    var ss := Sorted(slices, Priority);
    var keep := Greedy(ss, prefix, budget);
    kept == Sorted(Chosen(ss, keep, true), SlotOrder) && dropped == Chosen(ss, keep, false)
  }

  method Fit(slices: seq<Slice>, prefix: nat, budget: int) returns (kept: seq<Slice>, dropped: seq<Slice>)
    ensures FitOf(slices, prefix, budget, kept, dropped)
  {
    var considered := Sorted(slices, Priority);
    var keeping: seq<Slice> := [];
    dropped := [];
    var total := prefix;
    for i := 0 to |considered|
      invariant keeping == Chosen(considered[..i], Greedy(considered[..i], prefix, budget), true)
      invariant dropped == Chosen(considered[..i], Greedy(considered[..i], prefix, budget), false)
      invariant total == prefix + Cost(keeping)
    {
      var contribution := considered[i];
      assert considered[..i + 1][..i] == considered[..i];
      assert Greedy(considered[..i + 1], prefix, budget)[..i] == Greedy(considered[..i], prefix, budget);
      CostOfMore(keeping, contribution);
      var cost := Tokens(contribution.body);
      if total + cost > budget {
        dropped := dropped + [contribution];
      } else {
        keeping := keeping + [contribution];
        total := total + cost;
      }
    }
    assert considered[..|considered|] == considered;
    kept := Sorted(keeping, SlotOrder);
  }

  // ---- what the prompt gets -----------------------------------------------------------------

  lemma {:induction false} CostIsOfContents(xs: seq<Slice>, ys: seq<Slice>)
    requires multiset(xs) == multiset(ys)
    ensures Cost(xs) == Cost(ys)
    decreases |xs|
  {
    EmptyTogether(xs, ys);
    if xs != [] {
      var x := xs[|xs| - 1];
      WithoutLast(xs);
      assert x in multiset(ys);
      var i :| 0 <= i < |ys| && ys[i] == x;
      var rest := ys[..i] + ys[i + 1..];
      CostWithout(ys, i);
      assert ys == ys[..i] + [x] + ys[i + 1..];
      assert multiset(rest) == multiset(ys) - multiset{x};
      CostIsOfContents(xs[..|xs| - 1], rest);
    }
  }

  lemma {:induction false} CostWithout(ys: seq<Slice>, i: nat)
    requires i < |ys|
    ensures Cost(ys) == Cost(ys[..i] + ys[i + 1..]) + Tokens(ys[i].body)
  {
    var n := |ys| - 1;
    if i == n {
      assert ys[..i] + ys[i + 1..] == ys[..n];
    } else {
      CostWithout(ys[..n], i);
      assert ys[..i] + ys[i + 1..] == (ys[..n][..i] + ys[..n][i + 1..]) + [ys[n]];
      CostOfMore(ys[..n][..i] + ys[..n][i + 1..], ys[n]);
    }
  }

  /** The order of the envelope: D1, D3, D4, D5, D6. */
  predicate NoLaterThan(a: EnvelopeSlot, b: EnvelopeSlot) {
    match a
    case D1 => true
    case D3 => b != D1
    case D4 => b != D1 && b != D3
    case D5 => b == D5 || b == D6
    case D6 => b == D6
  }

  lemma SlotsInOrder(slices: seq<Slice>, prefix: nat, budget: int, kept: seq<Slice>, dropped: seq<Slice>)
    requires FitOf(slices, prefix, budget, kept, dropped)
    ensures forall i, j :: 0 <= i < j < |kept| ==> NoLaterThan(kept[i].slot, kept[j].slot)
  {
    SortedSorts(Chosen(Sorted(slices, Priority), Greedy(Sorted(slices, Priority), prefix, budget), true), SlotOrder);
    forall i, j | 0 <= i < j < |kept| ensures NoLaterThan(kept[i].slot, kept[j].slot) {
      assert SlotOrder(kept[i]) <= SlotOrder(kept[j]);
    }
  }

  /** The slices are split exactly into kept and dropped; prefix and kept together cost no more than the
      budget, or than the prefix alone when that is already more; nothing dropped would still fit; and
      what is kept comes out in slot order. */
  lemma FitIsSound(slices: seq<Slice>, prefix: nat, budget: int, kept: seq<Slice>, dropped: seq<Slice>)
    requires FitOf(slices, prefix, budget, kept, dropped)
    ensures multiset(kept) + multiset(dropped) == multiset(slices)
    ensures prefix + Cost(kept) <= if budget > prefix then budget else prefix
    ensures forall s :: s in dropped ==> prefix + Cost(kept) + Tokens(s.body) > budget
    ensures forall i, j :: 0 <= i < j < |kept| ==> NoLaterThan(kept[i].slot, kept[j].slot)
  {
    SlotsInOrder(slices, prefix, budget, kept, dropped);
    var ss := Sorted(slices, Priority);
    var keep := Greedy(ss, prefix, budget);
    var chosen := Chosen(ss, keep, true);
    SortedSorts(slices, Priority);
    SortedSorts(chosen, SlotOrder);
    ChosenSplits(ss, keep);
    GreedyFits(ss, prefix, budget);
    CostIsOfContents(kept, chosen);
    forall s | s in dropped ensures prefix + Cost(kept) + Tokens(s.body) > budget {
      var i := DroppedFrom(ss, keep, s);
      NoneFitsBack(ss, prefix, budget, i);
    }
  }

  // ---- urgency ------------------------------------------------------------------------------

  /** What the slices at least as urgent as `p` cost. */
  function CostUpTo(ss: seq<Slice>, p: int): nat {
    if ss == [] then 0 else
      var last := ss[|ss| - 1];
      CostUpTo(ss[..|ss| - 1], p) + if last.priority <= p then Tokens(last.body) else 0
  }

  lemma CostUpToMore(ss: seq<Slice>, s: Slice, p: int)
    ensures CostUpTo(ss + [s], p) == CostUpTo(ss, p) + if s.priority <= p then Tokens(s.body) else 0
  {
    assert (ss + [s])[..|ss|] == ss;
  }

  lemma {:induction false} CostUpToWithout(ys: seq<Slice>, i: nat, p: int)
    requires i < |ys|
    ensures CostUpTo(ys, p) == CostUpTo(ys[..i] + ys[i + 1..], p) + if ys[i].priority <= p then Tokens(ys[i].body) else 0
  {
    var n := |ys| - 1;
    if i == n {
      assert ys[..i] + ys[i + 1..] == ys[..n];
    } else {
      CostUpToWithout(ys[..n], i, p);
      assert ys[..i] + ys[i + 1..] == (ys[..n][..i] + ys[..n][i + 1..]) + [ys[n]];
      CostUpToMore(ys[..n][..i] + ys[..n][i + 1..], ys[n], p);
    }
  }

  lemma {:induction false} CostUpToIsOfContents(xs: seq<Slice>, ys: seq<Slice>, p: int)
    requires multiset(xs) == multiset(ys)
    ensures CostUpTo(xs, p) == CostUpTo(ys, p)
    decreases |xs|
  {
    EmptyTogether(xs, ys);
    if xs != [] {
      var x := xs[|xs| - 1];
      WithoutLast(xs);
      assert x in multiset(ys);
      var i :| 0 <= i < |ys| && ys[i] == x;
      CostUpToWithout(ys, i, p);
      assert ys == ys[..i] + [x] + ys[i + 1..];
      assert multiset(ys[..i] + ys[i + 1..]) == multiset(ys) - multiset{x};
      CostUpToIsOfContents(xs[..|xs| - 1], ys[..i] + ys[i + 1..], p);
    }
  }

  lemma {:induction false} ChosenUpTo(ss: seq<Slice>, keep: seq<bool>, n: nat, p: int)
    requires |keep| == |ss| && n <= |ss| && forall k :: 0 <= k < n ==> ss[k].priority <= p
    ensures Cost(Chosen(ss[..n], keep[..n], true)) <= CostUpTo(Chosen(ss, keep, true), p)
  {
    if ss == [] {
      assert ss[..n] == [];
    } else {
      var m := |ss| - 1;
      if n < |ss| {
        ChosenUpTo(ss[..m], keep[..m], n, p);
        assert ss[..m][..n] == ss[..n] && keep[..m][..n] == keep[..n];
      } else {
        ChosenUpTo(ss[..m], keep[..m], m, p);
        assert ss[..n] == ss && keep[..n] == keep && ss[..m][..m] == ss[..m] && keep[..m][..m] == keep[..m];
        CostOfMore(Chosen(ss[..m], keep[..m], true), ss[m]);
      }
      CostUpToMore(Chosen(ss[..m], keep[..m], true), ss[m], p);
    }
  }

  /** A slice is dropped only for slices at least as urgent as itself: with those that were kept, and the
      prefix, it would not have fitted. */
  lemma UrgentSlicesComeFirst(slices: seq<Slice>, prefix: nat, budget: int, kept: seq<Slice>, dropped: seq<Slice>, s: Slice)
    requires FitOf(slices, prefix, budget, kept, dropped) && s in dropped
    ensures prefix + CostUpTo(kept, s.priority) + Tokens(s.body) > budget
  {
    var ss := Sorted(slices, Priority);
    var keep := Greedy(ss, prefix, budget);
    SortedSorts(slices, Priority);
    SortedSorts(Chosen(ss, keep, true), SlotOrder);
    CostUpToIsOfContents(kept, Chosen(ss, keep, true), s.priority);
    var i := DroppedFrom(ss, keep, s);
    GreedyDecides(ss, prefix, budget, i);
    forall k | 0 <= k < i ensures ss[k].priority <= s.priority {
      assert Priority(ss[k]) <= Priority(ss[i]);
    }
    ChosenUpTo(ss, keep, i, s.priority);
  }

  lemma {:induction false} DroppedFrom(ss: seq<Slice>, keep: seq<bool>, s: Slice) returns (i: nat)
    requires |keep| == |ss| && s in Chosen(ss, keep, false)
    ensures i < |ss| && ss[i] == s && !keep[i]
  {
    var n := |ss| - 1;
    if !keep[n] && ss[n] == s {
      i := n;
    } else {
      i := DroppedFrom(ss[..n], keep[..n], s);
    }
  }

  /** With the run's cap as the budget, as a step assembles, the whole prompt is within the cap exactly
      when the prefix is: the envelope never costs a run its first call. */
  lemma PromptFitsIffPrefixDoes(slices: seq<Slice>, prefix: nat, cap: nat, kept: seq<Slice>, dropped: seq<Slice>)
    requires FitOf(slices, prefix, cap, kept, dropped)
    ensures prefix + Cost(kept) <= cap <==> prefix <= cap
  {
    FitIsSound(slices, prefix, cap, kept, dropped);
  }
}
