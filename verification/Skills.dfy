/** Activating a skill version, an operation that is its own compensator (`modules/skills/service.py`). */
module Skills {
  import opened Tables

  datatype ExecutionMode = Inline | Delegated
  datatype SkillVersion = SkillVersion(mode: ExecutionMode, operations: seq<string>, stage: Stage)
  type Versions = map<string, SkillVersion>

  /** The arguments of one activation; what it returns has the same shape, with the stage it replaced. */
  datatype Activation = Activation(version: string, stage: Stage)

  /** ADR-0013: an inline skill declares no operations. */
  predicate MayActivate(v: SkillVersion) {
    v.mode == Inline ==> v.operations == []
  }

  datatype Activated = Moved(versions: Versions, replaced: Activation) | Missing | InlineWithOperations

  function Activate(vs: Versions, a: Activation): Activated {
    if a.version !in vs then Missing
    else if !MayActivate(vs[a.version]) then InlineWithOperations
    else Moved(vs[a.version := vs[a.version].(stage := a.stage)], Activation(a.version, vs[a.version].stage))
  }

  /** The table, and the operation as it runs: look the row up, check it, swap its stage. */
  class SkillTable {
    var versions: Versions

    constructor (versions: Versions)
      ensures this.versions == versions
    {
      this.versions := versions;
    }

    /** `None` is an exception: no such version, or an inline one that declares operations. */
    method ActivateVersion(a: Activation) returns (replaced: Option<Activation>)
      modifies this
      ensures match Activate(old(versions), a)
              case Moved(vs, r) => versions == vs && replaced == Some(r)
              case _ => versions == old(versions) && replaced == None
      ensures replaced.Some? <==>
                && a.version in old(versions)
                && (old(versions)[a.version].mode == Inline ==> old(versions)[a.version].operations == [])
      ensures versions.Keys == old(versions).Keys
      ensures forall v :: v in versions ==>
                versions[v] == if replaced.Some? && v == a.version then old(versions)[v].(stage := a.stage) else old(versions)[v]
      ensures replaced.Some? ==> replaced == Some(Activation(a.version, old(versions)[a.version].stage))
    {
      if a.version !in versions { return None; }
      var version := versions[a.version];
      if version.mode == Inline && version.operations != [] { return None; }
      var previous := version.stage;
      versions := versions[a.version := version.(stage := a.stage)];
      replaced := Some(Activation(a.version, previous));
    }
  }

  // ---- replaying what was recorded ----------------------------------------------------------

  /** A run of activations, and the compensator arguments each recorded. */
  datatype Replay = Went(versions: Versions, recorded: seq<Activation>) | Stuck

  function ActivateAll(vs: Versions, todo: seq<Activation>): Replay {
    if todo == [] then Went(vs, [])
    else match ActivateAll(vs, todo[..|todo| - 1])
      case Stuck => Stuck
      case Went(mid, recorded) =>
        match Activate(mid, todo[|todo| - 1])
        case Moved(after, replaced) => Went(after, recorded + [replaced])
        case _ => Stuck
  }

  function Newest(recorded: seq<Activation>, k: nat): seq<Activation>
    requires k <= |recorded|
  {
    seq(k, i requires 0 <= i < k => recorded[|recorded| - 1 - i])
  }

  lemma {:induction false} ActivateFirst(vs: Versions, a: Activation, todo: seq<Activation>)
    requires Activate(vs, a).Moved? && ActivateAll(Activate(vs, a).versions, todo).Went?
    ensures ActivateAll(vs, [a] + todo).Went?
    ensures ActivateAll(vs, [a] + todo).versions == ActivateAll(Activate(vs, a).versions, todo).versions
  {
    if todo == [] {
      assert [a] + todo == [a] && [a][..0] == [];
    } else {
      var n := |todo| - 1;
      ActivateFirst(vs, a, todo[..n]);
      assert ([a] + todo)[..n + 1] == [a] + todo[..n];
      assert ([a] + todo)[n + 1] == todo[n];
    }
  }

  /** Replaying one recorded activation undoes it and passes the inline check. */
  lemma ReplayUndoes(vs: Versions, a: Activation)
    requires Activate(vs, a).Moved?
    ensures var done := Activate(vs, a);
            Activate(done.versions, done.replaced) == Moved(vs, a)
  {
    var done := Activate(vs, a);
    var undone := done.versions[a.version := done.versions[a.version].(stage := vs[a.version].stage)];
    assert undone[a.version] == vs[a.version];
    assert undone == vs;
  }

  lemma {:induction false} OneRecordEach(vs: Versions, todo: seq<Activation>)
    requires ActivateAll(vs, todo).Went?
    ensures |ActivateAll(vs, todo).recorded| == |todo|
    ensures forall n :: 0 <= n <= |todo| ==> ActivateAll(vs, todo[..n]).Went?
  {
    if todo != [] {
      var init := todo[..|todo| - 1];
      OneRecordEach(vs, init);
      forall n | 0 <= n <= |todo| ensures ActivateAll(vs, todo[..n]).Went? {
        if n < |todo| { assert todo[..n] == init[..n]; } else { assert todo[..n] == todo; }
      }
    } else {
      assert todo[..0] == todo;
    }
  }

  /** If the older records undo what they recorded, the newest one first and then they do too. */
  lemma UndoOneMore(mid: Versions, recorded: seq<Activation>, a: Activation, k: nat, before: Versions)
    requires Activate(mid, a).Moved? && 0 < k <= |recorded| + 1
    requires ActivateAll(mid, Newest(recorded, k - 1)).Went? && ActivateAll(mid, Newest(recorded, k - 1)).versions == before
    ensures var undone := ActivateAll(Activate(mid, a).versions, Newest(recorded + [Activate(mid, a).replaced], k));
            undone.Went? && undone.versions == before
  {
    ReplayUndoes(mid, a);
    var done := Activate(mid, a);
    assert Newest(recorded + [done.replaced], k) == [done.replaced] + Newest(recorded, k - 1);
    ActivateFirst(done.versions, done.replaced, Newest(recorded, k - 1));
  }

  /** Whatever was activated, over whatever versions and in whatever order: replaying the newest `k`
      recorded compensator arguments, newest first, never fails its checks and leaves every version
      exactly as it was before the last `k` activations. */
  lemma {:induction false} ReplayRestores(vs: Versions, todo: seq<Activation>, k: nat)
    requires ActivateAll(vs, todo).Went? && k <= |todo|
    ensures |ActivateAll(vs, todo).recorded| == |todo| && ActivateAll(vs, todo[..|todo| - k]).Went?
    ensures var undone := ActivateAll(ActivateAll(vs, todo).versions, Newest(ActivateAll(vs, todo).recorded, k));
            undone.Went? && undone.versions == ActivateAll(vs, todo[..|todo| - k]).versions
  {
    OneRecordEach(vs, todo);
    if k == 0 {
      assert todo[..|todo|] == todo;
    } else {
      var n := |todo| - 1;
      var init, a := todo[..n], todo[n];
      ReplayRestores(vs, init, k - 1);
      assert init[..n - (k - 1)] == todo[..|todo| - k];
      var mid := ActivateAll(vs, init);
      UndoOneMore(mid.versions, mid.recorded, a, k, ActivateAll(vs, todo[..|todo| - k]).versions);
    }
  }

  /** Replaying all of them restores the starting stage of every version. */
  lemma ReplayRestoresAll(vs: Versions, todo: seq<Activation>)
    requires ActivateAll(vs, todo).Went?
    ensures |ActivateAll(vs, todo).recorded| == |todo|
    ensures var undone := ActivateAll(ActivateAll(vs, todo).versions, Newest(ActivateAll(vs, todo).recorded, |todo|));
            undone.Went? && undone.versions == vs
  {
    ReplayRestores(vs, todo, |todo|);
    assert todo[..0] == [];
  }
}
