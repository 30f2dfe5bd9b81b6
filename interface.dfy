/**
 * The decorator-based builder interface: builders append themselves to the builder list
 * of a flow, and `build_deployment` folds the list over a fresh descriptor.
 */
module Interface {
  import opened Wrappers
  import opened Deployment
  import opened S3Storage
  import opened EksInfra

  /**
   * A deployment builder. The abstract `update_deployment` has three implementations:
   * the identity builder of the tests, the S3 storage builder and the eks builder.
   */
  datatype Builder = Dummy | S3(storage: S3Builder) | Eks(infra: EksBuilder)

  /**
   * A builder's `__call__`: wrap the flow in a new proxy and append the builder to the
   * list that the proxy forwards to the underlying flow.
   */
  method Decorate(b: Builder, f: FlowRef) returns (d: DeployableFlow)
    modifies f.Base()
    ensures fresh(d) && d.target == f.Base() && d.Valid()
    ensures d.target.builders == Decorated(old(f.Base().hasBuilders), old(f.Base().builders), b)
  {
    d := new DeployableFlow(f.Base());
    d.target.builders := d.target.builders + [b];
  }

  /**
   * A workflow as the framework defines it. `hasBuilders` tells whether the attribute
   * `_deployment_builders` exists on it; the proxy stores the list here, because it
   * forwards attribute writes to the object it wraps.
   */
  class Flow {
    const name: string
    var hasBuilders: bool
    var builders: seq<Builder>

    constructor (name: string)
      ensures this.name == name && !hasBuilders && builders == []
    {
      this.name := name;
      hasBuilders := false;
      builders := [];
    }
  }

  /** What a decorator is applied to: a plain flow, or a flow already wrapped by a proxy. */
  datatype FlowRef = Plain(flow: Flow) | Deployable(proxy: DeployableFlow) {

    /** The flow object that attribute access finally reaches through the proxies. */
    function Base(): Flow {
      match this
      case Plain(f) => f
      case Deployable(p) => p.target
    }
  }

  /** The builder list after one decoration of a flow. */
  function Decorated(hasBuilders: bool, builders: seq<Builder>, b: Builder): (r: seq<Builder>)
    ensures !hasBuilders ==> r == [b]
    ensures hasBuilders ==> |r| == |builders| + 1 && r[..|builders|] == builders && r[|builders|] == b
  {
    (if hasBuilders then builders else []) + [b]
  }

  /**
   * The builder list after decorators `bs[0]`, `bs[1]`, ... have been applied in that order
   * (innermost decorator first) to a flow whose list state is `hasBuilders`, `builders`.
   */
  ghost function Stacked(hasBuilders: bool, builders: seq<Builder>, bs: seq<Builder>): seq<Builder>
    requires bs != []
    decreases |bs|
  {
    if |bs| == 1 then Decorated(hasBuilders, builders, bs[0])
    else Decorated(true, Stacked(hasBuilders, builders, bs[..|bs| - 1]), bs[|bs| - 1])
  }

  /** Stacking decorators yields the decorators in application order after any existing list. */
  lemma {:induction false} StackedInOrder(hasBuilders: bool, builders: seq<Builder>, bs: seq<Builder>)
    requires bs != []
    ensures Stacked(hasBuilders, builders, bs) == (if hasBuilders then builders else []) + bs
    decreases |bs|
  {
    if |bs| > 1 {
      var init := bs[..|bs| - 1];
      StackedInOrder(hasBuilders, builders, init);
      assert init + [bs[|bs| - 1]] == bs;
    }
  }

  /** Stacking n decorators on a plain flow gives a list of length n, in application order. */
  lemma StackedOnPlainFlow(builders: seq<Builder>, bs: seq<Builder>)
    requires bs != []
    ensures Stacked(false, builders, bs) == bs
  {
    StackedInOrder(false, builders, bs);
  }

  /**
   * The `DeployableFlow` proxy. Every decoration creates a new one; all of them reach the
   * same underlying flow, which holds the shared builder list.
   */
  class DeployableFlow {
    const target: Flow

    predicate Valid()
      reads target
    {
      target.hasBuilders
    }

    /**
     * `__init__` over the flow that attribute access reaches (`FlowRef.Base`): create the
     * list only if that flow has none yet.
     */
    constructor (flow: Flow)
      modifies flow
      ensures target == flow && Valid()
      ensures target.builders == if old(flow.hasBuilders) then old(flow.builders) else []
    {
      target := flow;
      new;
      if !target.hasBuilders {
        target.hasBuilders := true;
        target.builders := [];
      }
    }

    /** The `deployment_builders` property setter. */
    method SetDeploymentBuilders(bs: seq<Builder>)
      modifies target
      ensures Valid() && target.builders == bs
    {
      target.hasBuilders := true;
      target.builders := bs;
    }

    /**
     * `build_deployment`: build a descriptor named after the flow, then hand it to every
     * builder in list order. A builder that raises ends the build without a descriptor.
     */
    method BuildDeployment(defaults: Defaults, kubectl: Kubectl) returns (r: Option<Descriptor>)
      requires Valid()
      modifies EksOf(target.builders), kubectl`applied
      ensures var w := Fold(target.builders, Start(target.name, defaults, old(MemoOf(EksOf(target.builders))), old(kubectl.applied)), kubectl.rejects);
        && (r.Some? <==> !w.failed)
        && (r.Some? ==> fresh(r.value) && r.value.State() == w.desc)
        && MemoOf(EksOf(target.builders)) == w.memo
        && kubectl.applied == w.applied
    {
      var bs := target.builders;
      ghost var es := EksOf(bs);
      var d := new Descriptor.FromFlow(target.name, defaults);
      ghost var w0 := Start(target.name, defaults, MemoOf(es), kubectl.applied);
      assert w0 == Start(target.name, defaults, old(MemoOf(EksOf(target.builders))), old(kubectl.applied));
      assert bs[0..] == bs;
      var i := 0;
      while i < |bs|
        invariant 0 <= i <= |bs|
        invariant fresh(d)
        invariant EksOf(bs[i..]) <= es
        invariant Fold(bs, w0, kubectl.rejects) == Fold(bs[i..], World(d.State(), MemoOf(es), kubectl.applied, false), kubectl.rejects)
      {
        assert bs[i..][1..] == bs[i + 1..];
        ghost var cur := World(d.State(), MemoOf(es), kubectl.applied, false);
        var res := UpdateDeployment(bs[i], d, kubectl, es);
        ghost var next := Step(bs[i], cur, kubectl.rejects);
        assert Fold(bs[i..], cur, kubectl.rejects) == Fold(bs[i + 1..], next, kubectl.rejects);
        if res.None? {
          assert next.failed && Fold(bs, w0, kubectl.rejects) == next;
          assert Fold(bs[i + 1..], next, kubectl.rejects) == next;
          r := None;
          return;
        }
        d := res.value;
        i := i + 1;
      }
      assert bs[i..] == [];
      r := Some(d);
    }
  }

  /**
   * The polymorphic `update_deployment` call of the build loop, dispatched on the builder.
   * `es` is any set of eks builders that contains this one; their memos form the world.
   */
  method UpdateDeployment(b: Builder, d: Descriptor, kubectl: Kubectl, ghost es: set<EksBuilder>)
    returns (r: Option<Descriptor>)
    requires b.Eks? ==> b.infra in es
    modifies d, kubectl`applied, if b.Eks? then {b.infra} else {}
    ensures var w := Step(b, World(old(d.State()), old(MemoOf(es)), old(kubectl.applied), false), kubectl.rejects);
      && (r.Some? <==> !w.failed)
      && (r.Some? ==> r.value == d)
      && d.State() == w.desc
      && MemoOf(es) == w.memo
      && kubectl.applied == w.applied
  {
    match b {
      case Dummy =>
        r := Some(d);
      case S3(s) =>
        var res := s.UpdateDeployment(d);
        r := Some(res);
      case Eks(e) =>
        ghost var memoBefore := MemoOf(es);
        r := e.UpdateDeployment(d, kubectl);
        assert MemoOf(es) == memoBefore[e := e.namespace];
    }
  }

  /** The state a build threads through its builders: descriptor, eks memos, kubectl log. */
  datatype World = World(
    desc: DescriptorState,
    memo: map<EksBuilder, Option<string>>,
    applied: seq<string>,
    failed: bool)

  /** The world at the start of a build: a fresh descriptor named after the flow. */
  ghost function Start(flowName: string, defaults: Defaults, memo: map<EksBuilder, Option<string>>, applied: seq<string>): (w: World)
    ensures w.desc.name == flowName && !w.failed
  {
    World(DescriptorState(flowName, defaults.storage, defaults.path, defaults.infrastructure), memo, applied, false)
  }

  /** The eks builders occurring in a builder list. */
  function EksOf(bs: seq<Builder>): set<EksBuilder>
  {
    if bs == [] then {} else (if bs[0].Eks? then {bs[0].infra} else {}) + EksOf(bs[1..])
  }

  /** The namespace memo of every eks builder in `es`. */
  ghost function MemoOf(es: set<EksBuilder>): (m: map<EksBuilder, Option<string>>)
    reads es
    ensures m.Keys == es
  {
    map e | e in es :: e.namespace
  }

  /** One builder's `update_deployment`, as a change of the world. */
  ghost function Step(b: Builder, w: World, rejects: set<string>): (r: World)
    requires b.Eks? ==> b.infra in w.memo
    ensures r.memo.Keys == w.memo.Keys
  {
    match b
    case Dummy => w
    case S3(s) => w.(desc := s.Apply(w.desc))
    case Eks(e) =>
      var ns := Resolve(w.memo[e], w.desc.name);
      var w' := w.(memo := w.memo[e := Some(ns)], applied := w.applied + [ns]);
      if ns in rejects then w'.(failed := true) else w'.(desc := e.Install(ns, w.desc))
  }

  /** The left fold of the builders over the world, stopping at the first failure. */
  ghost function Fold(bs: seq<Builder>, w: World, rejects: set<string>): (r: World)
    requires EksOf(bs) <= w.memo.Keys
    ensures r.memo.Keys == w.memo.Keys
    ensures w.failed ==> r == w
    decreases |bs|
  {
    if bs == [] || w.failed then w
    else Fold(bs[1..], Step(bs[0], w, rejects), rejects)
  }

  lemma {:induction false} EksOfConcat(xs: seq<Builder>, ys: seq<Builder>)
    ensures EksOf(xs + ys) == EksOf(xs) + EksOf(ys)
    decreases |xs|
  {
    if xs != [] {
      assert (xs + ys)[1..] == xs[1..] + ys;
      EksOfConcat(xs[1..], ys);
    } else {
      assert xs + ys == ys;
    }
  }

  /** Identity builders, and in particular an empty list, leave the world unchanged. */
  lemma {:induction false} FoldIdentity(bs: seq<Builder>, w: World, rejects: set<string>)
    requires forall k :: 0 <= k < |bs| ==> bs[k] == Dummy
    ensures EksOf(bs) == {}
    ensures Fold(bs, w, rejects) == w
    decreases |bs|
  {
    if bs != [] {
      FoldIdentity(bs[1..], w, rejects);
    }
  }

  /** No builder renames the descriptor: the built descriptor keeps the flow's name. */
  lemma {:induction false} FoldKeepsName(bs: seq<Builder>, w: World, rejects: set<string>)
    requires EksOf(bs) <= w.memo.Keys
    ensures Fold(bs, w, rejects).desc.name == w.desc.name
    decreases |bs|
  {
    if bs != [] && !w.failed {
      FoldKeepsName(bs[1..], Step(bs[0], w, rejects), rejects);
    }
  }

  /** The fold runs the builders strictly in list order: the last one acts on the result of the rest. */
  lemma {:induction false} FoldAppend(bs: seq<Builder>, b: Builder, w: World, rejects: set<string>)
    requires EksOf(bs + [b]) <= w.memo.Keys
    ensures EksOf(bs) <= w.memo.Keys && (b.Eks? ==> b.infra in w.memo)
    ensures var v := Fold(bs, w, rejects);
      Fold(bs + [b], w, rejects) == if v.failed then v else Step(b, v, rejects)
    decreases |bs|
  {
    EksOfConcat(bs, [b]);
    assert EksOf([b]) == if b.Eks? then {b.infra} else {} by {
      assert [b][1..] == [];
    }
    if w.failed {
    } else if bs == [] {
      assert [b] == bs + [b];
      assert Fold([b], w, rejects) == Fold([], Step(b, w, rejects), rejects);
    } else {
      assert (bs + [b])[1..] == bs[1..] + [b];
      assert (bs + [b])[0] == bs[0];
      FoldAppend(bs[1..], b, Step(bs[0], w, rejects), rejects);
    }
  }

  /** Last writer wins for storage: a later S3 builder overrides every earlier storage choice. */
  lemma LastStorageWins(bs: seq<Builder>, s: S3Builder, w: World, rejects: set<string>)
    requires EksOf(bs + [S3(s)]) <= w.memo.Keys
    ensures var v := Fold(bs + [S3(s)], w, rejects);
      !v.failed ==> v.desc.storage == Some(S3Block(s.BucketPath())) && v.desc.path == None
  {
    FoldAppend(bs, S3(s), w, rejects);
  }

  /** Last writer wins for infrastructure: a later eks builder installs its own job. */
  lemma LastInfrastructureWins(bs: seq<Builder>, e: EksBuilder, w: World, rejects: set<string>)
    requires EksOf(bs + [Eks(e)]) <= w.memo.Keys
    ensures EksOf(bs) <= w.memo.Keys && e in w.memo
    ensures var v := Fold(bs, w, rejects);
      var r := Fold(bs + [Eks(e)], w, rejects);
      !r.failed ==> r.desc.infrastructure == JobFor(e.image, Resolve(v.memo[e], w.desc.name), e.cpu, e.memoryGb)
    ensures !Fold(bs + [Eks(e)], w, rejects).failed && e.Valid() ==>
      WithinQuotas(Fold(bs + [Eks(e)], w, rejects).desc.infrastructure)
  {
    FoldAppend(bs, Eks(e), w, rejects);
    FoldKeepsName(bs, w, rejects);
  }

  /** Memoisation across a build: an eks builder whose namespace is resolved keeps it. */
  lemma {:induction false} FoldKeepsResolvedNamespace(bs: seq<Builder>, w: World, rejects: set<string>, e: EksBuilder)
    requires EksOf(bs) <= w.memo.Keys
    requires e in w.memo && w.memo[e].Some?
    ensures Fold(bs, w, rejects).memo[e] == w.memo[e]
    decreases |bs|
  {
    if bs != [] && !w.failed {
      FoldKeepsResolvedNamespace(bs[1..], Step(bs[0], w, rejects), rejects, e);
    }
  }

  /** After a build every eks builder of the list that ran has its namespace resolved. */
  lemma {:induction false} FoldResolvesNamespaces(bs: seq<Builder>, w: World, rejects: set<string>, e: EksBuilder)
    requires EksOf(bs) <= w.memo.Keys
    requires e in EksOf(bs)
    requires !Fold(bs, w, rejects).failed
    ensures Fold(bs, w, rejects).memo[e].Some?
    decreases |bs|
  {
    var w' := Step(bs[0], w, rejects);
    if bs[0] == Eks(e) {
      FoldKeepsResolvedNamespace(bs[1..], w', rejects, e);
    } else {
      FoldResolvesNamespaces(bs[1..], w', rejects, e);
    }
  }

  /** A list without eks builders never fails and never touches the cluster or a memo. */
  lemma {:induction false} FoldWithoutEks(bs: seq<Builder>, w: World, rejects: set<string>)
    requires EksOf(bs) == {}
    ensures var r := Fold(bs, w, rejects);
      r.failed == w.failed && r.memo == w.memo && r.applied == w.applied
    decreases |bs|
  {
    if bs != [] && !w.failed {
      FoldWithoutEks(bs[1..], Step(bs[0], w, rejects), rejects);
    }
  }
}
