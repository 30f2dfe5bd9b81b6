/**
 * Client scenarios: the decorator stacks of tests/test_interface.py and
 * examples/simple_eks/my_flow.py, checked against the builders' contracts alone.
 */
module Scenarios {
  import opened Wrappers
  import opened Deployment
  import opened S3Storage
  import opened EksInfra
  import opened Interface

  /** Two identity builders stacked on `add`: two entries, and the base descriptor comes back. */
  method TwoDummiesOnAdd(defaults: Defaults)
  {
    var add := new Flow("add");
    var inner := Decorate(Dummy, Plain(add));
    var outer := Decorate(Dummy, Deployable(inner));
    assert outer.target == add && add.builders == [Dummy, Dummy];

    var kubectl := new Kubectl({});
    FoldIdentity(add.builders, Start("add", defaults, map[], []), {});
    var built := outer.BuildDeployment(defaults, kubectl);
    assert built.Some?;
    assert built.value.State() == DescriptorState("add", defaults.storage, defaults.path, defaults.infrastructure);
    assert kubectl.applied == [];
  }

  /** `@eks(namespace="default", ...)` over `@s3(...)` over `my_flow`. */
  method MyFlow(defaults: Defaults)
  {
    var flow := new Flow("my_flow");
    var storage := S3Builder("aws-parquet-testing", "my-flow");
    var withStorage := Decorate(S3(storage), Plain(flow));
    var infra := new EksBuilder(DefaultImage, Some("default"), 0.2, 0.3);
    var withInfra := Decorate(Eks(infra), Deployable(withStorage));
    assert flow.builders == [S3(storage), Eks(infra)];

    var kubectl := new Kubectl({});
    assert [S3(storage), Eks(infra)][1..] == [Eks(infra)];
    assert [Eks(infra)][1..] == [];
    assert EksOf([Eks(infra)]) == {infra} + EksOf([]);
    assert EksOf(flow.builders) == {infra};
    assert MemoOf({infra}) == map[infra := Some("default")];
    ghost var w0 := Start("my_flow", defaults, map[infra := Some("default")], []);
    ghost var w1 := Step(S3(storage), w0, {});
    ghost var w2 := Step(Eks(infra), w1, {});
    assert Fold(flow.builders, w0, {}) == Fold([Eks(infra)], w1, {}) == w2;
    var built := withInfra.BuildDeployment(defaults, kubectl);
    assert built.Some?;
    var state := built.value.State();
    assert state.name == "my_flow";
    assert storage.BucketPath() == "aws-parquet-testing" + "/" + "my-flow" == "aws-parquet-testing/my-flow";
    assert state.storage == Some(S3Block("aws-parquet-testing/my-flow"));
    assert state.path == None;
    assert state.infrastructure == JobFor(DefaultImage, "default", 0.2, 0.3);
    assert kubectl.applied == ["default"];
  }
}
