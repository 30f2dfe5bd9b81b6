/** The S3 flow-storage builder (`s3`). */
module S3Storage {
  import opened Wrappers
  import opened Deployment

  /** An `s3(bucket=..., key=...)` builder; immutable configuration. */
  datatype S3Builder = S3Builder(bucket: string, key: string) {

    /** The storage location the builder installs: `bucket + "/" + key`. */
    function BucketPath(): (p: string)
      ensures |p| == |bucket| + 1 + |key|
      ensures p[..|bucket|] == bucket && p[|bucket|] == '/' && p[|bucket| + 1..] == key
    {
      bucket + "/" + key
    }

    /** The effect of `update_deployment` on a descriptor's fields. */
    function Apply(s: DescriptorState): (r: DescriptorState)
      ensures r.storage == Some(S3Block(BucketPath()))
      ensures r.path == None
      ensures r.name == s.name && r.infrastructure == s.infrastructure
    {
      s.(storage := Some(S3Block(BucketPath())), path := None)
    }

    /** `update_deployment`: assigns storage and clears path on the object it is given. */
    method UpdateDeployment(d: Descriptor) returns (r: Descriptor)
      modifies d
      ensures r == d
      ensures d.State() == Apply(old(d.State()))
    {
      d.storage := Some(S3Block(bucket + "/" + key));
      d.path := None;
      r := d;
    }
  }

  /** Applying the storage builder a second time changes nothing. */
  lemma ApplyIdempotent(b: S3Builder, s: DescriptorState)
    ensures b.Apply(b.Apply(s)) == b.Apply(s)
  {
  }

  /** The result of the storage builder does not depend on the storage or path it overwrites. */
  lemma ApplyOverwrites(b: S3Builder, s: DescriptorState, t: DescriptorState)
    requires s.name == t.name && s.infrastructure == t.infrastructure
    ensures b.Apply(s) == b.Apply(t)
  {
  }
}
