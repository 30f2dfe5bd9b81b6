/** Flow metadata and the tag list derived from it. */
module Metadata {
  import opened Wrappers

  /** A flow-run name: a literal, or a zero-argument function that produces one. */
  datatype RunName = Literal(name: string) | Generated(produce: () -> string)

  /** Python truthiness of an optional string: `None` and `""` are both false. */
  predicate Truthy(o: Option<string>) {
    o.Some? && o.value != ""
  }

  datatype FlowMetadata = FlowMetadata(
    name: Option<string>,
    version: Option<string>,
    flowRunName: Option<RunName>,
    description: Option<string>)
  {
    /** `build_tags`: name, then version, each only when it is set and non-empty. */
    method BuildTags() returns (tags: seq<string>)
      ensures |tags| <= 2
      ensures forall t :: t in tags ==> t != "" && (Some(t) == name || Some(t) == version)
      ensures Truthy(name) && Truthy(version) ==> tags == [name.value, version.value]
      ensures Truthy(name) && !Truthy(version) ==> tags == [name.value]
      ensures !Truthy(name) && Truthy(version) ==> tags == [version.value]
      ensures !Truthy(name) && !Truthy(version) ==> tags == []
    {
      tags := [];
      if name.Some? && name.value != "" {
        tags := tags + [name.value];
      }
      if version.Some? && version.value != "" {
        tags := tags + [version.value];
      }
    }
  }
}
