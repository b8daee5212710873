/** The few fields of a Kubernetes Pod that the webhook reads or writes. */
module Pods {
  import opened Wrappers

  /** A container of spec.containers; only whether resources.limits is nil matters here. */
  datatype Container = Container(hasLimits: bool)

  /** The decoded pod the handler hands to the patch functions, by pointer. */
  class Pod {
    /** metadata.labels; None stands for a nil map. */
    var labels: Option<map<string, string>>
    /** spec.containers, in order. */
    var containers: seq<Container>

    constructor (labels: Option<map<string, string>>, containers: seq<Container>)
      ensures this.labels == labels && this.containers == containers
    {
      this.labels := labels;
      this.containers := containers;
    }
  }

  /** Go's `v, ok := m[key]`: a nil map reads as an empty map. */
  function Lookup(labels: Option<map<string, string>>, key: string): (r: Option<string>)
    ensures r.Some? <==> labels.Some? && key in labels.value
    ensures r.Some? ==> r.value == labels.value[key]
  {
    if labels.Some? && key in labels.value then Some(labels.value[key]) else None
  }

  /** Go's `m[key]`: the empty string when the key is missing or the map is nil. */
  function Index(labels: Option<map<string, string>>, key: string): (v: string)
    ensures v == Lookup(labels, key).GetOr("")
  {
    match Lookup(labels, key)
    case Some(v) => v
    case None => ""
  }
}
