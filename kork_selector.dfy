/**
  The value the gateway's single-attribute selectors receive from the first
  version of the selection library (`kork.web.selector`).
 */
module KorkSelector {
  import opened Wrappers

  /** The routing attributes of one request. Only the origin is modelled; a
      Java null origin is None. */
  datatype Criteria = Criteria(origin: Option<string>)
}

/**
  The values the Clouddriver router exchanges with the second version of the
  selection library (`kork.web.selector.v2`). The library's own selection rules
  are not modelled: its choice over a parameter list is an uninterpreted
  function.
 */
module KorkSelectorV2 {

  /** One named routing attribute and its acceptable values. */
  datatype Parameter = Parameter(name: string, values: seq<string>)

  /** The library's router for one backend family: the default service it was
      built with, the configuration map it was handed, and its choice of a
      service for a parameter list (which in the library depends on the base
      URLs and the service factory as well). */
  datatype SelectableService<S> = SelectableService(
    defaultService: S,
    config: map<string, string>,
    byParameters: seq<Parameter> -> S)
}
