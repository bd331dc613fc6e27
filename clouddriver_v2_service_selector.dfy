/**
  The request-facing router for the Clouddriver backend family: two feature
  flags gate dynamic routing; when both are on, the request's optional source
  and destination applications become a parameter list for the selection
  library; otherwise the default service is used.
 */
module ClouddriverRouting {
  import opened Wrappers
  import opened KorkSelectorV2

  const SOURCE_APP := "sourceApp"
  const DESTINATION_APP := "destinationApp"

  /** The two feature flags; their property keys are defined outside this model. */
  datatype Flag = DynamicRoutingEnabled | ClouddriverRoutingEnabled

  /** The dynamic configuration service's `isEnabled(flag, defaultValue)`. */
  type DynamicConfig = (Flag, bool) -> bool

  /** A call into a collaborator, in the order `select` makes them. */
  datatype Call =
    | IsEnabled(flag: Flag, defaultValue: bool)
    | GetDefaultService
    | ByParameters(parameters: seq<Parameter>)

  /** Dynamic routing is on when both flags, each asked with default false, are on. */
  predicate RoutingEnabled(isEnabled: DynamicConfig)
  {
    isEnabled(DynamicRoutingEnabled, false) && isEnabled(ClouddriverRoutingEnabled, false)
  }

  /** The flag queries the short-circuit conjunction makes. */
  function FlagQueries(isEnabled: DynamicConfig): seq<Call>
  {
    [IsEnabled(DynamicRoutingEnabled, false)]
    + if isEnabled(DynamicRoutingEnabled, false) then [IsEnabled(ClouddriverRoutingEnabled, false)] else []
  }

  /** The parameter list for a request: a single-valued "sourceApp" entry if
      the source application is given, then a single-valued "destinationApp"
      entry if the destination application is given. */
  function Parameters(sourceApp: Option<string>, destinationApp: Option<string>): (ps: seq<Parameter>)
    ensures |ps| == (if sourceApp.Some? then 1 else 0) + (if destinationApp.Some? then 1 else 0)
    ensures forall i :: 0 <= i < |ps| ==> |ps[i].values| == 1
    ensures forall i :: 0 <= i < |ps| ==> ps[i].name == SOURCE_APP || ps[i].name == DESTINATION_APP
    ensures sourceApp.Some? ==> ps[0] == Parameter(SOURCE_APP, [sourceApp.value])
    ensures destinationApp.Some? ==> ps[|ps| - 1] == Parameter(DESTINATION_APP, [destinationApp.value])
  {
    (if sourceApp.Some? then [Parameter(SOURCE_APP, [sourceApp.value])] else [])
    + (if destinationApp.Some? then [Parameter(DESTINATION_APP, [destinationApp.value])] else [])
  }

  /** The values a parameter list carries for `name`: those of its first
      parameter of that name, or None when there is none. */
  function ValuesOf(ps: seq<Parameter>, name: string): (r: Option<seq<string>>)
    ensures r.None? <==> forall i :: 0 <= i < |ps| ==> ps[i].name != name
    ensures r.Some? ==> exists i :: 0 <= i < |ps| && ps[i].name == name && ps[i].values == r.value
                                    && forall j :: 0 <= j < i ==> ps[j].name != name
  {
    if ps == [] then None
    else if ps[0].name == name then Some(ps[0].values)
    else
      var r := ValuesOf(ps[1..], name);
      assert forall i :: 1 <= i < |ps| ==> ps[i] == ps[1..][i - 1];
      r
  }

  /** A single-element value list for a present input. */
  function SingleValue(input: Option<string>): Option<seq<string>>
  {
    if input.Some? then Some([input.value]) else None
  }

  /** The parameter list carries each input under its own name and nothing else. */
  lemma ParametersRoundTrip(sourceApp: Option<string>, destinationApp: Option<string>)
    ensures ValuesOf(Parameters(sourceApp, destinationApp), SOURCE_APP) == SingleValue(sourceApp)
    ensures ValuesOf(Parameters(sourceApp, destinationApp), DESTINATION_APP) == SingleValue(destinationApp)
    ensures forall name :: name != SOURCE_APP && name != DESTINATION_APP
              ==> ValuesOf(Parameters(sourceApp, destinationApp), name) == None
  {
  }

  /** Distinct requests produce distinct parameter lists. */
  lemma ParametersDetermineInputs(s1: Option<string>, d1: Option<string>, s2: Option<string>, d2: Option<string>)
    requires Parameters(s1, d1) == Parameters(s2, d2)
    ensures s1 == s2 && d1 == d2
  {
  }

  /** Every flag is asked with default false, and the Clouddriver flag is asked
      exactly when the global flag is on. */
  lemma FlagQueriesFailClosed(isEnabled: DynamicConfig)
    ensures forall i :: 0 <= i < |FlagQueries(isEnabled)| ==>
              FlagQueries(isEnabled)[i].IsEnabled? && !FlagQueries(isEnabled)[i].defaultValue
    ensures IsEnabled(ClouddriverRoutingEnabled, false) in FlagQueries(isEnabled)
            <==> isEnabled(DynamicRoutingEnabled, false)
  {
  }

  /** A flag the configuration service cannot answer (it returns the default)
      turns dynamic routing off. */
  lemma UnansweredFlagDisables(isEnabled: DynamicConfig, flag: Flag)
    requires forall d :: isEnabled(flag, d) == d
    ensures !RoutingEnabled(isEnabled)
  {
  }

  datatype ClouddriverV2ServiceSelector<S> = ClouddriverV2ServiceSelector(
    selectableService: SelectableService<S>,
    defaultConfig: map<string, string>,
    dynamicConfigService: DynamicConfig)
  {
    /** Asks the global flag, and the Clouddriver flag only if the first is on. */
    method ShouldSelect() returns (enabled: bool, queries: seq<Call>)
      ensures enabled == RoutingEnabled(dynamicConfigService)
      ensures queries == FlagQueries(dynamicConfigService)
    {
      queries := [IsEnabled(DynamicRoutingEnabled, false)];
      enabled := dynamicConfigService(DynamicRoutingEnabled, false);
      if enabled {
        queries := queries + [IsEnabled(ClouddriverRoutingEnabled, false)];
        enabled := dynamicConfigService(ClouddriverRoutingEnabled, false);
      }
    }

    /** Routes one request. With either flag off the default service is
        returned and the library is never asked to choose; otherwise the
        library's choice for the request's parameter list is returned as is. */
    method Select(sourceApp: Option<string>, destinationApp: Option<string>) returns (service: S, calls: seq<Call>)
      ensures !RoutingEnabled(dynamicConfigService) ==>
                service == selectableService.defaultService
                && forall i :: 0 <= i < |calls| ==> !calls[i].ByParameters?
      ensures RoutingEnabled(dynamicConfigService) ==>
                service == selectableService.byParameters(Parameters(sourceApp, destinationApp))
      ensures calls == FlagQueries(dynamicConfigService)
                       + [if RoutingEnabled(dynamicConfigService)
                          then ByParameters(Parameters(sourceApp, destinationApp))
                          else GetDefaultService]
    {
      var enabled, queries := ShouldSelect();
      if !enabled {
        calls := queries + [GetDefaultService];
        service := selectableService.defaultService;
        return;
      }
      var parameters: seq<Parameter> := [];
      if sourceApp.Some? {
        parameters := parameters + [Parameter(SOURCE_APP, [sourceApp.value])];
      }
      if destinationApp.Some? {
        parameters := parameters + [Parameter(DESTINATION_APP, [destinationApp.value])];
      }
      assert parameters == Parameters(sourceApp, destinationApp);
      calls := queries + [ByParameters(parameters)];
      service := selectableService.byParameters(parameters);
    }
  }

  /** The constructor: the library is built with the caller's default service
      and an empty configuration map, which the router also keeps. */
  function Create<S>(defaultService: S, byParameters: seq<Parameter> -> S, dynamicConfigService: DynamicConfig)
    : (r: ClouddriverV2ServiceSelector<S>)
    ensures r.defaultConfig == map[]
    ensures r.selectableService.config == r.defaultConfig
    ensures r.selectableService.defaultService == defaultService
    ensures r.selectableService.byParameters == byParameters
    ensures r.dynamicConfigService == dynamicConfigService
  {
    var defaultConfig := map[];
    ClouddriverV2ServiceSelector(
      SelectableService(defaultService, defaultConfig, byParameters),
      defaultConfig,
      dynamicConfigService)
  }
}
