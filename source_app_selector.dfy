/**
  A selection rule that matches requests by the application they come from.
  It is configured once, never changes, and answers one question: does it
  support a request's criteria?
 */
module SourceAppRouting {
  import opened Wrappers
  import opened KorkSelector

  /** Java's `int`, the width the priority is stored at. */
  newtype int32 = x: int | -0x8000_0000 <= x < 0x8000_0000

  /** The configuration key the source application is read from. */
  const ORIGIN_KEY := "origin"

  /** A selector's configuration map; a value is a string or Java null. */
  type Config = map<string, Option<string>>

  /** Java's `Map.get`: an absent key and a null value both read as null. */
  function Get(config: Config, key: string): Option<string>
  {
    if key in config then config[key] else None
  }

  /** Java's `String.equals`, which is false for a null argument. */
  predicate JavaEquals(s: string, other: Option<string>)
  {
    other.Some? && other.value == s
  }

  datatype BySourceAppSelector<S> = BySourceAppSelector(
    service: S,
    priority: int32,
    sourceApp: Option<string>)
  {
    function GetService(): S
    {
      service
    }

    function GetPriority(): int32
    {
      priority
    }

    /** True only for a configured source application equal to the origin. */
    function Supports(criteria: Criteria): (b: bool)
      ensures b <==> sourceApp.Some? && criteria.origin == sourceApp
      ensures sourceApp.None? ==> !b
      ensures criteria.origin.None? ==> !b
    {
      sourceApp.Some? && JavaEquals(sourceApp.value, criteria.origin)
    }
  }

  /** Whether building a selector from `config` logs the null-sourceApp warning. */
  predicate WarnsOnConstruction(config: Config)
  {
    Get(config, ORIGIN_KEY).None?
  }

  /** The map constructor: the service and priority are kept as given and the
      source application is whatever the config holds under "origin". A missing
      or null entry does not fail; it only warns. */
  function FromConfig<S>(service: S, priority: int32, config: Config): (sel: BySourceAppSelector<S>)
    ensures sel.GetService() == service
    ensures sel.GetPriority() == priority
    ensures sel.sourceApp.Some? <==> ORIGIN_KEY in config && config[ORIGIN_KEY].Some?
    ensures sel.sourceApp.Some? ==> config[ORIGIN_KEY] == sel.sourceApp
    ensures sel.sourceApp.None? <==> WarnsOnConstruction(config)
  {
    BySourceAppSelector(service, priority, Get(config, ORIGIN_KEY))
  }

  /** The string constructor, which delegates to the map constructor with the
      one-entry map {"origin": sourceApp}. */
  function FromSourceApp<S>(service: S, priority: int32, sourceApp: string): (sel: BySourceAppSelector<S>)
    ensures sel.GetService() == service
    ensures sel.GetPriority() == priority
    ensures sel.sourceApp == Some(sourceApp)
  {
    FromConfig(service, priority, map[ORIGIN_KEY := Some(sourceApp)])
  }

  /** A selector built without an origin never supports any criteria. */
  lemma MissingOriginNeverSupports<S>(service: S, priority: int32, config: Config, criteria: Criteria)
    requires ORIGIN_KEY !in config || config[ORIGIN_KEY].None?
    ensures !FromConfig(service, priority, config).Supports(criteria)
  {
  }

  /** A selector is permanently disabled exactly when its construction warned. */
  lemma DisabledIffWarned<S>(service: S, priority: int32, config: Config)
    ensures (forall c :: !FromConfig(service, priority, config).Supports(c))
            <==> WarnsOnConstruction(config)
  {
    var sel := FromConfig(service, priority, config);
    if !WarnsOnConstruction(config) {
      assert sel.Supports(Criteria(sel.sourceApp));
    }
  }

  /** The string-built selector supports exactly the requests whose origin is
      that string; a null origin never matches. */
  lemma FromSourceAppSupportsExactly<S>(service: S, priority: int32, sourceApp: string, criteria: Criteria)
    ensures FromSourceApp(service, priority, sourceApp).Supports(criteria)
            <==> criteria.origin == Some(sourceApp)
  {
  }

  /** The string constructor builds the same selector as the map constructor
      given any config whose "origin" entry is that string. */
  lemma FromSourceAppAgreesWithConfig<S>(service: S, priority: int32, sourceApp: string, config: Config)
    requires Get(config, ORIGIN_KEY) == Some(sourceApp)
    ensures FromSourceApp(service, priority, sourceApp) == FromConfig(service, priority, config)
  {
  }
}
