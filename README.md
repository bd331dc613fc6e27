# Dynamic routing of the gateway's Clouddriver calls

This project models two routing pieces of the Spinnaker API gateway (Gate):

- `BySourceAppSelector`, one selection rule of the selection library: a backend
  service, an integer priority and an optional source application read from the
  `"origin"` key of its configuration. It supports a request's criteria exactly
  when the source application is configured and equals the request's origin.
  In Dafny it is the datatype `SourceAppRouting.BySourceAppSelector` with the two
  constructors as the functions `FromConfig` and `FromSourceApp`
  (`source_app_selector.dfy`).
- `ClouddriverV2ServiceSelector`, the request-facing router for Clouddriver. It
  asks the dynamic configuration service for two feature flags, each with default
  `false`, the second only when the first is on. With either flag off it returns
  the default service. Otherwise it builds a parameter list from the non-null
  request inputs, `sourceApp` first and then `destinationApp`, each with a single
  value, and returns the library's choice for that list
  (`clouddriver_v2_service_selector.dfy`).

The selection library's values are in `kork_selector.dfy`: the criteria of its
first version in `KorkSelector`, the parameters and the selectable service of its
second version in `KorkSelectorV2`; `wrappers.dfy` holds `Option`, which stands for a
nullable Java reference.

Collaborators are parameters of the model. The dynamic configuration service is
a function `(Flag, bool) -> bool` (flag, default value). The library's choice
over a parameter list is an uninterpreted function `seq<Parameter> -> S` inside
`SelectableService`. `select` also returns the sequence of collaborator calls it
records (`Call`), so that "the library is never consulted" and "the second flag is
asked only after the first" can be stated about that record (see "## Left out"
for what this does and does not establish).

All members are pure functions or methods that change nothing. So `supports`,
`getService` and `getPriority` change no state, and repeated calls with the same
arguments give the same answer.

A selector compares its configured source application with the criteria's
single origin by `String.equals`. It does not look for the value in a list of
values, and a null origin never matches.

## Model

| member | source | states |
|---|---|---|
| `SourceAppRouting.BySourceAppSelector.Supports` | gate-web/src/main/groovy/com/netflix/spinnaker/gate/services/internal/BySourceAppSelector.java:57-60 | true exactly when the source application is configured and equals the criteria's origin; an unconfigured source application or a null origin gives false |
| `SourceAppRouting.FromConfig` | gate-web/src/main/groovy/com/netflix/spinnaker/gate/services/internal/BySourceAppSelector.java:33-55 | `getService` and `getPriority` return exactly the service and priority given; the source application is present exactly when the config has a non-null `"origin"` entry, and then equals it; it is absent exactly when construction warns, and construction never fails |
| `SourceAppRouting.FromSourceApp` | gate-web/src/main/groovy/com/netflix/spinnaker/gate/services/internal/BySourceAppSelector.java:43-45 | the string constructor keeps the service and priority and configures exactly the given source application |
| `SourceAppRouting.MissingOriginNeverSupports` | gate-web/src/main/groovy/com/netflix/spinnaker/gate/services/internal/BySourceAppSelector.java:36-59 | a selector built from a config without a non-null `"origin"` supports no criteria |
| `SourceAppRouting.DisabledIffWarned` | gate-web/src/main/groovy/com/netflix/spinnaker/gate/services/internal/BySourceAppSelector.java:36-59 | a selector supports no criteria at all if and only if its construction logged the null-sourceApp warning |
| `SourceAppRouting.FromSourceAppSupportsExactly` | gate-web/src/main/groovy/com/netflix/spinnaker/gate/services/internal/BySourceAppSelector.java:43-59 | the string-built selector supports a criteria exactly when its origin is that string |
| `SourceAppRouting.FromSourceAppAgreesWithConfig` | gate-web/src/main/groovy/com/netflix/spinnaker/gate/services/internal/BySourceAppSelector.java:43-45 | the string constructor builds the same selector as the map constructor given any config whose `"origin"` entry is that string, in particular `{"origin": sourceApp}` |
| `ClouddriverRouting.Create` | gate-web/src/main/groovy/com/netflix/spinnaker/gate/services/internal/ClouddriverV2ServiceSelector.java:36-55 | the router's default configuration is the empty map; the library is built with that map, the caller's default service and the given choice function, and the router keeps the given configuration service |
| `ClouddriverRouting.ClouddriverV2ServiceSelector.ShouldSelect` | gate-web/src/main/groovy/com/netflix/spinnaker/gate/services/internal/ClouddriverV2ServiceSelector.java:84-90 | the answer is the conjunction of both flags asked with default false; the queries made are the global flag, then the Clouddriver flag only if the global one is on |
| `ClouddriverRouting.ClouddriverV2ServiceSelector.Select` | gate-web/src/main/groovy/com/netflix/spinnaker/gate/services/internal/ClouddriverV2ServiceSelector.java:60-82 | with either flag off the result is the default service and the recorded calls hold no library call; with both on the result is exactly the library's choice for the request's parameter list, which is handed over even when it is empty; the full call sequence is the flag queries followed by one library call |
| `ClouddriverRouting.Parameters` | gate-web/src/main/groovy/com/netflix/spinnaker/gate/services/internal/ClouddriverV2ServiceSelector.java:66-79 | the list has one entry per non-null input (0, 1 or 2); every entry is named `"sourceApp"` or `"destinationApp"` and has one value; the `"sourceApp"` entry comes first and the `"destinationApp"` entry last |
| `ClouddriverRouting.ParametersRoundTrip` | gate-web/src/main/groovy/com/netflix/spinnaker/gate/services/internal/ClouddriverV2ServiceSelector.java:66-79 | reading the list back by name gives the single-element value list of each present input, none for an absent input, and none for every other name |
| `ClouddriverRouting.ParametersDetermineInputs` | gate-web/src/main/groovy/com/netflix/spinnaker/gate/services/internal/ClouddriverV2ServiceSelector.java:66-79 | two requests with the same parameter list have the same source and destination applications |
| `ClouddriverRouting.FlagQueriesFailClosed` | gate-web/src/main/groovy/com/netflix/spinnaker/gate/services/internal/ClouddriverV2ServiceSelector.java:87-89 | every flag query passes default false, and the Clouddriver flag is asked if and only if the global flag is on |
| `ClouddriverRouting.UnansweredFlagDisables` | gate-web/src/main/groovy/com/netflix/spinnaker/gate/services/internal/ClouddriverV2ServiceSelector.java:87-89 | if the configuration service answers either flag with the default it was given, dynamic routing is off |

## Left out

- The selection library's internals: how `byParameters` and the default selector choose, their priority and tie-break rules, and how selectors are built from the base URLs. `byParameters` is an uninterpreted function, and `getDefaultService().getService()` is taken to return the default service the library was built with.
- The unwrapping `.getService()` on the library's results is folded into the uninterpreted choice, which returns the service directly.
- The dynamic configuration service's polling, caching and failures: it is a function of the flag and the default value. The flags' property keys are defined in `DynamicRoutingConfigProperties`, which is not part of this model; the model names the two flags by a datatype.
- The Clouddriver service factory and `DynamicRoutingConfigProperties`, including the unhandled null `getClouddriver()`: construction wiring, not routing logic.
- The null-sourceApp warning is a log side effect; the model states when it happens (`WarnsOnConstruction`) and does not model the log.
- Java runtime failures: a non-string `"origin"` value (a `ClassCastException`, so config values are modelled as nullable strings), a null string passed to the string constructor (rejected by `ImmutableMap.of`, so that constructor takes a non-null string), a null `Integer` priority (an unboxing failure), a null `config` map (a `NullPointerException` at `config.get`), and a null `criteria` given to a selector with a configured source application (a `NullPointerException` at `getOrigin`). `Config` and `Criteria` values cannot be null in the model.
- ClouddriverRouting.ClouddriverV2ServiceSelector.Select: the call sequence `calls` is recorded by the method itself, next to applications of the collaborators, which are pure functions. That the library's choice is never applied on the disabled path is read off the body, not checked by the verifier: an unrecorded application whose result is discarded changes nothing the verifier can observe. What is checked is that the returned service is the default service when the last recorded call is `GetDefaultService`, and the library's choice for exactly the recorded list when it is `ByParameters`.
- ClouddriverRouting.ClouddriverV2ServiceSelector.ShouldSelect: its `queries` are recorded in the same way, so that the Clouddriver flag is not asked when the global flag is off is read off the body, not checked by the verifier.
- `Criteria` carries other request attributes in the library; only the origin, the one `supports` reads, is modelled.
- Concurrency: neither class has any.
