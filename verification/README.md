# Reconfigurable OpenTelemetry core — a Dafny model

This project models two sequential pieces of the Jenkins OpenTelemetry plugin and
proves properties of them with Dafny.

**The reconfiguration orchestrator** (`ReconfigurableOpenTelemetry`). It hands out
tracer, logger and event-logger providers that are created once. Reconfiguring only
swaps the delegate each of them forwards to. It also hands out a meter provider,
which is replaced on every reconfiguration. `configure(properties, resource)` has
three steps:

1. It closes the current backend.
2. It installs a backend. This is an OpenTelemetry SDK when the properties name an
   exporter, and the no-op backend otherwise.
3. It runs the post-configuration hook.

`close` has three steps:

1. It closes the meter provider.
2. It notifies the lifecycle listeners in sorted order.
3. It shuts the SDK down, when there is one. A failed shutdown is only logged.

The orchestrator is modelled as an immutable `State` with pure `Configure` and
`Close` transitions. The state holds:

- the backend;
- the optional resource and config;
- the four providers, each an object identity plus a delegate slot;
- an allocation counter for fresh identities;
- the trace of side effects.

**The per-build attribute holder** (`OpenTelemetryAttributesAction`). It has a lazily
created attribute map and a lazily created set of span ids. The set has an
add-and-report operation. It is modelled as a generic datatype with two optional
fields and pure operations that return the updated holder.

Files:

- `wrappers.dfy`: `Option` and `Result`.
- `listeners.dfy`: lifecycle listeners and their stable sort by rank.
- `reconfigurable.dfy`: the orchestrator.
- `attributes_action.dfy`: the attribute holder.

Inputs that the model treats as opaque parameters:

- The SDK autoconfiguration is a foreign library. The SDK it builds, the resource
  it detects, the config it computes and the library's default resource are
  parameters (`AutoConfiguration`).
- The registered listeners and the outcome of the one-second shutdown wait are
  parameters of every close (`Host`). The wait's outcome is a free boolean.
- The listener interface is not part of this model. Its natural ordering is
  abstracted as an integer `rank`. Sorting an ordered Java stream is stable, so the
  model sorts stably.

`close` (ReconfigurableOpenTelemetry.java:152-173) has no guard and keeps no closed
flag. A second close closes the meter provider again, notifies every listener again
and attempts the SDK shutdown again (`CloseTwiceRepeats`). `close` changes no field
of the orchestrator.

## Model

| member | source | states |
|---|---|---|
| `ReconfigurableOpenTelemetry.Init` | src/main/java/io/jenkins/plugins/opentelemetry/opentelemetry/ReconfigurableOpenTelemetry.java:62-68 | A new orchestrator uses the no-op backend. Resource and config are `null`. Every delegate is no-op. The state invariant holds: the four providers are distinct objects, numbered in the order the fields are initialised. |
| `ReconfigurableOpenTelemetry.Configure` | src/main/java/io/jenkins/plugins/opentelemetry/opentelemetry/ReconfigurableOpenTelemetry.java:90-150 | The SDK backend is chosen iff one of `otel.exporter.otlp.endpoint`, `otel.traces.exporter`, `otel.metrics.exporter`, `otel.logs.exporter` is a property key. An empty map is no error: it gives the no-op backend. The SDK branch stores the overlaid resource and the computed config, and routes all four delegates to the new SDK. The no-op branch stores the default resource and the empty config, and makes all delegates no-op. The tracer, logger and event-logger providers keep their identity. The meter provider is a freshly allocated object. The trace is the close of the old state followed by the hook. |
| `ReconfigurableOpenTelemetry.Overlay` | src/main/java/io/jenkins/plugins/opentelemetry/opentelemetry/ReconfigurableOpenTelemetry.java:110-116 | Every supplied key maps to its supplied value. Every detected key that is not supplied keeps its detected value. No other key is present. |
| `ReconfigurableOpenTelemetry.Close` | src/main/java/io/jenkins/plugins/opentelemetry/opentelemetry/ReconfigurableOpenTelemetry.java:152-173 | A failed or timed-out SDK shutdown never raises. Close leaves the backend, resource, config and every provider (identity and delegate) unchanged. It only appends the close effects to the trace. |
| `ReconfigurableOpenTelemetry.CloseStepOrder` | src/main/java/io/jenkins/plugins/opentelemetry/opentelemetry/ReconfigurableOpenTelemetry.java:156-170 | The first close effect closes the current meter provider, and no later effect closes one. Every listener notification comes before every shutdown effect. The shutdown is attempted iff the backend is an SDK. A failure is logged iff the backend is an SDK and the shutdown failed. A failure log comes after the attempt. The attempt and the log both name the backend's SDK. Close never runs the post-configuration hook. |
| `ReconfigurableOpenTelemetry.CloseNotifiesInSortedOrder` | src/main/java/io/jenkins/plugins/opentelemetry/opentelemetry/ReconfigurableOpenTelemetry.java:159-161 | The listeners notified by one close are in sorted order. They are a permutation of the registered listeners. Listeners of equal rank keep their registration order. |
| `Listeners.SortByRank` | src/main/java/io/jenkins/plugins/opentelemetry/opentelemetry/ReconfigurableOpenTelemetry.java:161 | The notification order is sorted by rank, a permutation of the input, and stable among equal ranks. |
| `Listeners.InsertIsStable` | src/main/java/io/jenkins/plugins/opentelemetry/opentelemetry/ReconfigurableOpenTelemetry.java:161 | Inserting a listener puts it ahead of the sorted listeners of its own rank. The relative order of every other rank stays the same. |
| `ReconfigurableOpenTelemetry.CloseTwiceRepeats` | src/main/java/io/jenkins/plugins/opentelemetry/opentelemetry/ReconfigurableOpenTelemetry.java:152-173 | A second close appends the same effects again: the meter provider is closed again, the listeners are notified again and the shutdown is attempted again. The fields stay the same. The state differs from the one after the first close, so close is not idempotent. |
| `ReconfigurableOpenTelemetry.ConfigureClosesFirstAndHooksLast` | src/main/java/io/jenkins/plugins/opentelemetry/opentelemetry/ReconfigurableOpenTelemetry.java:91-149 | Configure's new effects are, first, the close of the previous state and, last, the post-configuration hook. The hook's count grows by exactly one on both branches. |
| `ReconfigurableOpenTelemetry.GetResource` | src/main/java/io/jenkins/plugins/opentelemetry/opentelemetry/ReconfigurableOpenTelemetry.java:218-221 | It fails with a null reference iff no resource is stored. Otherwise it returns the stored resource. |
| `ReconfigurableOpenTelemetry.GetConfig` | src/main/java/io/jenkins/plugins/opentelemetry/opentelemetry/ReconfigurableOpenTelemetry.java:223-226 | It fails with a null reference iff no config is stored. Otherwise it returns the stored config. |
| `ReconfigurableOpenTelemetry.AccessorsSucceedIffConfigured` | src/main/java/io/jenkins/plugins/opentelemetry/opentelemetry/ReconfigurableOpenTelemetry.java:218-226 | From a new orchestrator, `getResource` and `getConfig` succeed after a sequence of calls iff that sequence holds a configure, on either branch. Closes never undo it. |
| `ReconfigurableOpenTelemetry.ConfiguredStaysConfigured` | src/main/java/io/jenkins/plugins/opentelemetry/opentelemetry/ReconfigurableOpenTelemetry.java:104-139 | After a sequence of calls, resource and config are present iff they were present before or the sequence holds a configure. |
| `ReconfigurableOpenTelemetry.ProviderIdentityStable` | src/main/java/io/jenkins/plugins/opentelemetry/opentelemetry/ReconfigurableOpenTelemetry.java:66-68 | The three wrapper fields are never reassigned: after any sequence of configure and close calls, `GetTracerProvider`, `GetLogsBridge` and `GetEventLoggerProvider` hand out the same objects as before, and from a valid state those stay three distinct objects. |
| `ReconfigurableOpenTelemetry.TracerProviderHandedOutStable` | src/main/java/io/jenkins/plugins/opentelemetry/opentelemetry/ReconfigurableOpenTelemetry.java:175-178 | `getTracerProvider` returns the same object after any sequence of configure and close calls. |
| `ReconfigurableOpenTelemetry.EventLoggerProviderHandedOutStable` | src/main/java/io/jenkins/plugins/opentelemetry/opentelemetry/ReconfigurableOpenTelemetry.java:200-202 | `getEventLoggerProvider` returns the same object after any sequence of configure and close calls. |
| `ReconfigurableOpenTelemetry.LogsBridgeHandedOutStable` | src/main/java/io/jenkins/plugins/opentelemetry/opentelemetry/ReconfigurableOpenTelemetry.java:228-231 | `getLogsBridge` returns the same logger-provider object after any sequence of configure and close calls. |
| `ReconfigurableOpenTelemetry.MeterProviderHandedOutPerConfigure` | src/main/java/io/jenkins/plugins/opentelemetry/opentelemetry/ReconfigurableOpenTelemetry.java:195-198 | `getMeterProvider` returns a different object after one configure, on either branch, and one distinct from the tracer provider. It returns the same object after one close. |
| `ReconfigurableOpenTelemetry.MeterProviderReplacedIffConfigured` | src/main/java/io/jenkins/plugins/opentelemetry/opentelemetry/ReconfigurableOpenTelemetry.java:128-142 | The meter provider handed out by `GetMeterProvider` changes iff the calls hold a configure. When it changes, it is an object never handed out before. Closes alone keep it. It is always distinct from the tracer provider. |
| `ReconfigurableOpenTelemetry.RunPreservesValid` | src/main/java/io/jenkins/plugins/opentelemetry/opentelemetry/ReconfigurableOpenTelemetry.java:123-144 | Every sequence of calls keeps the invariant. Every delegate follows the current backend. Resource and config are both present or both absent. An SDK backend implies a stored resource. The four provider identities are pairwise distinct and already allocated. |
| `OpenTelemetryAttributesAction.New` | src/main/java/io/jenkins/plugins/opentelemetry/OpenTelemetryAttributesAction.java:31-33 | A new holder has neither an attribute map nor a span-id set, so it records no span id. |
| `OpenTelemetryAttributesAction.FreshHolder` | src/main/java/io/jenkins/plugins/opentelemetry/OpenTelemetryAttributesAction.java:31-53 | On a new holder the first `getAttributes` creates and keeps an empty map. The first `isNotYetAppliedToSpan` with any id returns true and leaves exactly that id recorded. |
| `OpenTelemetryAttributesAction.GetAttributes` | src/main/java/io/jenkins/plugins/opentelemetry/OpenTelemetryAttributesAction.java:36-41 | The returned map is never absent. It is empty when none existed, and the existing map otherwise. The holder keeps the returned map. The recorded span ids are untouched. |
| `OpenTelemetryAttributesAction.PutAttribute` | src/main/java/io/jenkins/plugins/opentelemetry/OpenTelemetryAttributesAction.java:37-40 | A put through the returned map stores the key's value. It keeps every other existing entry, adds no other key and leaves the span ids alone. |
| `OpenTelemetryAttributesAction.AttributesPersist` | src/main/java/io/jenkins/plugins/opentelemetry/OpenTelemetryAttributesAction.java:37-40 | Once created, the map returned by `getAttributes` is returned again. An entry put through it is seen by the next lookup. |
| `OpenTelemetryAttributesAction.IsNotYetAppliedToSpan` | src/main/java/io/jenkins/plugins/opentelemetry/OpenTelemetryAttributesAction.java:43-53 | It returns true iff the id was not recorded. Afterwards the id is recorded and the set exists. No other id's membership changes. The attribute map is untouched. |
| `OpenTelemetryAttributesAction.SecondCallReportsApplied` | src/main/java/io/jenkins/plugins/opentelemetry/OpenTelemetryAttributesAction.java:52 | An immediate second call with the same id returns false and records nothing new. |
| `OpenTelemetryAttributesAction.ApplyAllReportsFirstOccurrences` | src/main/java/io/jenkins/plugins/opentelemetry/OpenTelemetryAttributesAction.java:43-53 | Over any sequence of calls, a call returns true exactly for the first occurrence of an id not recorded beforehand. The recorded set ends as the old set plus every id seen. The attribute map is untouched. |

## Left out

- Global registration in the constructor and the `resetForTest` calls at the end of close: these are process-wide static state and logging.
- The `AutoConfiguredOpenTelemetrySdk` builder chain is a foreign library. Its outputs are parameters. The model assumes the build does not fail. When the builder throws, the customizer callbacks may or may not already have stored resource and config, and that is not visible.
- `ReconfigurableOpenTelemetry.Close`: the meter provider's `close` and every listener's `beforeSdkShutdown` are assumed to return normally. In the source an exception from either propagates out of `close`. It skips the remaining notifications and the SDK shutdown, and inside `configure` it aborts before the new backend is installed. The model has no such path.
- The shutdown's one-second timed wait is real time. Its outcome is a free boolean.
- The lookup of listeners in the host's extension list is host state. The listeners are a parameter of each close. Their `compareTo` is abstracted as an integer rank.
- The tracer, logger and event-logger provider wrappers and the closeable meter provider are not part of this model. Each is an identity plus a delegate slot. Their initial delegates are taken to be no-op. What the meter provider's own `close` does internally is not modelled.
- Forwarding calls (`getTracer`, `tracerBuilder`, `getMeter`, `meterBuilder`, `getPropagators`, `getOpenTelemetryDelegate`) pass straight through to a provider or to the backend. Those classes are not part of this model.
- Concurrency and visibility: the source has no locking, so the model is sequential.
- Logging, `toString`, Java serialization and the `transient` reset on deserialization are left out.
- Typed attribute keys are left out. Resource attributes are a string map. The attribute holder's keys and values are abstract.
- The resource's schema URL is left out.
- A `null` supplied resource is not a separate input. The resource builder's `putAll` skips a `null` argument, so such a resource adds no attributes, as the empty map does (`Configure(s, p, map[], h, auto)`).
