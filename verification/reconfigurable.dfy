/** The reconfiguration orchestrator of the OpenTelemetry plugin, as a state machine.

    The orchestrator hands out tracer, logger and event-logger providers that are
    created once and never replaced: reconfiguring only swaps the delegate each of
    them forwards to. The meter provider is different: every `Configure` allocates
    a new one. `Configure` always closes the current backend first, then installs
    either a real SDK (when an exporter is configured) or the no-op backend, and
    finally runs the post-configuration hook.

    The SDK autoconfiguration is a foreign library: the SDK it builds, the resource
    it detects and the configuration it computes are inputs of the model. So are the
    registered lifecycle listeners and the outcome of the bounded shutdown wait. */
module ReconfigurableOpenTelemetry {
  import opened Wrappers
  import opened Listeners

  /** Resource attributes, keyed by attribute name. */
  type Attributes = map<string, string>

  /** The configuration the SDK computed from the properties, treated as opaque. */
  type ConfigProperties = map<string, string>

  /** The identity of a heap object, as Java's reference equality sees it. */
  type ObjectId = nat

  /** The identity of an OpenTelemetry SDK instance built by the autoconfiguration. */
  type SdkHandle = nat

  /** The backend currently in use: the no-op implementation or a built SDK. */
  datatype Backend = NoOp | Sdk(sdk: SdkHandle)

  /** What a provider wrapper forwards to: a no-op provider or one owned by an SDK. */
  datatype Delegate = NoOpDelegate | SdkDelegate(sdk: SdkHandle)

  /** A provider wrapper: a stable object whose delegate slot can be swapped. */
  datatype Provider = Provider(identity: ObjectId, delegate: Delegate)

  /** The observable side effects of the orchestrator, in the order they happen. */
  datatype Effect =
    | MeterProviderClosed(meterProvider: ObjectId)
    | ListenerNotified(listener: Listener)
    | SdkShutdownAttempted(sdk: SdkHandle)
    | SdkShutdownFailureLogged(sdk: SdkHandle)
    | PostConfigurationCalled

  /** The error raised by an accessor whose field is still `null`. */
  datatype Error = NullReference

  /** What the host contributes to a close: the lifecycle listeners registered at
      that moment, and whether the SDK shutdown completes successfully within its
      one-second wait. */
  datatype Host = Host(listeners: seq<Listener>, shutdownSucceeds: bool)

  /** What the OpenTelemetry SDK library contributes to a configure: the SDK built by
      autoconfiguration, the resource it detected, the configuration it computed, and
      the library's default resource. */
  datatype AutoConfiguration = AutoConfiguration(
    sdk: SdkHandle,
    detectedResource: Attributes,
    computedConfig: ConfigProperties,
    defaultResource: Attributes)

  /** The orchestrator's fields, plus an allocation counter for fresh object
      identities and the trace of side effects so far. */
  datatype State = State(
    backend: Backend,
    resource: Option<Attributes>,
    config: Option<ConfigProperties>,
    meterProvider: Provider,
    tracerProvider: Provider,
    loggerProvider: Provider,
    eventLoggerProvider: Provider,
    nextObjectId: ObjectId,
    effects: seq<Effect>)

  /** The property keys whose presence selects the SDK backend. */
  const ExporterKeys: set<string> :=
    {"otel.exporter.otlp.endpoint", "otel.traces.exporter", "otel.metrics.exporter", "otel.logs.exporter"}

  /** The configuration stored by the no-op branch: no entries at all. */
  const EmptyConfig: ConfigProperties := map[]

  /** The properties configure an exporter when they mention any exporter key. */
  predicate ConfiguresExporter(properties: map<string, string>) {
    properties.Keys * ExporterKeys != {}
  }

  lemma ConfiguresExporterNamesKeys(properties: map<string, string>)
    ensures ConfiguresExporter(properties) <==>
      || "otel.exporter.otlp.endpoint" in properties
      || "otel.traces.exporter" in properties
      || "otel.metrics.exporter" in properties
      || "otel.logs.exporter" in properties
  {
    if ConfiguresExporter(properties) {
      var k :| k in properties.Keys * ExporterKeys;
    } else {
      assert "otel.exporter.otlp.endpoint" !in properties.Keys * ExporterKeys;
      assert "otel.traces.exporter" !in properties.Keys * ExporterKeys;
      assert "otel.metrics.exporter" !in properties.Keys * ExporterKeys;
      assert "otel.logs.exporter" !in properties.Keys * ExporterKeys;
    }
  }

  /** Every delegate slot agrees with the backend: all no-op for the no-op backend,
      all owned by the SDK for an SDK backend. */
  predicate DelegatesFollow(backend: Backend, s: State) {
    var d := if backend.Sdk? then SdkDelegate(backend.sdk) else NoOpDelegate;
    && s.meterProvider.delegate == d
    && s.tracerProvider.delegate == d
    && s.loggerProvider.delegate == d
    && s.eventLoggerProvider.delegate == d
  }

  /** The invariant of every reachable state. */
  predicate Valid(s: State) {
    && s.meterProvider.identity < s.nextObjectId
    && s.tracerProvider.identity < s.nextObjectId
    && s.loggerProvider.identity < s.nextObjectId
    && s.eventLoggerProvider.identity < s.nextObjectId
    && s.meterProvider.identity != s.tracerProvider.identity
    && s.meterProvider.identity != s.loggerProvider.identity
    && s.meterProvider.identity != s.eventLoggerProvider.identity
    && s.tracerProvider.identity != s.loggerProvider.identity
    && s.tracerProvider.identity != s.eventLoggerProvider.identity
    && s.loggerProvider.identity != s.eventLoggerProvider.identity
    && DelegatesFollow(s.backend, s)
    && (s.resource.Some? <==> s.config.Some?)
    && (s.backend.Sdk? ==> s.resource.Some?)
  }

  /** A freshly constructed orchestrator: no-op backend, every delegate no-op,
      no resource and no config yet. */
  function Init(): (r: State)
    ensures r.backend == NoOp && r.resource == None && r.config == None
    ensures r.effects == []
    ensures Valid(r)
  {
    // Identities follow the field initialisers: meter, tracer, event logger, logger.
    State(NoOp, None, None,
          Provider(0, NoOpDelegate),
          Provider(1, NoOpDelegate), Provider(3, NoOpDelegate), Provider(2, NoOpDelegate),
          4, [])
  }

  /** The resource stored on the SDK branch: the detected attributes overlaid with
      the supplied ones, so that a supplied value wins on a shared key. */
  function Overlay(detected: Attributes, supplied: Attributes): (r: Attributes)
    ensures forall k :: k in supplied ==> k in r && r[k] == supplied[k]
    ensures forall k :: k in detected && k !in supplied ==> k in r && r[k] == detected[k]
    ensures forall k :: k in r ==> k in supplied || k in detected
  {
    detected + supplied
  }

  /** The notifications of the listeners in `ls`, one per listener, in order. */
  function Notifications(ls: seq<Listener>): seq<Effect>
    decreases |ls|
  {
    if ls == [] then [] else [ListenerNotified(ls[0])] + Notifications(ls[1..])
  }

  /** The listener an effect notifies, if any. */
  function NotifiedBy(x: Effect): seq<Listener> {
    if x.ListenerNotified? then [x.listener] else []
  }

  /** The listeners notified in an effect trace, in order. */
  function NotifiedListeners(e: seq<Effect>): seq<Listener>
    decreases |e|
  {
    if e == [] then [] else NotifiedBy(e[0]) + NotifiedListeners(e[1..])
  }

  /** The effects of the shutdown step of a close: an attempt only for an SDK
      backend, followed by a logged warning when the shutdown does not succeed. */
  function ShutdownEffects(backend: Backend, succeeds: bool): seq<Effect> {
    if backend.Sdk? then
      [SdkShutdownAttempted(backend.sdk)] + (if succeeds then [] else [SdkShutdownFailureLogged(backend.sdk)])
    else []
  }

  /** The side effects of one close of state `s`. */
  function CloseEffects(s: State, host: Host): seq<Effect> {
    [MeterProviderClosed(s.meterProvider.identity)]
    + Notifications(SortByRank(host.listeners))
    + ShutdownEffects(s.backend, host.shutdownSucceeds)
  }

  /** Closes the current backend. Never raises, changes no field and appends the
      close effects to the trace; nothing guards against a repeated close. */
  function Close(s: State, host: Host): (r: State)
    ensures r.(effects := s.effects) == s
    ensures r.effects == s.effects + CloseEffects(s, host)
  {
    s.(effects := s.effects + CloseEffects(s, host))
  }

  /** Closes the current backend and installs a new one chosen by the properties. */
  function Configure(s: State, properties: map<string, string>, resource: Attributes,
                     host: Host, auto: AutoConfiguration): (r: State)
    ensures r.backend.Sdk? <==>
      || "otel.exporter.otlp.endpoint" in properties
      || "otel.traces.exporter" in properties
      || "otel.metrics.exporter" in properties
      || "otel.logs.exporter" in properties
    ensures r.backend.Sdk? ==>
      && r.backend.sdk == auto.sdk
      && r.resource == Some(Overlay(auto.detectedResource, resource))
      && r.config == Some(auto.computedConfig)
      && DelegatesFollow(Sdk(auto.sdk), r)
    ensures r.backend.NoOp? ==>
      && r.resource == Some(auto.defaultResource)
      && r.config == Some(EmptyConfig)
      && DelegatesFollow(NoOp, r)
    ensures r.tracerProvider.identity == s.tracerProvider.identity
    ensures r.loggerProvider.identity == s.loggerProvider.identity
    ensures r.eventLoggerProvider.identity == s.eventLoggerProvider.identity
    ensures s.nextObjectId <= r.meterProvider.identity < r.nextObjectId
    ensures r.effects == Close(s, host).effects + [PostConfigurationCalled]
  {
    ConfiguresExporterNamesKeys(properties);
    var closed := Close(s, host);
    var meterId := closed.nextObjectId;
    var installed :=
      if ConfiguresExporter(properties) then
        var d := SdkDelegate(auto.sdk);
        closed.(backend := Sdk(auto.sdk),
                config := Some(auto.computedConfig),
                resource := Some(Overlay(auto.detectedResource, resource)),
                tracerProvider := closed.tracerProvider.(delegate := d),
                meterProvider := Provider(meterId, d),
                loggerProvider := closed.loggerProvider.(delegate := d),
                eventLoggerProvider := closed.eventLoggerProvider.(delegate := d))
      else
        closed.(backend := NoOp,
                resource := Some(auto.defaultResource),
                config := Some(EmptyConfig),
                tracerProvider := closed.tracerProvider.(delegate := NoOpDelegate),
                meterProvider := Provider(meterId, NoOpDelegate),
                loggerProvider := closed.loggerProvider.(delegate := NoOpDelegate),
                eventLoggerProvider := closed.eventLoggerProvider.(delegate := NoOpDelegate));
    installed.(nextObjectId := meterId + 1,
               effects := installed.effects + [PostConfigurationCalled])
  }

  /** The resource accessor: fails while the resource is still `null`. */
  function GetResource(s: State): (r: Result<Attributes, Error>)
    ensures r.Failure? <==> s.resource.None?
    ensures r.Success? ==> Some(r.value) == s.resource
  {
    match s.resource
    case None => Failure(NullReference)
    case Some(a) => Success(a)
  }

  /** The config accessor: fails while the config is still `null`. */
  function GetConfig(s: State): (r: Result<ConfigProperties, Error>)
    ensures r.Failure? <==> s.config.None?
    ensures r.Success? ==> Some(r.value) == s.config
  {
    match s.config
    case None => Failure(NullReference)
    case Some(c) => Success(c)
  }

  /** The provider objects handed to callers by `getTracerProvider`,
      `getMeterProvider`, `getLogsBridge` and `getEventLoggerProvider`: each returns
      the object in its field, never a delegate. */
  function GetTracerProvider(s: State): ObjectId { s.tracerProvider.identity }
  function GetMeterProvider(s: State): ObjectId { s.meterProvider.identity }
  function GetLogsBridge(s: State): ObjectId { s.loggerProvider.identity }
  function GetEventLoggerProvider(s: State): ObjectId { s.eventLoggerProvider.identity }

  /** A call the host makes on the orchestrator. */
  datatype Call =
    | ConfigureCall(properties: map<string, string>, resource: Attributes, host: Host, auto: AutoConfiguration)
    | CloseCall(host: Host)

  /** The state after one call. */
  function Step(s: State, c: Call): State {
    match c
    case ConfigureCall(p, res, h, a) => Configure(s, p, res, h, a)
    case CloseCall(h) => Close(s, h)
  }

  /** The state after the calls, made one after another. */
  function Run(s: State, calls: seq<Call>): State
    decreases |calls|
  {
    if calls == [] then s else Run(Step(s, calls[0]), calls[1..])
  }

  /** Some call in the sequence is a configure. */
  predicate HasConfigure(calls: seq<Call>) {
    exists i :: 0 <= i < |calls| && calls[i].ConfigureCall?
  }

  /** Number of occurrences of `x` in `e`. */
  function Count(e: seq<Effect>, x: Effect): nat
    decreases |e|
  {
    if e == [] then 0 else (if e[0] == x then 1 else 0) + Count(e[1..], x)
  }

  // ---------------------------------------------------------------------------
  // Helper facts about traces and call sequences

  lemma {:induction false} NotifiedListenersAppend(a: seq<Effect>, b: seq<Effect>)
    ensures NotifiedListeners(a + b) == NotifiedListeners(a) + NotifiedListeners(b)
    decreases |a|
  {
    if a == [] {
      assert a + b == b;
    } else {
      var ab := a + b;
      assert ab[0] == a[0];
      assert ab[1..] == a[1..] + b;
      NotifiedListenersAppend(a[1..], b);
      calc {
        NotifiedListeners(ab);
        NotifiedBy(a[0]) + NotifiedListeners(a[1..] + b);
        NotifiedBy(a[0]) + (NotifiedListeners(a[1..]) + NotifiedListeners(b));
        (NotifiedBy(a[0]) + NotifiedListeners(a[1..])) + NotifiedListeners(b);
      }
    }
  }

  lemma {:induction false} CountAppend(a: seq<Effect>, b: seq<Effect>, x: Effect)
    ensures Count(a + b, x) == Count(a, x) + Count(b, x)
    decreases |a|
  {
    if a == [] {
      assert a + b == b;
    } else {
      assert (a + b)[1..] == a[1..] + b;
      CountAppend(a[1..], b, x);
    }
  }

  lemma {:induction false} NotificationsOnlyNotify(ls: seq<Listener>)
    ensures |Notifications(ls)| == |ls|
    ensures forall i :: 0 <= i < |ls| ==> Notifications(ls)[i] == ListenerNotified(ls[i])
    ensures NotifiedListeners(Notifications(ls)) == ls
    decreases |ls|
  {
    if ls != [] {
      NotificationsOnlyNotify(ls[1..]);
      assert ([ListenerNotified(ls[0])] + Notifications(ls[1..]))[1..] == Notifications(ls[1..]);
    }
  }

  lemma {:induction false} CountAbsent(e: seq<Effect>, x: Effect)
    requires x !in e
    ensures Count(e, x) == 0
    decreases |e|
  {
    if e != [] {
      assert x !in e[1..];
      CountAbsent(e[1..], x);
    }
  }

  lemma HasConfigureCons(calls: seq<Call>)
    requires calls != []
    ensures HasConfigure(calls) <==> calls[0].ConfigureCall? || HasConfigure(calls[1..])
  {
    if HasConfigure(calls[1..]) {
      var i :| 0 <= i < |calls[1..]| && calls[1..][i].ConfigureCall?;
      assert calls[i + 1].ConfigureCall?;
    }
    if HasConfigure(calls) && !calls[0].ConfigureCall? {
      var i :| 0 <= i < |calls| && calls[i].ConfigureCall?;
      assert calls[1..][i - 1].ConfigureCall?;
    }
  }

  /** The shutdown step is empty for the no-op backend, one attempt after a
      successful SDK shutdown, and an attempt plus a warning after a failed one. */
  lemma ShutdownEffectsLayout(backend: Backend, succeeds: bool)
    ensures var t := ShutdownEffects(backend, succeeds);
      |t| == (if backend.Sdk? then (if succeeds then 1 else 2) else 0)
    ensures var t := ShutdownEffects(backend, succeeds);
      forall i :: 0 <= i < |t| ==> t[i].SdkShutdownAttempted? || t[i].SdkShutdownFailureLogged?
    ensures NotifiedListeners(ShutdownEffects(backend, succeeds)) == []
  {
    var t := ShutdownEffects(backend, succeeds);
    if backend.Sdk? && !succeeds {
      assert t[1..] == [SdkShutdownFailureLogged(backend.sdk)];
      assert t[1..][1..] == [];
      assert NotifiedListeners(t[1..]) == [];
    } else if backend.Sdk? {
      assert t[1..] == [];
    }
  }

  /** The layout of one close's effects: the meter-provider close, one notification
      per listener, then the shutdown attempt and its failure log, if any. */
  lemma CloseEffectsLayout(s: State, host: Host)
    ensures |CloseEffects(s, host)| == 1 + |host.listeners| + |ShutdownEffects(s.backend, host.shutdownSucceeds)|
    ensures CloseEffects(s, host)[0] == MeterProviderClosed(s.meterProvider.identity)
    ensures forall i :: 1 <= i <= |host.listeners| ==> CloseEffects(s, host)[i].ListenerNotified?
    ensures CloseEffects(s, host)[1 + |host.listeners|..] == ShutdownEffects(s.backend, host.shutdownSucceeds)
    ensures forall x :: x in CloseEffects(s, host)[1 + |host.listeners|..] ==>
      x.SdkShutdownAttempted? || x.SdkShutdownFailureLogged?
  {
    var sorted := SortByRank(host.listeners);
    assert |sorted| == |host.listeners| by {
      assert |multiset(sorted)| == |multiset(host.listeners)|;
    }
    var m := [MeterProviderClosed(s.meterProvider.identity)];
    var n := Notifications(sorted);
    NotificationsOnlyNotify(sorted);
    var tail := ShutdownEffects(s.backend, host.shutdownSucceeds);
    ShutdownEffectsLayout(s.backend, host.shutdownSucceeds);
    var e := CloseEffects(s, host);
    assert e == m + n + tail;
    forall i | 1 <= i <= |n| ensures e[i].ListenerNotified? {
      assert e[i] == n[i - 1];
    }
    assert e[1 + |n|..] == tail;
  }

  /** The listeners one close notifies are the sorted registered listeners. */
  lemma CloseNotifiedListeners(s: State, host: Host)
    ensures NotifiedListeners(CloseEffects(s, host)) == SortByRank(host.listeners)
  {
    var sorted := SortByRank(host.listeners);
    var m := [MeterProviderClosed(s.meterProvider.identity)];
    var n := Notifications(sorted);
    var tail := ShutdownEffects(s.backend, host.shutdownSucceeds);
    NotificationsOnlyNotify(sorted);
    ShutdownEffectsLayout(s.backend, host.shutdownSucceeds);
    assert CloseEffects(s, host) == m + n + tail;
    NotifiedListenersAppend(m, n);
    NotifiedListenersAppend(m + n, tail);
    assert NotifiedListeners(m) == [] by {
      assert m[1..] == [];
    }
  }

  /** In a trace laid out as one meter-provider close, `n` notifications and then
      shutdown effects, each position holds the kind of effect of its step. */
  lemma EffectKinds(e: seq<Effect>, n: nat)
    requires |e| >= 1 + n
    requires e[0].MeterProviderClosed?
    requires forall i :: 1 <= i <= n ==> e[i].ListenerNotified?
    requires forall x :: x in e[1 + n..] ==> x.SdkShutdownAttempted? || x.SdkShutdownFailureLogged?
    ensures forall i :: 0 <= i < |e| ==> (i == 0 <==> e[i].MeterProviderClosed?)
    ensures forall i :: 0 <= i < |e| ==> (1 <= i <= n <==> e[i].ListenerNotified?)
    ensures forall i :: 0 <= i < |e| ==> (i > n <==> e[i].SdkShutdownAttempted? || e[i].SdkShutdownFailureLogged?)
  {
    forall i | n < i < |e| ensures e[i].SdkShutdownAttempted? || e[i].SdkShutdownFailureLogged? {
      assert e[i] == e[1 + n..][i - 1 - n];
    }
  }

  /** The step order of a close, for any trace laid out as a close lays out its
      effects: `n` notifications after the meter-provider close, then the shutdown. */
  lemma StepOrderOfLayout(e: seq<Effect>, n: nat, meterProvider: ObjectId, backend: Backend, succeeds: bool)
    requires |e| == 1 + n + (if backend.Sdk? then (if succeeds then 1 else 2) else 0)
    requires e[0] == MeterProviderClosed(meterProvider)
    requires forall i :: 1 <= i <= n ==> e[i].ListenerNotified?
    requires e[1 + n..] == ShutdownEffects(backend, succeeds)
    ensures forall i :: 0 < i < |e| ==> !e[i].MeterProviderClosed?
    ensures forall i, j ::
      (&& 0 <= i < |e| && 0 <= j < |e| && e[i].ListenerNotified?
       && (e[j].SdkShutdownAttempted? || e[j].SdkShutdownFailureLogged?))
      ==> i < j
    ensures (exists i :: 0 <= i < |e| && e[i].SdkShutdownAttempted?) <==> backend.Sdk?
    ensures backend.Sdk? ==> SdkShutdownAttempted(backend.sdk) in e
    ensures (exists i :: 0 <= i < |e| && e[i].SdkShutdownFailureLogged?) <==> backend.Sdk? && !succeeds
    ensures forall i, j ::
      (&& 0 <= i < |e| && 0 <= j < |e| && e[i].SdkShutdownAttempted? && e[j].SdkShutdownFailureLogged?)
      ==> i < j
    ensures forall i :: 0 <= i < |e| && e[i].SdkShutdownAttempted? ==> backend.Sdk? && e[i].sdk == backend.sdk
    ensures forall i :: 0 <= i < |e| && e[i].SdkShutdownFailureLogged? ==> backend.Sdk? && e[i].sdk == backend.sdk
    ensures PostConfigurationCalled !in e
  {
    ShutdownEffectsLayout(backend, succeeds);
    EffectKinds(e, n);
    forall i | n < i < |e| ensures e[i] == ShutdownEffects(backend, succeeds)[i - 1 - n] {
      assert e[i] == e[1 + n..][i - 1 - n];
    }
    if backend.Sdk? {
      assert e[n + 1] == e[1 + n..][0];
      if !succeeds {
        assert e[n + 2] == e[1 + n..][1];
      } else {
        assert forall i :: 0 <= i < |e| ==> !e[i].SdkShutdownFailureLogged?;
      }
    }
  }

  // ---------------------------------------------------------------------------
  // Properties of the orchestrator

  /** One close notifies every registered listener exactly once, in sorted order,
      keeping the registration order among listeners of equal rank. */
  lemma CloseNotifiesInSortedOrder(s: State, host: Host)
    ensures SortedByRank(NotifiedListeners(CloseEffects(s, host)))
    ensures multiset(NotifiedListeners(CloseEffects(s, host))) == multiset(host.listeners)
    ensures forall k :: WithRank(NotifiedListeners(CloseEffects(s, host)), k) == WithRank(host.listeners, k)
  {
    CloseNotifiedListeners(s, host);
  }

  /** One close first closes the current meter provider (and only that one, once),
      then notifies the listeners, and only then attempts the SDK shutdown, which
      happens exactly when the backend is an SDK; a failed shutdown is only logged.
      Close never calls the post-configuration hook. */
  lemma CloseStepOrder(s: State, host: Host)
    ensures var e := CloseEffects(s, host);
      && e[0] == MeterProviderClosed(s.meterProvider.identity)
      && (forall i :: 0 < i < |e| ==> !e[i].MeterProviderClosed?)
      && (forall i, j ::
            (&& 0 <= i < |e| && 0 <= j < |e| && e[i].ListenerNotified?
             && (e[j].SdkShutdownAttempted? || e[j].SdkShutdownFailureLogged?))
            ==> i < j)
      && ((exists i :: 0 <= i < |e| && e[i].SdkShutdownAttempted?) <==> s.backend.Sdk?)
      && (s.backend.Sdk? ==> SdkShutdownAttempted(s.backend.sdk) in e)
      && ((exists i :: 0 <= i < |e| && e[i].SdkShutdownFailureLogged?) <==> s.backend.Sdk? && !host.shutdownSucceeds)
      && (forall i, j ::
            (&& 0 <= i < |e| && 0 <= j < |e| && e[i].SdkShutdownAttempted? && e[j].SdkShutdownFailureLogged?)
            ==> i < j)
      && (forall i :: 0 <= i < |e| && e[i].SdkShutdownAttempted? ==> s.backend.Sdk? && e[i].sdk == s.backend.sdk)
      && (forall i :: 0 <= i < |e| && e[i].SdkShutdownFailureLogged? ==> s.backend.Sdk? && e[i].sdk == s.backend.sdk)
      && PostConfigurationCalled !in e
  {
    CloseEffectsLayout(s, host);
    ShutdownEffectsLayout(s.backend, host.shutdownSucceeds);
    StepOrderOfLayout(CloseEffects(s, host), |host.listeners|, s.meterProvider.identity,
                      s.backend, host.shutdownSucceeds);
  }

  /** `close` is not idempotent: closing twice repeats the whole close sequence,
      re-closing the same meter provider, re-notifying every listener and
      re-attempting the SDK shutdown, because close changes nothing it inspects. */
  lemma CloseTwiceRepeats(s: State, host: Host)
    ensures var once := Close(s, host);
      var e := once.effects[|s.effects|..];
      && Close(once, host).effects == s.effects + e + e
      && Close(once, host).(effects := s.effects) == s
      && Close(once, host) != once
  {
    var once := Close(s, host);
    assert once.effects[|s.effects|..] == CloseEffects(s, host);
    assert CloseEffects(once, host) == CloseEffects(s, host);
    assert |Close(once, host).effects| > |once.effects|;
  }

  /** Configure runs a close of the previous state before anything it installs,
      and calls the post-configuration hook exactly once, as its last effect. */
  lemma ConfigureClosesFirstAndHooksLast(s: State, properties: map<string, string>, resource: Attributes,
                                         host: Host, auto: AutoConfiguration)
    ensures var r := Configure(s, properties, resource, host, auto);
      && |r.effects| == |s.effects| + |CloseEffects(s, host)| + 1
      && r.effects[..|s.effects|] == s.effects
      && r.effects[|s.effects|..|r.effects| - 1] == CloseEffects(s, host)
      && r.effects[|r.effects| - 1] == PostConfigurationCalled
      && Count(r.effects, PostConfigurationCalled) == Count(s.effects, PostConfigurationCalled) + 1
  {
    var r := Configure(s, properties, resource, host, auto);
    var c := CloseEffects(s, host);
    assert r.effects == s.effects + c + [PostConfigurationCalled];
    CloseStepOrder(s, host);
    CountAbsent(c, PostConfigurationCalled);
    CountAppend(s.effects + c, [PostConfigurationCalled], PostConfigurationCalled);
    CountAppend(s.effects, c, PostConfigurationCalled);
    assert Count([PostConfigurationCalled], PostConfigurationCalled) == 1 by {
      assert [PostConfigurationCalled][1..] == [];
    }
  }

  /** Every call keeps the state invariant. */
  lemma StepPreservesValid(s: State, c: Call)
    requires Valid(s)
    ensures Valid(Step(s, c))
  {
  }

  /** Every sequence of calls from a valid state ends in a valid state. */
  lemma {:induction false} RunPreservesValid(s: State, calls: seq<Call>)
    requires Valid(s)
    ensures Valid(Run(s, calls))
    decreases |calls|
  {
    if calls != [] {
      StepPreservesValid(s, calls[0]);
      RunPreservesValid(Step(s, calls[0]), calls[1..]);
    }
  }

  /** `getTracerProvider` hands out the same object after any sequence of calls. */
  lemma {:induction false} TracerProviderHandedOutStable(s: State, calls: seq<Call>)
    ensures GetTracerProvider(Run(s, calls)) == GetTracerProvider(s)
    decreases |calls|
  {
    if calls != [] {
      TracerProviderHandedOutStable(Step(s, calls[0]), calls[1..]);
    }
  }

  /** `getLogsBridge` hands out the same object after any sequence of calls. */
  lemma {:induction false} LogsBridgeHandedOutStable(s: State, calls: seq<Call>)
    ensures GetLogsBridge(Run(s, calls)) == GetLogsBridge(s)
    decreases |calls|
  {
    if calls != [] {
      LogsBridgeHandedOutStable(Step(s, calls[0]), calls[1..]);
    }
  }

  /** `getEventLoggerProvider` hands out the same object after any sequence of calls. */
  lemma {:induction false} EventLoggerProviderHandedOutStable(s: State, calls: seq<Call>)
    ensures GetEventLoggerProvider(Run(s, calls)) == GetEventLoggerProvider(s)
    decreases |calls|
  {
    if calls != [] {
      EventLoggerProviderHandedOutStable(Step(s, calls[0]), calls[1..]);
    }
  }

  /** The tracer, logger and event-logger providers handed out are the same
      objects after any sequence of configure and close calls, and they stay three
      distinct objects. */
  lemma ProviderIdentityStable(s: State, calls: seq<Call>)
    ensures GetTracerProvider(Run(s, calls)) == GetTracerProvider(s)
    ensures GetLogsBridge(Run(s, calls)) == GetLogsBridge(s)
    ensures GetEventLoggerProvider(Run(s, calls)) == GetEventLoggerProvider(s)
    ensures Valid(s) ==>
      && GetTracerProvider(Run(s, calls)) != GetLogsBridge(Run(s, calls))
      && GetTracerProvider(Run(s, calls)) != GetEventLoggerProvider(Run(s, calls))
      && GetLogsBridge(Run(s, calls)) != GetEventLoggerProvider(Run(s, calls))
  {
    TracerProviderHandedOutStable(s, calls);
    LogsBridgeHandedOutStable(s, calls);
    EventLoggerProviderHandedOutStable(s, calls);
  }

  /** `getMeterProvider` hands out a new object after one configure, on either
      branch, and the same object after one close. */
  lemma MeterProviderHandedOutPerConfigure(s: State, properties: map<string, string>, resource: Attributes,
                                           host: Host, auto: AutoConfiguration)
    requires Valid(s)
    ensures GetMeterProvider(Configure(s, properties, resource, host, auto)) != GetMeterProvider(s)
    ensures GetMeterProvider(Close(s, host)) == GetMeterProvider(s)
    ensures GetMeterProvider(Configure(s, properties, resource, host, auto)) != GetTracerProvider(s)
  {
  }

  /** The meter provider object is replaced on every configure, by one never
      handed out before and distinct from the other providers; close keeps it. */
  lemma {:induction false} MeterProviderReplacedIffConfigured(s: State, calls: seq<Call>)
    requires Valid(s)
    ensures HasConfigure(calls) ==> GetMeterProvider(Run(s, calls)) >= s.nextObjectId
    ensures !HasConfigure(calls) ==> Run(s, calls).meterProvider == s.meterProvider
    ensures GetMeterProvider(Run(s, calls)) == GetMeterProvider(s) <==> !HasConfigure(calls)
    ensures GetMeterProvider(Run(s, calls)) != GetTracerProvider(Run(s, calls))
    decreases |calls|
  {
    RunPreservesValid(s, calls);
    if calls != [] {
      var t := Step(s, calls[0]);
      StepPreservesValid(s, calls[0]);
      MeterProviderReplacedIffConfigured(t, calls[1..]);
      HasConfigureCons(calls);
      assert s.nextObjectId <= t.nextObjectId;
    }
  }

  /** Before any configure the resource and config accessors fail; after any
      configure, on either branch, both succeed, and later closes keep it so. */
  lemma AccessorsSucceedIffConfigured(calls: seq<Call>)
    ensures GetResource(Run(Init(), calls)).Success? <==> HasConfigure(calls)
    ensures GetConfig(Run(Init(), calls)).Success? <==> HasConfigure(calls)
  {
    ConfiguredStaysConfigured(Init(), calls);
  }

  /** Resource and config become present with the first configure and stay so. */
  lemma {:induction false} ConfiguredStaysConfigured(s: State, calls: seq<Call>)
    ensures Run(s, calls).resource.Some? <==> s.resource.Some? || HasConfigure(calls)
    ensures Run(s, calls).config.Some? <==> s.config.Some? || HasConfigure(calls)
    decreases |calls|
  {
    if calls != [] {
      var t := Step(s, calls[0]);
      ConfiguredStaysConfigured(t, calls[1..]);
      HasConfigureCons(calls);
    }
  }
}
