/** The runtime host: paired adapters are registered, started in order, stopped in reverse order, and
    retried until every one has stopped. Source callbacks are adapter code, so an operation takes
    their outcomes as a parameter. */
module Lifecycle {
  import opened Core
  import opened Bridges
  import opened BridgeFacts
  import opened Interaction
  import Ingress

  type AdapterState = Ingress.AdapterState

  datatype Scope = Persistent | SourceGeneration

  datatype Endpoint = ProviderEndpoint(provider: ProviderId) | ChannelEndpoint(channel: ChannelId, scope: Scope)

  datatype Adapter = Adapter(endpoint: Endpoint, state: AdapterState)
  {
    predicate Unfinished() {
      state != Ingress.Stopped
    }
  }

  datatype HostState = Stopped | Started | StopFailed

  datatype AdapterResult = CallOk(endpoint: Endpoint) | CallFailed(endpoint: Endpoint) | CallSkipped(endpoint: Endpoint)

  datatype LifecycleOutcome =
    | AlreadyStarted
    | AlreadyStopped
    | CleanupRequired
    | BridgeAccessRefused
    | AllDone(results: seq<AdapterResult>)
    | AdapterFailures(results: seq<AdapterResult>)

  datatype HostError = HostNotStopped | EndpointTaken

  datatype Host = Host(state: HostState, adapters: seq<Adapter>, bridge: Bridge)

  /** Whether the start callback of adapter `i` succeeds, and the Bridge after what it did through its handle. */
  type StartSource = (nat, Bridge) -> (bool, Bridge)

  /** Whether the stop callback of adapter `i` succeeds; its handle is revoked, so the Bridge stays as it is. */
  type StopSource = nat -> bool

  /** Handles publish, act and subscribe; they never register endpoints. */
  function ThroughHandles(before: Bridge, after: Bridge): Bridge {
    after.(providers := before.providers, channels := before.channels)
  }

  predicate AnyFailed(results: seq<AdapterResult>) {
    exists i :: 0 <= i < |results| && results[i].CallFailed?
  }

  // ---------- Registration ----------

  function AddChannelAdapter(h: Host, d: ChannelDescriptor, scope: Scope): (Host, Outcome<HostError>) {
    if h.state != Stopped then (h, Fail(HostNotStopped))
    else
      var r := RegisterChannel(h.bridge, d);
      if r.result.Fail? then (h, Fail(EndpointTaken))
      else (Host(h.state, h.adapters + [Adapter(ChannelEndpoint(d.id, scope), Ingress.Stopped)], r.bridge), Pass)
  }

  function AddProviderAdapter(h: Host, d: ProviderDescriptor): (Host, Outcome<HostError>) {
    if h.state != Stopped then (h, Fail(HostNotStopped))
    else
      var r := Bridges.RegisterProvider(h.bridge, d);
      if r.result.Fail? then (h, Fail(EndpointTaken))
      else (Host(h.state, h.adapters + [Adapter(ProviderEndpoint(d.id), Ingress.Stopped)], r.bridge), Pass)
  }

  // ---------- Start ----------

  datatype StartProgress = StartProgress(adapters: seq<Adapter>, bridge: Bridge, results: seq<AdapterResult>)

  /** The first `n` adapters started, in registration order. */
  function StartFirst(adapters: seq<Adapter>, bridge: Bridge, source: StartSource, n: nat): (p: StartProgress)
    requires n <= |adapters|
    ensures |p.adapters| == |adapters|
  {
    if n == 0 then StartProgress(adapters, bridge, [])
    else
      var p := StartFirst(adapters, bridge, source, n - 1);
      var (ok, after) := source(n - 1, p.bridge);
      var a := p.adapters[n - 1];
      StartProgress(p.adapters[n - 1 := a.(state := if ok then Ingress.AdapterState.Running else Ingress.StartFailed)],
               ThroughHandles(p.bridge, after),
               p.results + [if ok then CallOk(a.endpoint) else CallFailed(a.endpoint)])
  }

  function StartHost(h: Host, source: StartSource): (Host, LifecycleOutcome) {
    match h.state
    case Started => (h, AlreadyStarted)
    case StopFailed => (h, CleanupRequired)
    case Stopped =>
      var p := StartFirst(h.adapters, h.bridge, source, |h.adapters|);
      (Host(Started, p.adapters, p.bridge),
       if AnyFailed(p.results) then AdapterFailures(p.results) else AllDone(p.results))
  }

  // ---------- Stop ----------

  function GenerationChannels(adapters: seq<Adapter>): seq<ChannelId> {
    if adapters == [] then []
    else
      var k := |adapters| - 1;
      var e := adapters[k].endpoint;
      GenerationChannels(adapters[..k]) +
        if e.ChannelEndpoint? && e.scope == SourceGeneration then [e.channel] else []
  }

  function UnsubscribeAll(b: Bridge, channels: seq<ChannelId>): Bridge {
    if channels == [] then b
    else UnsubscribeChannel(UnsubscribeAll(b, channels[..|channels| - 1]), channels[|channels| - 1]).bridge
  }

  /** The adapters from position `k` on stopped, the last one first; finished ones are skipped. */
  function StopFrom(adapters: seq<Adapter>, source: StopSource, k: nat): (r: (seq<Adapter>, seq<AdapterResult>))
    requires k <= |adapters|
    ensures |r.0| == |adapters|
    decreases |adapters| - k
  {
    if k == |adapters| then (adapters, [])
    else
      var (later, results) := StopFrom(adapters, source, k + 1);
      var a := later[k];
      if !a.Unfinished() then (later, results + [CallSkipped(a.endpoint)])
      else if source(k) then (later[k := a.(state := Ingress.Stopped)], results + [CallOk(a.endpoint)])
      else (later[k := a.(state := Ingress.StopFailed)], results + [CallFailed(a.endpoint)])
  }

  /** `reentrant` says that the calling thread already holds the Bridge. */
  function StopHost(h: Host, source: StopSource, reentrant: bool): (Host, LifecycleOutcome) {
    if h.state == Stopped then (h, AlreadyStopped)
    else
      var channels := GenerationChannels(h.adapters);
      if channels != [] && reentrant then (h, BridgeAccessRefused)
      else
        var (adapters, results) := StopFrom(h.adapters, source, 0);
        if AnyFailed(results)
        then (Host(StopFailed, adapters, UnsubscribeAll(h.bridge, channels)), AdapterFailures(results))
        else (Host(Stopped, adapters, UnsubscribeAll(h.bridge, channels)), AllDone(results))
  }

  // ---------- The stateful host ----------

  class RuntimeHost {
    var state: HostState
    var adapters: seq<Adapter>
    var bridge: Bridge

    ghost function Value(): Host
      reads this
    {
      Host(state, adapters, bridge)
    }

    constructor (bridge: Bridge)
      ensures Value() == Host(Stopped, [], bridge)
    {
      state, adapters, this.bridge := Stopped, [], bridge;
    }

    method RegisterChannelAdapter(d: ChannelDescriptor, scope: Scope) returns (r: Outcome<HostError>)
      modifies this
      ensures (Value(), r) == AddChannelAdapter(old(Value()), d, scope)
    {
      if state != Stopped {
        return Fail(HostNotStopped);
      }
      var registered := RegisterChannel(bridge, d);
      if registered.result.Fail? {
        return Fail(EndpointTaken);
      }
      bridge := registered.bridge;
      adapters := adapters + [Adapter(ChannelEndpoint(d.id, scope), Ingress.Stopped)];
      r := Pass;
    }

    method RegisterProviderAdapter(d: ProviderDescriptor) returns (r: Outcome<HostError>)
      modifies this
      ensures (Value(), r) == AddProviderAdapter(old(Value()), d)
    {
      if state != Stopped {
        return Fail(HostNotStopped);
      }
      var registered := Bridges.RegisterProvider(bridge, d);
      if registered.result.Fail? {
        return Fail(EndpointTaken);
      }
      bridge := registered.bridge;
      adapters := adapters + [Adapter(ProviderEndpoint(d.id), Ingress.Stopped)];
      r := Pass;
    }

    method Start(source: StartSource) returns (r: LifecycleOutcome)
      modifies this
      ensures (Value(), r) == StartHost(old(Value()), source)
    {
      if state == Started {
        return AlreadyStarted;
      }
      if state == StopFailed {
        return CleanupRequired;
      }
      var results: seq<AdapterResult> := [];
      var failed := false;
      var n := |adapters|;
      for i := 0 to n
        invariant |adapters| == n == |old(adapters)| && state == old(state)
        invariant StartProgress(adapters, bridge, results) == StartFirst(old(adapters), old(bridge), source, i)
        invariant failed <==> AnyFailed(results)
      {
        var endpoint := adapters[i].endpoint;
        var (ok, after) := source(i, bridge);
        bridge := ThroughHandles(bridge, after);
        adapters := adapters[i := adapters[i].(state := if ok then Ingress.AdapterState.Running
                                                        else Ingress.StartFailed)];
        results := results + [if ok then CallOk(endpoint) else CallFailed(endpoint)];
        MoreResults(results[..|results| - 1], results[|results| - 1]);
        assert results == results[..|results| - 1] + [results[|results| - 1]];
        failed := failed || !ok;
      }
      state := Started;
      r := if failed then AdapterFailures(results) else AllDone(results);
    }

    /** `clear_source_generation_subscriptions`, after every permit was revoked. */
    method ClearSubscriptions(reentrant: bool) returns (ok: bool)
      modifies this`bridge
      ensures var channels := GenerationChannels(adapters);
              && ok == (channels == [] || !reentrant)
              && bridge == if ok then UnsubscribeAll(old(bridge), channels) else old(bridge)
    {
      var channels: seq<ChannelId> := [];
      for i := 0 to |adapters|
        invariant channels == GenerationChannels(adapters[..i])
      {
        assert adapters[..i + 1][..i] == adapters[..i];
        if adapters[i].endpoint.ChannelEndpoint? && adapters[i].endpoint.scope == SourceGeneration {
          channels := channels + [adapters[i].endpoint.channel];
        }
      }
      assert adapters[..|adapters|] == adapters;
      if channels == [] {
        return true;
      }
      if reentrant {
        return false;
      }
      for i := 0 to |channels|
        invariant bridge == UnsubscribeAll(old(bridge), channels[..i])
      {
        assert channels[..i + 1][..i] == channels[..i];
        bridge := UnsubscribeChannel(bridge, channels[i]).bridge;
      }
      assert channels[..|channels|] == channels;
      ok := true;
    }

    method Stop(source: StopSource, reentrant: bool) returns (r: LifecycleOutcome)
      modifies this
      ensures (Value(), r) == StopHost(old(Value()), source, reentrant)
    {
      if state == Stopped {
        return AlreadyStopped;
      }
      var cleared := ClearSubscriptions(reentrant);
      if !cleared {
        return BridgeAccessRefused;
      }
      var results: seq<AdapterResult> := [];
      var failed := false;
      var i := |adapters|;
      while i > 0
        invariant 0 <= i <= |adapters| == |old(adapters)|
        invariant (adapters, results) == StopFrom(old(adapters), source, i)
        invariant state == old(state) && bridge == UnsubscribeAll(old(bridge), GenerationChannels(old(adapters)))
        invariant failed <==> AnyFailed(results)
      {
        i := i - 1;
        var endpoint := adapters[i].endpoint;
        ghost var earlier := results;
        if !adapters[i].Unfinished() {
          results := results + [CallSkipped(endpoint)];
        } else if source(i) {
          adapters := adapters[i := adapters[i].(state := Ingress.Stopped)];
          results := results + [CallOk(endpoint)];
        } else {
          adapters := adapters[i := adapters[i].(state := Ingress.StopFailed)];
          results := results + [CallFailed(endpoint)];
          failed := true;
        }
        MoreResults(earlier, results[|results| - 1]);
      }
      state := if failed then StopFailed else Stopped;
      r := if failed then AdapterFailures(results) else AllDone(results);
    }
  }

  lemma MoreResults(results: seq<AdapterResult>, last: AdapterResult)
    ensures AnyFailed(results + [last]) <==> AnyFailed(results) || last.CallFailed?
  {
    if AnyFailed(results) {
      var i :| 0 <= i < |results| && results[i].CallFailed?;
      assert (results + [last])[i].CallFailed?;
    }
    if last.CallFailed? {
      assert (results + [last])[|results|].CallFailed?;
    }
  }

  // ---------- What one stop does ----------

  /** Each adapter in turn: a finished one is skipped, any other is called once and ends Stopped or
      StopFailed as its callback says; the report lists them from the last to the first. */
  lemma {:induction false} StopEffect(adapters: seq<Adapter>, source: StopSource, k: nat)
    requires k <= |adapters|
    ensures var (after, results) := StopFrom(adapters, source, k);
            && |results| == |adapters| - k
            && (forall i :: 0 <= i < k ==> after[i] == adapters[i])
            && (forall i :: k <= i < |adapters| ==>
                  && after[i].endpoint == adapters[i].endpoint
                  && after[i].state == (if adapters[i].Unfinished() && !source(i) then Ingress.StopFailed
                                        else Ingress.Stopped)
                  && results[|adapters| - 1 - i] ==
                     (if !adapters[i].Unfinished() then CallSkipped(adapters[i].endpoint)
                      else if source(i) then CallOk(adapters[i].endpoint)
                      else CallFailed(adapters[i].endpoint)))
    decreases |adapters| - k
  {
    if k < |adapters| {
      StopEffect(adapters, source, k + 1);
    }
  }

  /** The endpoints whose stop callback ran, in order. */
  function Called(results: seq<AdapterResult>): seq<Endpoint> {
    if results == [] then []
    else
      var k := |results| - 1;
      Called(results[..k]) + if results[k].CallSkipped? then [] else [results[k].endpoint]
  }

  /** The unfinished adapters from position `k` on, the last one first. */
  function UnfinishedFrom(adapters: seq<Adapter>, k: nat): seq<Endpoint>
    requires k <= |adapters|
    decreases |adapters| - k
  {
    if k == |adapters| then []
    else UnfinishedFrom(adapters, k + 1) + if adapters[k].Unfinished() then [adapters[k].endpoint] else []
  }

  lemma {:induction false} StopCallsUnfinished(adapters: seq<Adapter>, source: StopSource, k: nat)
    requires k <= |adapters|
    ensures Called(StopFrom(adapters, source, k).1) == UnfinishedFrom(adapters, k)
    decreases |adapters| - k
  {
    if k < |adapters| {
      StopCallsUnfinished(adapters, source, k + 1);
      StopEffect(adapters, source, k + 1);
      var (later, results) := StopFrom(adapters, source, k + 1);
      var all := StopFrom(adapters, source, k).1;
      assert all == results + [all[|results|]];
      CalledOneMore(results, all[|results|]);
    }
  }

  lemma CalledOneMore(results: seq<AdapterResult>, last: AdapterResult)
    ensures Called(results + [last]) == Called(results) + if last.CallSkipped? then [] else [last.endpoint]
  {
    assert (results + [last])[..|results|] == results;
  }

  lemma {:induction false} UnfinishedShrinks(before: seq<Adapter>, after: seq<Adapter>, k: nat)
    requires k <= |before| == |after|
    requires forall i :: 0 <= i < |before| && after[i].Unfinished() ==> before[i].Unfinished()
    ensures |UnfinishedFrom(after, k)| <= |UnfinishedFrom(before, k)|
    decreases |before| - k
  {
    if k < |before| {
      UnfinishedShrinks(before, after, k + 1);
    }
  }

  /** Every stop calls exactly the unfinished adapters, the last registered first, and leaves
      unfinished exactly those whose callback failed; so retries never have more to do. */
  lemma StopRetriesUnfinishedOnly(h: Host, source: StopSource, reentrant: bool)
    requires h.state != Stopped && StopHost(h, source, reentrant).1 != BridgeAccessRefused
    ensures var (h', r) := StopHost(h, source, reentrant);
            && (r.AllDone? || r.AdapterFailures?)
            && Called(r.results) == UnfinishedFrom(h.adapters, 0)
            && |h'.adapters| == |h.adapters|
            && (forall i :: 0 <= i < |h.adapters| ==>
                  && h'.adapters[i].endpoint == h.adapters[i].endpoint
                  && (h'.adapters[i].Unfinished() <==> h.adapters[i].Unfinished() && !source(i)))
            && |UnfinishedFrom(h'.adapters, 0)| <= |UnfinishedFrom(h.adapters, 0)|
            && (r.AllDone? <==> UnfinishedFrom(h'.adapters, 0) == [])
  {
    hide UnsubscribeAll, GenerationChannels;
    StopEffect(h.adapters, source, 0);
    StopCallsUnfinished(h.adapters, source, 0);
    var (after, results) := StopFrom(h.adapters, source, 0);
    UnfinishedShrinks(h.adapters, after, 0);
    NothingUnfinished(after, 0);
    FailuresAreUnfinished(h.adapters, source);
  }

  lemma {:induction false} NothingUnfinished(adapters: seq<Adapter>, k: nat)
    requires k <= |adapters|
    ensures UnfinishedFrom(adapters, k) == [] <==> forall i :: k <= i < |adapters| ==> !adapters[i].Unfinished()
    decreases |adapters| - k
  {
    if k < |adapters| {
      NothingUnfinished(adapters, k + 1);
    }
  }

  lemma FailuresAreUnfinished(adapters: seq<Adapter>, source: StopSource)
    ensures var (after, results) := StopFrom(adapters, source, 0);
            AnyFailed(results) <==> exists i :: 0 <= i < |after| && after[i].Unfinished()
  {
    hide StopFrom;
    StopEffect(adapters, source, 0);
    var (after, results) := StopFrom(adapters, source, 0);
    if AnyFailed(results) {
      var j :| 0 <= j < |results| && results[j].CallFailed?;
      var i := |adapters| - 1 - j;
      assert results[|adapters| - 1 - i].CallFailed?;
      assert after[i].Unfinished();
    }
    if i :| 0 <= i < |after| && after[i].Unfinished() {
      assert results[|adapters| - 1 - i].CallFailed?;
    }
  }

  // ---------- Subscriptions across a stop ----------

  lemma {:induction false} UnsubscribeAllEffect(b: Bridge, channels: seq<ChannelId>, s: SessionId, c: ChannelId)
    requires forall i :: 0 <= i < |channels| ==> channels[i] in b.channels
    ensures UnsubscribeAll(b, channels).IsSubscribed(c, s) <==> b.IsSubscribed(c, s) && c !in channels
    ensures UnsubscribeAll(b, channels) == b.(subscriptions := UnsubscribeAll(b, channels).subscriptions)
  {
    hide WithoutChannel;
    if channels != [] {
      var k := |channels| - 1;
      UnsubscribeAllEffect(b, channels[..k], s, c);
      SubscriptionEdits(UnsubscribeAll(b, channels[..k]).subscriptions, 0, channels[k], s, c);
      assert channels == channels[..k] + [channels[k]];
    }
  }

  ghost predicate ScopedAt(adapters: seq<Adapter>, i: int, c: ChannelId) {
    0 <= i < |adapters| && adapters[i].endpoint == ChannelEndpoint(c, SourceGeneration)
  }

  lemma {:induction false} GenerationMembers(adapters: seq<Adapter>, c: ChannelId)
    ensures c in GenerationChannels(adapters) <==> exists i :: ScopedAt(adapters, i, c)
  {
    if adapters != [] {
      var k := |adapters| - 1;
      GenerationMembers(adapters[..k], c);
      if i :| ScopedAt(adapters[..k], i, c) {
        assert ScopedAt(adapters, i, c);
      }
      if adapters[k].endpoint == ChannelEndpoint(c, SourceGeneration) {
        assert ScopedAt(adapters, k, c);
      }
      if i :| ScopedAt(adapters, i, c) && i < k {
        assert ScopedAt(adapters[..k], i, c);
      }
    }
  }

  /** The whole stop: nothing to do exactly when stopped; refused exactly when the thread already holds the
      Bridge and there is a generation to clear; otherwise the host is Stopped exactly when no adapter is
      left unfinished, and StopFailed otherwise. */
  lemma StopAnswers(h: Host, source: StopSource, reentrant: bool)
    ensures var (h', r) := StopHost(h, source, reentrant);
            var scoped := exists i, c :: ScopedAt(h.adapters, i, c);
            && (r == AlreadyStopped <==> h.state == Stopped)
            && (r == BridgeAccessRefused <==> h.state != Stopped && reentrant && scoped)
            && (r == AlreadyStopped || r == BridgeAccessRefused ==> h' == h)
            && (r.AllDone? ==> h'.state == Stopped) && (r.AdapterFailures? ==> h'.state == StopFailed)
            && (r.AllDone? || r.AdapterFailures? || r == AlreadyStopped || r == BridgeAccessRefused)
  {
    hide StopFrom, UnsubscribeAll, AnyFailed;
    var channels := GenerationChannels(h.adapters);
    if channels != [] {
      assert channels[0] in channels;
      GenerationMembers(h.adapters, channels[0]);
    }
    forall i, c | ScopedAt(h.adapters, i, c) ensures channels != [] {
      GenerationMembers(h.adapters, c);
    }
  }

  /** Registration succeeds exactly while stopped and for an endpoint nobody has, and then adds one stopped
      adapter at the end and its endpoint to the Bridge. */
  lemma RegistrationAnswers(h: Host, c: ChannelDescriptor, scope: Scope, p: ProviderDescriptor)
    ensures var (h', r) := AddChannelAdapter(h, c, scope);
            && (r == Pass <==> h.state == Stopped && c.id !in h.bridge.channels)
            && (r == Fail(HostNotStopped) <==> h.state != Stopped)
            && (r != Pass ==> h' == h)
            && (r == Pass ==>
                  && h'.adapters == h.adapters + [Adapter(ChannelEndpoint(c.id, scope), Ingress.Stopped)]
                  && h'.bridge == h.bridge.(channels := h.bridge.channels[c.id := c]) && h'.state == Stopped)
    ensures var (h', r) := AddProviderAdapter(h, p);
            && (r == Pass <==> h.state == Stopped && p.id !in h.bridge.providers)
            && (r == Fail(HostNotStopped) <==> h.state != Stopped)
            && (r != Pass ==> h' == h)
            && (r == Pass ==>
                  && h'.adapters == h.adapters + [Adapter(ProviderEndpoint(p.id), Ingress.Stopped)]
                  && h'.bridge == h.bridge.(providers := h.bridge.providers[p.id := p]) && h'.state == Stopped)
  {
  }

  // ---------- Whole runs ----------

  predicate SameEndpoint(a: Endpoint, b: Endpoint) {
    match a
    case ProviderEndpoint(p) => b == ProviderEndpoint(p)
    case ChannelEndpoint(c, _) => b.ChannelEndpoint? && b.channel == c
  }

  /** The host's state tells the truth about its adapters, and each adapter has an endpoint of its own. */
  ghost predicate HostInv(h: Host) {
    && (h.state == Stopped ==> forall i :: 0 <= i < |h.adapters| ==> h.adapters[i].state == Ingress.Stopped)
    && (h.state == StopFailed ==>
          && (forall i :: 0 <= i < |h.adapters| ==>
                h.adapters[i].state == Ingress.Stopped || h.adapters[i].state == Ingress.StopFailed)
          && exists i :: 0 <= i < |h.adapters| && h.adapters[i].state == Ingress.StopFailed)
    && (h.state == Started ==>
          forall i :: 0 <= i < |h.adapters| ==>
            h.adapters[i].state == Ingress.AdapterState.Running || h.adapters[i].state == Ingress.StartFailed)
    && EndpointInv(h)
  }

  ghost predicate EndpointInv(h: Host) {
    && (forall i, j :: 0 <= i < j < |h.adapters| ==> !SameEndpoint(h.adapters[i].endpoint, h.adapters[j].endpoint))
    && (forall i :: 0 <= i < |h.adapters| ==>
          match h.adapters[i].endpoint
          case ProviderEndpoint(p) => p in h.bridge.providers
          case ChannelEndpoint(c, _) => c in h.bridge.channels)
  }

  datatype HostOp =
    | AddProviderOp(provider: ProviderDescriptor)
    | AddChannelOp(channel: ChannelDescriptor, scope: Scope)
    | StartOp(startSource: StartSource)
    | StopOp(stopSource: StopSource, reentrant: bool)
    | IngressOp(after: Bridge)

  function HostStep(h: Host, op: HostOp): Host {
    match op
    case AddProviderOp(d) => AddProviderAdapter(h, d).0
    case AddChannelOp(d, scope) => AddChannelAdapter(h, d, scope).0
    case StartOp(source) => StartHost(h, source).0
    case StopOp(source, reentrant) => StopHost(h, source, reentrant).0
    case IngressOp(after) => h.(bridge := ThroughHandles(h.bridge, after))
  }

  function HostRun(h: Host, ops: seq<HostOp>): Host {
    if ops == [] then h else HostStep(HostRun(h, ops[..|ops| - 1]), ops[|ops| - 1])
  }

  /** What the callback of adapter `i` answers when its turn comes, and the Bridge it leaves. */
  function Callback(adapters: seq<Adapter>, bridge: Bridge, source: StartSource, i: nat): (bool, Bridge)
    requires i < |adapters|
  {
    source(i, StartFirst(adapters, bridge, source, i).bridge)
  }

  /** Each adapter in turn, in registration order: it runs, and is reported so, exactly when its callback
      succeeded, and the next one finds the Bridge its callback left, with the registries kept. */
  lemma {:induction false} StartEffect(adapters: seq<Adapter>, bridge: Bridge, source: StartSource, n: nat)
    requires n <= |adapters|
    ensures var p := StartFirst(adapters, bridge, source, n);
            && p.bridge.providers == bridge.providers && p.bridge.channels == bridge.channels
            && |p.results| == n
            && (n > 0 ==> p.bridge == Callback(adapters, bridge, source, n - 1).1
                                      .(providers := bridge.providers, channels := bridge.channels))
            && (n == 0 ==> p.bridge == bridge)
            && (forall i :: n <= i < |adapters| ==> p.adapters[i] == adapters[i])
            && (forall i :: 0 <= i < n ==>
                  var ok := Callback(adapters, bridge, source, i).0;
                  && p.adapters[i] == Adapter(adapters[i].endpoint, if ok then Ingress.AdapterState.Running
                                                                   else Ingress.StartFailed)
                  && p.results[i] == if ok then CallOk(adapters[i].endpoint) else CallFailed(adapters[i].endpoint))
  {
    if n > 0 {
      StartEffect(adapters, bridge, source, n - 1);
    }
  }

  /** The whole start: it is refused exactly while started or in need of cleanup; otherwise every adapter is
      started once, the host is started, and the answer is success exactly when every callback succeeded. */
  lemma StartAnswers(h: Host, source: StartSource)
    ensures var (h', r) := StartHost(h, source);
            && (r == AlreadyStarted <==> h.state == Started)
            && (r == CleanupRequired <==> h.state == StopFailed)
            && (h.state != Stopped ==> h' == h)
            && (h.state == Stopped ==>
                  && h'.state == Started && |h'.adapters| == |h.adapters|
                  && (r.AllDone? || r.AdapterFailures?) && |r.results| == |h.adapters|
                  && (r.AllDone? <==>
                        forall i :: 0 <= i < |h.adapters| ==> Callback(h.adapters, h.bridge, source, i).0)
                  && forall i :: 0 <= i < |h.adapters| ==>
                       var ok := Callback(h.adapters, h.bridge, source, i).0;
                       && (h'.adapters[i].state == Ingress.AdapterState.Running <==> ok)
                       && h'.adapters[i].endpoint == h.adapters[i].endpoint
                       && r.results[i] == if ok then CallOk(h.adapters[i].endpoint)
                                          else CallFailed(h.adapters[i].endpoint))
  {
    hide StartFirst, Callback;
    if h.state == Stopped {
      StartEffect(h.adapters, h.bridge, source, |h.adapters|);
      var results := StartFirst(h.adapters, h.bridge, source, |h.adapters|).results;
      if i :| 0 <= i < |h.adapters| && !Callback(h.adapters, h.bridge, source, i).0 {
        assert results[i].CallFailed?;
      }
    }
  }

  lemma GenerationAreRegistered(h: Host)
    requires EndpointInv(h)
    ensures forall i :: 0 <= i < |GenerationChannels(h.adapters)| ==>
              GenerationChannels(h.adapters)[i] in h.bridge.channels
  {
    var channels := GenerationChannels(h.adapters);
    forall i | 0 <= i < |channels| ensures channels[i] in h.bridge.channels {
      assert channels[i] in channels;
      GenerationMembers(h.adapters, channels[i]);
    }
  }

  lemma HostStepKeepsInv(h: Host, op: HostOp)
    requires HostInv(h)
    ensures HostInv(HostStep(h, op))
  {
    hide StopFrom, StartFirst, UnsubscribeAll, GenerationChannels, AnyFailed;
    match op
    case StartOp(source) => StartEffect(h.adapters, h.bridge, source, |h.adapters|);
    case StopOp(source, reentrant) =>
      StopEffect(h.adapters, source, 0);
      FailuresAreUnfinished(h.adapters, source);
      GenerationAreRegistered(h);
      UnsubscribeAllEffect(h.bridge, GenerationChannels(h.adapters), 0, 0);
    case _ =>
  }

  /** Over whole runs: a stopped host has only stopped adapters, and a host whose stop failed has
      only stopped ones and ones whose stop failed, at least one of the latter. */
  lemma {:induction false} HostStateOverRuns(bridge: Bridge, ops: seq<HostOp>)
    ensures HostInv(HostRun(Host(Stopped, [], bridge), ops))
  {
    hide HostStep;
    if ops != [] {
      HostStateOverRuns(bridge, ops[..|ops| - 1]);
      HostStepKeepsInv(HostRun(Host(Stopped, [], bridge), ops[..|ops| - 1]), ops[|ops| - 1]);
    }
  }

  /** After any run, a stop that gets past the Bridge removes every subscription of the Channels
      scoped to their source generation, and no other subscription. */
  lemma StopClearsGenerations(bridge: Bridge, ops: seq<HostOp>, source: StopSource, reentrant: bool, c: ChannelId,
                              scope: Scope, s: SessionId)
    requires var h := HostRun(Host(Stopped, [], bridge), ops);
             && h.state != Stopped && StopHost(h, source, reentrant).1 != BridgeAccessRefused
             && exists i :: 0 <= i < |h.adapters| && h.adapters[i].endpoint == ChannelEndpoint(c, scope)
    ensures var h := HostRun(Host(Stopped, [], bridge), ops);
            var h' := StopHost(h, source, reentrant).0;
            h'.bridge.IsSubscribed(c, s) <==> h.bridge.IsSubscribed(c, s) && scope == Persistent
  {
    hide HostRun, StopFrom, UnsubscribeAll, GenerationChannels, AnyFailed;
    var h := HostRun(Host(Stopped, [], bridge), ops);
    HostStateOverRuns(bridge, ops);
    GenerationAreRegistered(h);
    GenerationMembers(h.adapters, c);
    UnsubscribeAllEffect(h.bridge, GenerationChannels(h.adapters), s, c);
    var i :| 0 <= i < |h.adapters| && h.adapters[i].endpoint == ChannelEndpoint(c, scope);
    if j :| ScopedAt(h.adapters, j, c) {
      OneAdapterPerChannel(h, c, i, j);
    }
    assert scope == SourceGeneration ==> ScopedAt(h.adapters, i, c);
  }

  lemma OneAdapterPerChannel(h: Host, c: ChannelId, i: nat, j: nat)
    requires EndpointInv(h) && i < |h.adapters| && j < |h.adapters|
    requires h.adapters[i].endpoint.ChannelEndpoint? && h.adapters[i].endpoint.channel == c
    requires h.adapters[j].endpoint.ChannelEndpoint? && h.adapters[j].endpoint.channel == c
    ensures i == j
  {
    var a, b := h.adapters[i].endpoint, h.adapters[j].endpoint;
    assert SameEndpoint(a, b) && SameEndpoint(b, a);
  }
}
