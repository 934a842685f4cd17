/** Whole runs of the Bridge: what every operation keeps, and what a Channel that accepts its
    handoffs knows after any interleaving of operations. */
module BridgeRuns {
  import opened Core
  import opened Order
  import opened Routing
  import opened Aggregates
  import opened History
  import opened Bridges
  import opened BridgeFacts

  /** The Bridge, the applied events of each session, and everything the Channels were told. */
  datatype World = World(bridge: Bridge, history: map<SessionId, seq<AgentEvent>>, notes: seq<Note>)

  datatype Op =
    | AddProvider(provider: ProviderDescriptor)
    | AddChannel(newChannel: ChannelDescriptor)
    | Publish(from: ProviderId, event: AgentEvent, publishPorts: Ports)
    | RequestPage(pageChannel: ChannelId, pageSession: SessionId, after: U64, limit: nat, pagePorts: Ports)
    | RequestLive(liveChannel: ChannelId, liveSession: SessionId, livePorts: Ports)
    | Leave(leaveChannel: ChannelId, leaveSession: SessionId)
    | LeaveAll(closedChannel: ChannelId)
  {
    /** Events come from the validating constructor. */
    ghost predicate Legal() {
      Publish? ==> event.Constructible()
    }
  }

  ghost function HistoryOf(w: World, session: SessionId): seq<AgentEvent> {
    if session in w.history then w.history[session] else []
  }

  ghost function Step(w: World, op: Op): World {
    match op
    case AddProvider(d) => w.(bridge := RegisterProvider(w.bridge, d).bridge)
    case AddChannel(d) => w.(bridge := RegisterChannel(w.bridge, d).bridge)
    case Publish(from, e, ports) =>
      var r := HandleProviderEvent(w.bridge, from, e, ports);
      World(r.bridge,
            if Moved(r.result) then w.history[e.sessionId := HistoryOf(w, e.sessionId) + [e]] else w.history,
            w.notes + r.notes)
    case RequestPage(channel, session, after, limit, ports) =>
      var r := SyncSession(w.bridge, channel, session, after, limit, ports);
      World(r.bridge, w.history, w.notes + r.notes)
    case RequestLive(channel, session, ports) =>
      var r := Subscribe(w.bridge, channel, session, ports);
      World(r.bridge, w.history, w.notes + r.notes)
    case Leave(channel, session) => w.(bridge := Unsubscribe(w.bridge, channel, session).bridge)
    case LeaveAll(channel) => w.(bridge := UnsubscribeChannel(w.bridge, channel).bridge)
  }

  ghost function Run(w: World, ops: seq<Op>): World {
    if ops == [] then w else Step(Run(w, ops[..|ops| - 1]), ops[|ops| - 1])
  }

  ghost function Fresh(config: Config): World {
    World(NewBridge(config), map[], [])
  }

  ghost predicate LegalRun(ops: seq<Op>) {
    forall i :: 0 <= i < |ops| ==> ops[i].Legal()
  }

  // ---------- The invariant of the stored state ----------

  ghost predicate Validated(provider: ProviderDescriptor, session: AgentSession, h: seq<AgentEvent>) {
    forall i :: 0 <= i < |h| ==> ValidateProviderEvent(provider, session, h[i]).Pass?
  }

  /** A stored session is the fold of its history, belongs to a registered Provider, and every one
      of its events passed that Provider's validation. */
  ghost predicate SessionInv(b: Bridge, session: SessionId, h: seq<AgentEvent>) {
    && session in b.sessions
    && var a := b.sessions[session];
       && IsHistory(h, a) && a.config == b.config && a.session.id == session
       && a.session.providerId in b.providers
       && Validated(b.providers[a.session.providerId], a.session, h)
  }

  ghost predicate TableInv(b: Bridge) {
    && (forall p :: p in b.providers ==> b.providers[p].id == p)
    && (forall c :: c in b.channels ==> b.channels[c].id == c)
    && (forall s, c :: b.IsSubscribed(c, s) ==> s in b.sessions && c in b.channels)
  }

  ghost predicate Inv(w: World) {
    && w.history.Keys == w.bridge.sessions.Keys
    && TableInv(w.bridge)
    && forall s :: s in w.bridge.sessions ==> SessionInv(w.bridge, s, w.history[s])
  }

  lemma ReduceKeepsIdentity(a: Aggregate, e: AgentEvent)
    requires ApplyEvent(a, e).1 == Ok(Applied)
    ensures var n := ApplyEvent(a, e).0;
            && n.session.id == a.session.id && n.session.providerId == a.session.providerId && n.config == a.config
            && n.lastEvent == e && (!e.payload.UpdatesSession() ==> n.session == a.session)
            && !e.payload.SessionStarted?
  {
    hide Reduce, CheckCursor;
  }

  lemma ValidationCarriesOver(provider: ProviderDescriptor, earlier: AgentSession, later: AgentSession,
                              h: seq<AgentEvent>)
    requires Validated(provider, earlier, h) && earlier.id == later.id && earlier.providerId == later.providerId
    ensures Validated(provider, later, h)
  {
    hide ValidateProviderEvent;
    forall i | 0 <= i < |h| ensures ValidateProviderEvent(provider, later, h[i]).Pass? {
      RoutesIgnoreSnapshotDetails(provider, ChannelDescriptor(0, {}), earlier, later, h[i]);
    }
  }

  lemma ValidProviderMatches(provider: ProviderDescriptor, session: AgentSession, e: AgentEvent)
    requires ValidateProviderEvent(provider, session, e).Pass?
    ensures provider.id == session.providerId && session.id == e.sessionId
  {
  }

  /** The moved session still satisfies its invariant, with the event appended to its history. */
  lemma PublishedSession(w: World, from: ProviderId, e: AgentEvent, ports: Ports)
    requires Inv(w) && e.Constructible() && Moved(HandleProviderEvent(w.bridge, from, e, ports).result)
    ensures SessionInv(HandleProviderEvent(w.bridge, from, e, ports).bridge, e.sessionId,
                       HistoryOf(w, e.sessionId) + [e])
    ensures e.sessionId in w.bridge.sessions ==>
              ApplyEvent(w.bridge.sessions[e.sessionId], e).1 == Ok(Applied)
  {
    hide HandleProviderEvent, ValidateProviderEvent, ApplyEvent, Initial, IsHistory, PlanRoutes, FanOut, Ascending,
         HasFailures;
    var b := w.bridge;
    PublishShape(b, from, e, ports);
    var b' := HandleProviderEvent(b, from, e, ports).bridge;
    var h := HistoryOf(w, e.sessionId);
    var routing := RoutingSession(b, e).value;
    ValidProviderMatches(b.providers[from], routing, e);
    if e.sessionId in b.sessions {
      var a := b.sessions[e.sessionId];
      assert SessionInv(b, e.sessionId, h);
      Extend(h, a, e);
      ReduceKeepsIdentity(a, e);
      var next := ApplyEvent(a, e).0;
      assert b'.sessions[e.sessionId] == next;
      ValidationCarriesOver(b.providers[from], a.session, next.session, h);
      RoutesIgnoreSnapshotDetails(b.providers[from], ChannelDescriptor(0, {}), a.session, next.session, e);
    } else {
      Start(e, b.config);
      StartedSession(e, b.config);
      assert h + [e] == [e];
    }
  }

  lemma StartedSession(e: AgentEvent, config: Config)
    requires Initial(e, config).Ok?
    ensures e.payload.SessionStarted? && Initial(e, config).value.session == e.payload.session
    ensures Initial(e, config).value.config == config
  {
  }

  lemma PublishKeepsInv(w: World, from: ProviderId, e: AgentEvent, ports: Ports)
    requires Inv(w) && e.Constructible()
    ensures Inv(Step(w, Publish(from, e, ports)))
  {
    hide HandleProviderEvent, SessionInv, ReduceInto, PlanRoutes, FanOut, Ascending, ValidateProviderEvent,
         RoutingSession, HasFailures, TableInv;
    PublishShape(w.bridge, from, e, ports);
    var w' := Step(w, Publish(from, e, ports));
    if Moved(HandleProviderEvent(w.bridge, from, e, ports).result) {
      PublishedSession(w, from, e, ports);
      SessionKeepsTables(w.bridge, e.sessionId, ReduceInto(w.bridge, e).value.0);
      assert w'.history.Keys == w'.bridge.sessions.Keys;
      forall s | s in w'.bridge.sessions ensures SessionInv(w'.bridge, s, w'.history[s]) {
        if s != e.sessionId {
          SameSession(w.bridge, w'.bridge, s, w.history[s]);
        }
      }
    }
  }

  /** A session whose entry and Provider are untouched keeps its invariant. */
  lemma SameSession(b: Bridge, b': Bridge, s: SessionId, h: seq<AgentEvent>)
    requires SessionInv(b, s, h) && s in b'.sessions && b'.sessions[s] == b.sessions[s] && b'.config == b.config
    requires forall p :: p in b.providers ==> p in b'.providers && b'.providers[p] == b.providers[p]
    ensures SessionInv(b', s, h)
  {
    hide IsHistory, Validated;
  }

  /** Changing only the tables keeps the invariant as long as the new subscriptions are grounded. */
  lemma TablesKeepInv(w: World, w': World)
    requires Inv(w) && w'.history == w.history && TableInv(w'.bridge)
    requires w'.bridge.sessions == w.bridge.sessions && w'.bridge.config == w.bridge.config
    requires forall p :: p in w.bridge.providers ==>
               p in w'.bridge.providers && w'.bridge.providers[p] == w.bridge.providers[p]
    ensures Inv(w')
  {
    hide SessionInv;
    forall s | s in w'.bridge.sessions ensures SessionInv(w'.bridge, s, w'.history[s]) {
      SameSession(w.bridge, w'.bridge, s, w.history[s]);
    }
  }

  lemma AddKeepsTables(b: Bridge, session: SessionId, channel: ChannelId)
    requires TableInv(b) && session in b.sessions && channel in b.channels
    ensures TableInv(b.(subscriptions := AddSubscription(b.subscriptions, session, channel)))
  {
    hide AddSubscription, DropSubscription, WithoutChannel;
    var after := b.(subscriptions := AddSubscription(b.subscriptions, session, channel));
    forall s, c | after.IsSubscribed(c, s) ensures s in b.sessions && c in b.channels {
      assert after.IsSubscribed(c, s) ==> s in after.subscriptions && c in after.subscriptions[s];
      SubscriptionEdits(b.subscriptions, session, channel, s, c);
      assert b.IsSubscribed(c, s) || (s == session && c == channel);
    }
  }

  lemma DropKeepsTables(b: Bridge, session: SessionId, channel: ChannelId)
    requires TableInv(b)
    ensures TableInv(b.(subscriptions := DropSubscription(b.subscriptions, session, channel)))
  {
    hide AddSubscription, DropSubscription, WithoutChannel;
    var after := b.(subscriptions := DropSubscription(b.subscriptions, session, channel));
    forall s, c | after.IsSubscribed(c, s) ensures s in b.sessions && c in b.channels {
      assert after.IsSubscribed(c, s) ==> s in after.subscriptions && c in after.subscriptions[s];
      SubscriptionEdits(b.subscriptions, session, channel, s, c);
      assert b.IsSubscribed(c, s);
    }
  }

  lemma DropAllKeepsTables(b: Bridge, channel: ChannelId)
    requires TableInv(b)
    ensures TableInv(b.(subscriptions := WithoutChannel(b.subscriptions, channel)))
  {
    hide AddSubscription, DropSubscription, WithoutChannel;
    var after := b.(subscriptions := WithoutChannel(b.subscriptions, channel));
    forall s, c | after.IsSubscribed(c, s) ensures s in b.sessions && c in b.channels {
      assert after.IsSubscribed(c, s) ==> s in after.subscriptions && c in after.subscriptions[s];
      SubscriptionEdits(b.subscriptions, 0, channel, s, c);
      assert b.IsSubscribed(c, s);
    }
  }

  lemma SameSubscriptions(b: Bridge, b': Bridge)
    requires b'.subscriptions == b.subscriptions
    ensures forall s, c :: b'.IsSubscribed(c, s) <==> b.IsSubscribed(c, s)
  {
  }

  lemma RegistrationKeepsTables(b: Bridge, p: ProviderDescriptor, c: ChannelDescriptor)
    requires TableInv(b)
    ensures TableInv(RegisterProvider(b, p).bridge) && TableInv(RegisterChannel(b, c).bridge)
  {
    SameSubscriptions(b, RegisterProvider(b, p).bridge);
    SameSubscriptions(b, RegisterChannel(b, c).bridge);
  }

  lemma SessionKeepsTables(b: Bridge, session: SessionId, a: Aggregate)
    requires TableInv(b)
    ensures TableInv(b.(sessions := b.sessions[session := a]))
  {
    SameSubscriptions(b, b.(sessions := b.sessions[session := a]));
  }

  /** Every operation keeps the invariant. */
  lemma StepKeepsInv(w: World, op: Op)
    requires Inv(w) && op.Legal()
    ensures Inv(Step(w, op))
  {
    hide HandleProviderEvent, SyncSession, Subscribe, SessionInv, AddSubscription, DropSubscription, WithoutChannel,
         ChoosePage, MakeSync, MakeBaseline, TableInv;
    var b, b' := w.bridge, Step(w, op).bridge;
    match op
    case Publish(from, e, ports) => PublishKeepsInv(w, from, e, ports);
    case AddProvider(d) =>
      RegistrationKeepsTables(b, d, ChannelDescriptor(0, {}));
      TablesKeepInv(w, Step(w, op));
    case AddChannel(d) =>
      RegistrationKeepsTables(b, ProviderDescriptor(0, {}), d);
      TablesKeepInv(w, Step(w, op));
    case RequestPage(channel, session, after, limit, ports) =>
      SyncShape(b, channel, session, after, limit, ports);
      if b' != b { AddKeepsTables(b, session, channel); }
      TablesKeepInv(w, Step(w, op));
    case RequestLive(channel, session, ports) =>
      SubscribeShape(b, channel, session, ports);
      if b' != b { AddKeepsTables(b, session, channel); }
      TablesKeepInv(w, Step(w, op));
    case Leave(channel, session) =>
      DropKeepsTables(b, session, channel);
      TablesKeepInv(w, Step(w, op));
    case LeaveAll(channel) =>
      DropAllKeepsTables(b, channel);
      TablesKeepInv(w, Step(w, op));
  }

  /** The stored state is consistent after every run. */
  lemma {:induction false} RunKeepsInv(config: Config, ops: seq<Op>)
    requires LegalRun(ops)
    ensures Inv(Run(Fresh(config), ops))
  {
    hide Step;
    if ops != [] {
      var n := |ops| - 1;
      RunKeepsInv(config, ops[..n]);
      StepKeepsInv(Run(Fresh(config), ops[..n]), ops[n]);
    }
  }
}
