/** The multi-endpoint Bridge: registered Providers and Channels, session aggregates, subscriptions,
    paged catch-up, live fan-out and the path of actions back to a Provider.

    Channel and Provider Ports belong to adapters, so an operation takes their verdicts as a
    parameter and returns the handoffs it made, in order. */
module Bridges {
  import opened Core
  import opened Order
  import opened Interaction
  import opened Routing
  import opened Aggregates

  // ---------- What a Channel receives ----------

  datatype RoutedEvent = RoutedEvent(event: AgentEvent, route: ChannelEventRoute)

  datatype RoutedInteraction = RoutedInteraction(request: InteractionRequest, mode: InteractionRoute)

  datatype Baseline = Baseline(session: AgentSession, sequence: Counter, pending: seq<RoutedInteraction>)

  datatype Sync = Sync(after: U64, through: U64, reset: bool, events: seq<RoutedEvent>, baseline: Option<Baseline>)

  datatype Handoff =
    | EventHandoff(event: AgentEvent, route: ChannelEventRoute)
    | SessionHandoff(session: AgentSession)
    | BaselineHandoff(baseline: Baseline)
    | SyncHandoff(sync: Sync)

  /** What a Channel learns: a handoff it accepted or rejected, or the reply to its own `subscribe`. */
  datatype Note =
    | Delivery(channel: ChannelId, about: SessionId, handoff: Handoff, accepted: bool)
    | SubscribedAt(channel: ChannelId, about: SessionId, sequence: Counter)

  /** The verdict of each Channel Port on a handoff, for the length of one operation. */
  type Ports = (ChannelId, Handoff) -> bool

  // ---------- State, replies and errors ----------

  datatype Bridge = Bridge(
    providers: map<ProviderId, ProviderDescriptor>,
    channels: map<ChannelId, ChannelDescriptor>,
    config: Config,
    sessions: map<SessionId, Aggregate>,
    subscriptions: map<SessionId, set<ChannelId>>)
  {
    function Subscribers(session: SessionId): set<ChannelId> {
      if session in subscriptions then subscriptions[session] else {}
    }

    predicate IsSubscribed(channel: ChannelId, session: SessionId) {
      channel in Subscribers(session)
    }
  }

  datatype Reply<R> = Reply(bridge: Bridge, result: R, notes: seq<Note>)

  datatype RegistrationError = AlreadyRegistered

  datatype SubscriptionError =
    | InvalidPageSize
    | UnknownChannel
    | UnknownSession
    | HistoryUnavailable
    | BaselineRoute(routeError: RouteError)
    | HandoffRejected

  datatype SyncOutcome =
    SyncOutcome(through: U64, eventCount: nat, reset: bool, subscribed: bool, pendingCount: nat)

  datatype SubscribeOutcome =
    | Subscribed(viewDelivered: bool, baselineSequence: Counter, pendingCount: nat)
    | AlreadySubscribed(currentSequence: Counter)

  datatype DeliveryResult = Delivered(channel: ChannelId) | EventRejected(channel: ChannelId)
                          | SessionRejected(channel: ChannelId)

  datatype Report = Report(outcome: ApplyOutcome, deliveries: seq<DeliveryResult>)

  datatype PublishError =
    | ProviderNotFound
    | SessionNotStarted
    | ChannelNotFound(channel: ChannelId)
    | PublishRoute(routeError: RouteError)
    | PublishReduce(reduceError: ReduceError)
    | ChannelHandoffs(report: Report)

  datatype ActionError =
    | ActionChannelNotFound
    | ActionSessionNotFound
    | ChannelNotSubscribed
    | ActionProviderNotFound
    | ActionNotPending
    | ActionRoute(routeError: RouteError)
    | ProviderHandoff

  function NewBridge(config: Config): Bridge {
    Bridge(map[], map[], config, map[], map[])
  }

  // ---------- Registration ----------

  function RegisterProvider(b: Bridge, d: ProviderDescriptor): Reply<Outcome<RegistrationError>> {
    if d.id in b.providers then Reply(b, Fail(AlreadyRegistered), [])
    else Reply(b.(providers := b.providers[d.id := d]), Pass, [])
  }

  function RegisterChannel(b: Bridge, d: ChannelDescriptor): Reply<Outcome<RegistrationError>> {
    if d.id in b.channels then Reply(b, Fail(AlreadyRegistered), [])
    else Reply(b.(channels := b.channels[d.id := d]), Pass, [])
  }

  // ---------- Subscriptions ----------

  function AddSubscription(subs: map<SessionId, set<ChannelId>>, session: SessionId, channel: ChannelId)
    : map<SessionId, set<ChannelId>>
  {
    subs[session := (if session in subs then subs[session] else {}) + {channel}]
  }

  /** Removes one subscription, and the session's entry when it was the last one. */
  function DropSubscription(subs: map<SessionId, set<ChannelId>>, session: SessionId, channel: ChannelId)
    : map<SessionId, set<ChannelId>>
  {
    if session !in subs then subs
    else if subs[session] - {channel} == {} then subs - {session}
    else subs[session := subs[session] - {channel}]
  }

  function RouteEvents(provider: ProviderDescriptor, channel: ChannelDescriptor, session: AgentSession,
                       events: seq<AgentEvent>): Result<seq<RoutedEvent>, RouteError> {
    if events == [] then Ok([])
    else match RouteEvent(provider, channel, session, events[0])
      case Err(error) => Err(error)
      case Ok(route) =>
        match RouteEvents(provider, channel, session, events[1..])
        case Err(error) => Err(error)
        case Ok(rest) => Ok([RoutedEvent(events[0], route)] + rest)
  }

  function RouteRequests(provider: ProviderDescriptor, channel: ChannelDescriptor, session: AgentSession,
                         requests: seq<InteractionRequest>): Result<seq<RoutedInteraction>, RouteError> {
    if requests == [] then Ok([])
    else match RouteInteraction(provider, channel, session, requests[0])
      case Err(error) => Err(error)
      case Ok(mode) =>
        match RouteRequests(provider, channel, session, requests[1..])
        case Err(error) => Err(error)
        case Ok(rest) => Ok([RoutedInteraction(requests[0], mode)] + rest)
  }

  /** The pending requests of an aggregate in ascending identifier order. */
  function PendingRequests(a: Aggregate): seq<InteractionRequest> {
    var ids := Ascending(a.pending.Keys);
    seq(|ids|, i requires 0 <= i < |ids| => AscendingElements(a.pending.Keys); assert ids[i] in ids; a.pending[ids[i]])
  }

  /** The subscription baseline of a session for one Channel. */
  function MakeBaseline(provider: ProviderDescriptor, channel: ChannelDescriptor, a: Aggregate)
    : Result<Baseline, RouteError>
  {
    match RouteRequests(provider, channel, a.session, PendingRequests(a))
    case Err(error) => Err(error)
    case Ok(pending) => Ok(Baseline(a.session, a.LastSequence(), pending))
  }

  datatype Chosen = Chosen(after: U64, reset: bool, events: seq<AgentEvent>)

  /** The page to send: after the requested cursor, or from the start when that cursor cannot be served. */
  function ChoosePage(a: Aggregate, requestedAfter: U64, limit: nat): Option<Chosen> {
    match Page(a, requestedAfter, limit)
    case Some(events) => Some(Chosen(requestedAfter, false, events))
    case None =>
      match Page(a, 0, limit)
      case Some(events) => Some(Chosen(0, true, events))
      case None => None
  }

  function Through(page: Chosen): U64 {
    if page.events == [] then page.after else page.events[|page.events| - 1].sequence
  }

  /** The synchronisation message for a chosen page: its routed events and, on the final page, the baseline. */
  function MakeSync(provider: ProviderDescriptor, channel: ChannelDescriptor, a: Aggregate, page: Chosen)
    : Result<Sync, RouteError>
  {
    var through := Through(page);
    match RouteEvents(provider, channel, a.session, page.events)
    case Err(error) => Err(error)
    case Ok(events) =>
      if through != a.LastSequence() then Ok(Sync(page.after, through, page.reset, events, None))
      else match MakeBaseline(provider, channel, a)
        case Err(error) => Err(error)
        case Ok(baseline) => Ok(Sync(page.after, through, page.reset, events, Some(baseline)))
  }

  /** `Bridge::sync_session`. */
  function SyncSession(b: Bridge, channel: ChannelId, session: SessionId, requestedAfter: U64, limit: nat,
                       ports: Ports): Reply<Result<SyncOutcome, SubscriptionError>> {
    if limit == 0 then Reply(b, Err(InvalidPageSize), [])
    else if channel !in b.channels then Reply(b, Err(UnknownChannel), [])
    else if session !in b.sessions then Reply(b, Err(UnknownSession), [])
    else
      var a := b.sessions[session];
      if b.IsSubscribed(channel, session) then
        Reply(b, Ok(SyncOutcome(a.LastSequence(), 0, false, true, 0)), [])
      else if a.session.providerId !in b.providers then Reply(b, Err(UnknownSession), [])
      else match ChoosePage(a, requestedAfter, limit)
        case None => Reply(b, Err(HistoryUnavailable), [])
        case Some(page) =>
          match MakeSync(b.providers[a.session.providerId], b.channels[channel], a, page)
          case Err(error) => Reply(b, Err(BaselineRoute(error)), [])
          case Ok(sync) =>
            var accepted := ports(channel, SyncHandoff(sync));
            var notes := [Delivery(channel, session, SyncHandoff(sync), accepted)];
            if !accepted then Reply(b, Err(HandoffRejected), notes)
            else
              var final := sync.baseline.Some?;
              var pendingCount := if final then |sync.baseline.value.pending| else 0;
              Reply(if final then b.(subscriptions := AddSubscription(b.subscriptions, session, channel)) else b,
                    Ok(SyncOutcome(sync.through, |sync.events|, sync.reset, final, pendingCount)), notes)
  }

  /** `Bridge::subscribe`. */
  function Subscribe(b: Bridge, channel: ChannelId, session: SessionId, ports: Ports)
    : Reply<Result<SubscribeOutcome, SubscriptionError>>
  {
    if channel !in b.channels then Reply(b, Err(UnknownChannel), [])
    else if session !in b.sessions then Reply(b, Err(UnknownSession), [])
    else
      var a := b.sessions[session];
      if b.IsSubscribed(channel, session) then Reply(b, Ok(AlreadySubscribed(a.LastSequence())), [])
      else if a.session.providerId !in b.providers then Reply(b, Err(UnknownSession), [])
      else match MakeBaseline(b.providers[a.session.providerId], b.channels[channel], a)
        case Err(error) => Reply(b, Err(BaselineRoute(error)), [])
        case Ok(baseline) =>
          var view := SessionView in b.channels[channel].capabilities;
          var accepted := !view || ports(channel, BaselineHandoff(baseline));
          var handed := if view then [Delivery(channel, session, BaselineHandoff(baseline), accepted)] else [];
          if !accepted then Reply(b, Err(HandoffRejected), handed)
          else
            Reply(b.(subscriptions := AddSubscription(b.subscriptions, session, channel)),
                  Ok(Subscribed(view, a.LastSequence(), |baseline.pending|)),
                  handed + [SubscribedAt(channel, session, a.LastSequence())])
  }

  /** `Bridge::unsubscribe`; the result says whether a subscription was removed. */
  function Unsubscribe(b: Bridge, channel: ChannelId, session: SessionId)
    : Reply<Result<bool, SubscriptionError>>
  {
    if channel !in b.channels then Reply(b, Err(UnknownChannel), [])
    else if session !in b.sessions then Reply(b, Err(UnknownSession), [])
    else Reply(b.(subscriptions := DropSubscription(b.subscriptions, session, channel)),
               Ok(b.IsSubscribed(channel, session)), [])
  }

  /** Every subscription of one Channel removed, and the entries that become empty with them. */
  function WithoutChannel(subs: map<SessionId, set<ChannelId>>, channel: ChannelId): map<SessionId, set<ChannelId>> {
    map s | s in subs && subs[s] - {channel} != {} :: subs[s] - {channel}
  }

  function SubscribedSessions(subs: map<SessionId, set<ChannelId>>, channel: ChannelId): set<SessionId> {
    set s | s in subs && channel in subs[s]
  }

  /** `Bridge::unsubscribe_channel`; the result is the number of subscriptions removed. */
  function UnsubscribeChannel(b: Bridge, channel: ChannelId): Reply<Result<nat, SubscriptionError>> {
    if channel !in b.channels then Reply(b, Err(UnknownChannel), [])
    else Reply(b.(subscriptions := WithoutChannel(b.subscriptions, channel)),
               Ok(|SubscribedSessions(b.subscriptions, channel)|), [])
  }

  // ---------- Events from a Provider ----------

  datatype PlannedRoute = PlannedRoute(channel: ChannelId, route: ChannelEventRoute, withSession: bool)

  predicate UpdatesSessionView(e: AgentEvent) {
    e.payload.SessionStarted? || e.payload.StateChanged? || e.payload.ConnectionChanged? || e.payload.SessionEnded?
  }

  /** Routes the event to every subscriber, in order, before anything changes. */
  function PlanRoutes(channels: map<ChannelId, ChannelDescriptor>, provider: ProviderDescriptor,
                      session: AgentSession, e: AgentEvent, ids: seq<ChannelId>)
    : (r: Result<seq<PlannedRoute>, PublishError>)
    ensures r.Err? ==> r.error.ChannelNotFound? || r.error.PublishRoute?
  {
    if ids == [] then Ok([])
    else
      var n := |ids| - 1;
      match PlanRoutes(channels, provider, session, e, ids[..n])
      case Err(error) => Err(error)
      case Ok(plan) =>
        if ids[n] !in channels then Err(ChannelNotFound(ids[n]))
        else match RouteEvent(provider, channels[ids[n]], session, e)
          case Err(error) => Err(PublishRoute(error))
          case Ok(route) =>
            Ok(plan + [PlannedRoute(ids[n], route,
                                    SessionView in channels[ids[n]].capabilities && UpdatesSessionView(e))])
  }

  /** The handoffs to one planned subscriber and the reported result. */
  function DeliverTo(p: PlannedRoute, e: AgentEvent, view: AgentSession, ports: Ports)
    : (DeliveryResult, seq<Note>)
  {
    var first := Delivery(p.channel, e.sessionId, EventHandoff(e, p.route), ports(p.channel, EventHandoff(e, p.route)));
    if !first.accepted then (EventRejected(p.channel), [first])
    else if !p.withSession then (Delivered(p.channel), [first])
    else
      var second := Delivery(p.channel, e.sessionId, SessionHandoff(view), ports(p.channel, SessionHandoff(view)));
      (if second.accepted then Delivered(p.channel) else SessionRejected(p.channel), [first, second])
  }

  /** Every planned subscriber is attempted, whatever the others answer. */
  function FanOut(plan: seq<PlannedRoute>, e: AgentEvent, view: AgentSession, ports: Ports)
    : (seq<DeliveryResult>, seq<Note>)
  {
    if plan == [] then ([], [])
    else
      var n := |plan| - 1;
      var earlier := FanOut(plan[..n], e, view, ports);
      var last := DeliverTo(plan[n], e, view, ports);
      (earlier.0 + [last.0], earlier.1 + last.1)
  }

  predicate HasFailures(deliveries: seq<DeliveryResult>) {
    exists i :: 0 <= i < |deliveries| && !deliveries[i].Delivered?
  }

  /** The session snapshot an event is validated against. */
  function RoutingSession(b: Bridge, e: AgentEvent): Option<AgentSession> {
    if e.sessionId in b.sessions then Some(b.sessions[e.sessionId].session)
    else if e.payload.SessionStarted? then Some(e.payload.session)
    else None
  }

  /** The reducer's verdict on an event: the session's next aggregate and whether it moved. */
  function ReduceInto(b: Bridge, e: AgentEvent): Result<(Aggregate, ApplyOutcome), ReduceError> {
    if e.sessionId in b.sessions then
      var step := ApplyEvent(b.sessions[e.sessionId], e);
      if step.1.Err? then Err(step.1.error) else Ok((step.0, step.1.value))
    else match Initial(e, b.config)
      case Err(error) => Err(error)
      case Ok(a) => Ok((a, Applied))
  }

  /** `Bridge::handle_provider_event`. */
  function HandleProviderEvent(b: Bridge, provider: ProviderId, e: AgentEvent, ports: Ports)
    : Reply<Result<Report, PublishError>>
  {
    if provider !in b.providers then Reply(b, Err(ProviderNotFound), [])
    else match RoutingSession(b, e)
      case None => Reply(b, Err(SessionNotStarted), [])
      case Some(session) =>
        var valid := ValidateProviderEvent(b.providers[provider], session, e);
        if valid.Fail? then Reply(b, Err(PublishRoute(valid.error)), [])
        else match PlanRoutes(b.channels, b.providers[provider], session, e, Ascending(b.Subscribers(e.sessionId)))
          case Err(error) => Reply(b, Err(error), [])
          case Ok(plan) =>
            match ReduceInto(b, e)
            case Err(error) => Reply(b, Err(PublishReduce(error)), [])
            case Ok((a, AlreadyApplied)) => Reply(b, Ok(Report(AlreadyApplied, [])), [])
            case Ok((a, Applied)) =>
              var fan := FanOut(plan, e, a.session, ports);
              var report := Report(Applied, fan.0);
              Reply(b.(sessions := b.sessions[e.sessionId := a]),
                    if HasFailures(fan.0) then Err(ChannelHandoffs(report)) else Ok(report), fan.1)
  }

  // ---------- Actions toward a Provider ----------

  /** `Bridge::handle_interaction_response`; `accepts` is the Provider Port's verdict. */
  function HandleInteractionResponse(b: Bridge, channel: ChannelId, r: InteractionResponse, accepts: bool)
    : Outcome<ActionError>
  {
    if channel !in b.channels then Fail(ActionChannelNotFound)
    else if r.sessionId !in b.sessions then Fail(ActionSessionNotFound)
    else if !b.IsSubscribed(channel, r.sessionId) then Fail(ChannelNotSubscribed)
    else
      var a := b.sessions[r.sessionId];
      if a.session.providerId !in b.providers then Fail(ActionProviderNotFound)
      else if r.requestId !in a.pending then Fail(ActionNotPending)
      else
        var valid := ValidateInteractionResponse(b.providers[a.session.providerId], b.channels[channel], a.session,
                                                 a.pending[r.requestId], r);
        if valid.Fail? then Fail(ActionRoute(valid.error))
        else if accepts then Pass else Fail(ProviderHandoff)
  }

  /** `Bridge::handle_command`. */
  function HandleCommand(b: Bridge, channel: ChannelId, c: AgentCommand, accepts: bool): Outcome<ActionError> {
    if channel !in b.channels then Fail(ActionChannelNotFound)
    else if c.sessionId !in b.sessions then Fail(ActionSessionNotFound)
    else if !b.IsSubscribed(channel, c.sessionId) then Fail(ChannelNotSubscribed)
    else
      var a := b.sessions[c.sessionId];
      if a.session.providerId !in b.providers then Fail(ActionProviderNotFound)
      else
        var valid := ValidateCommand(b.providers[a.session.providerId], b.channels[channel], a.session, c);
        if valid.Fail? then Fail(ActionRoute(valid.error))
        else if accepts then Pass else Fail(ProviderHandoff)
  }
}
