/** What each Bridge operation does, stated operation by operation for the proofs over whole runs. */
module BridgeFacts {
  import opened Core
  import opened Order
  import opened Routing
  import opened Aggregates
  import opened History
  import opened Bridges

  ghost function EventsOf(routed: seq<RoutedEvent>): seq<AgentEvent> {
    seq(|routed|, i requires 0 <= i < |routed| => routed[i].event)
  }

  // ---------- Routing lists ----------

  /** Routing a list keeps the events, in order, each with the route it gets on its own. */
  lemma {:induction false} RouteEventsShape(provider: ProviderDescriptor, channel: ChannelDescriptor,
                                            session: AgentSession, events: seq<AgentEvent>)
    ensures var r := RouteEvents(provider, channel, session, events);
            r.Ok? ==>
              && EventsOf(r.value) == events
              && forall i :: 0 <= i < |events| ==>
                   RouteEvent(provider, channel, session, events[i]) == Ok(r.value[i].route)
  {
    hide RouteEvent;
    if events != [] {
      RouteEventsShape(provider, channel, session, events[1..]);
      var r := RouteEvents(provider, channel, session, events);
      if r.Ok? {
        var rest := RouteEvents(provider, channel, session, events[1..]).value;
        assert r.value[1..] == rest;
        forall i | 0 <= i < |events|
          ensures r.value[i].event == events[i]
          ensures RouteEvent(provider, channel, session, events[i]) == Ok(r.value[i].route)
        {
          if i > 0 {
            assert events[1..][i - 1] == events[i];
            assert EventsOf(rest)[i - 1] == rest[i - 1].event;
          }
        }
      }
    }
  }

  lemma {:induction false} RouteEventsSucceeds(provider: ProviderDescriptor, channel: ChannelDescriptor,
                                               session: AgentSession, events: seq<AgentEvent>)
    requires forall i :: 0 <= i < |events| ==> RouteEvent(provider, channel, session, events[i]).Ok?
    ensures RouteEvents(provider, channel, session, events).Ok?
  {
    hide RouteEvent;
    if events != [] {
      assert RouteEvent(provider, channel, session, events[0]).Ok?;
      assert forall i :: 0 <= i < |events[1..]| ==> events[1..][i] == events[i + 1];
      RouteEventsSucceeds(provider, channel, session, events[1..]);
    }
  }

  lemma {:induction false} RouteRequestsShape(provider: ProviderDescriptor, channel: ChannelDescriptor,
                                              session: AgentSession, requests: seq<InteractionRequest>)
    ensures var r := RouteRequests(provider, channel, session, requests);
            r.Ok? ==>
              && |r.value| == |requests|
              && forall i :: 0 <= i < |requests| ==>
                   && r.value[i].request == requests[i]
                   && RouteInteraction(provider, channel, session, requests[i]) == Ok(r.value[i].mode)
  {
    hide RouteInteraction;
    if requests != [] {
      RouteRequestsShape(provider, channel, session, requests[1..]);
      var r := RouteRequests(provider, channel, session, requests);
      if r.Ok? {
        assert r.value[1..] == RouteRequests(provider, channel, session, requests[1..]).value;
        forall i | 0 < i < |requests|
          ensures r.value[i].request == requests[i]
          ensures RouteInteraction(provider, channel, session, requests[i]) == Ok(r.value[i].mode)
        {
          assert requests[1..][i - 1] == requests[i] && r.value[1..][i - 1] == r.value[i];
        }
      }
    }
  }

  lemma {:induction false} RouteRequestsSucceeds(provider: ProviderDescriptor, channel: ChannelDescriptor,
                                                 session: AgentSession, requests: seq<InteractionRequest>)
    requires forall i :: 0 <= i < |requests| ==> RouteInteraction(provider, channel, session, requests[i]).Ok?
    ensures RouteRequests(provider, channel, session, requests).Ok?
  {
    hide RouteInteraction;
    if requests != [] {
      assert RouteInteraction(provider, channel, session, requests[0]).Ok?;
      assert forall i :: 0 <= i < |requests[1..]| ==> requests[1..][i] == requests[i + 1];
      RouteRequestsSucceeds(provider, channel, session, requests[1..]);
    }
  }

  // ---------- Fan-out ----------

  /** The plan lists the subscribers in order, each with its own route. */
  lemma {:induction false} PlanShape(channels: map<ChannelId, ChannelDescriptor>, provider: ProviderDescriptor,
                                     session: AgentSession, e: AgentEvent, ids: seq<ChannelId>)
    ensures var r := PlanRoutes(channels, provider, session, e, ids);
            r.Ok? ==>
              && |r.value| == |ids|
              && forall i :: 0 <= i < |ids| ==>
                   && r.value[i].channel == ids[i] && ids[i] in channels
                   && RouteEvent(provider, channels[ids[i]], session, e) == Ok(r.value[i].route)
                   && r.value[i].withSession ==
                      (SessionView in channels[ids[i]].capabilities && UpdatesSessionView(e))
  {
    hide RouteEvent, UpdatesSessionView;
    if ids != [] {
      var n := |ids| - 1;
      PlanShape(channels, provider, session, e, ids[..n]);
      var r := PlanRoutes(channels, provider, session, e, ids);
      if r.Ok? {
        var earlier := PlanRoutes(channels, provider, session, e, ids[..n]).value;
        assert forall i :: 0 <= i < n ==> r.value[i] == earlier[i] && ids[..n][i] == ids[i];
      }
    }
  }

  lemma {:induction false} PlanSucceeds(channels: map<ChannelId, ChannelDescriptor>, provider: ProviderDescriptor,
                                        session: AgentSession, e: AgentEvent, ids: seq<ChannelId>)
    requires e.Constructible() && ValidateProviderEvent(provider, session, e).Pass?
    requires forall i :: 0 <= i < |ids| ==> ids[i] in channels
    ensures PlanRoutes(channels, provider, session, e, ids).Ok?
  {
    hide RouteEvent, ValidateProviderEvent, UpdatesSessionView;
    if ids != [] {
      var n := |ids| - 1;
      PlanSucceeds(channels, provider, session, e, ids[..n]);
      ValidatedEventsRoute(provider, channels[ids[n]], session, e);
    }
  }

  /** Every planned subscriber is reported exactly once, in the planned order. */
  lemma {:induction false} FanOutReportsAll(plan: seq<PlannedRoute>, e: AgentEvent, view: AgentSession, ports: Ports)
    ensures var results := FanOut(plan, e, view, ports).0;
            && |results| == |plan|
            && forall i :: 0 <= i < |plan| ==> results[i] == DeliverTo(plan[i], e, view, ports).0
  {
    hide DeliverTo;
    if plan != [] {
      FanOutReportsAll(plan[..|plan| - 1], e, view, ports);
    }
  }

  // ---------- Shapes of whole operations ----------

  /** The event moved its session, even if some Channel rejected the handoff. */
  ghost predicate Moved(result: Result<Report, PublishError>) {
    match result
    case Ok(report) => report.outcome == Applied
    case Err(error) => error.ChannelHandoffs?
  }

  /** Publishing either leaves the Bridge as it was and tells nobody, or replaces exactly one
      aggregate by its successor and fans the event out to all subscribers. */
  lemma PublishShape(b: Bridge, provider: ProviderId, e: AgentEvent, ports: Ports)
    ensures var r := HandleProviderEvent(b, provider, e, ports);
            if !Moved(r.result) then r.bridge == b && r.notes == []
            else
              && provider in b.providers
              && RoutingSession(b, e).Some?
              && ValidateProviderEvent(b.providers[provider], RoutingSession(b, e).value, e).Pass?
              && ReduceInto(b, e).Ok? && ReduceInto(b, e).value.1 == Applied
              && r.bridge == b.(sessions := b.sessions[e.sessionId := ReduceInto(b, e).value.0])
              && var plan := PlanRoutes(b.channels, b.providers[provider], RoutingSession(b, e).value, e,
                                        Ascending(b.Subscribers(e.sessionId)));
                 && plan.Ok?
                 && r.notes == FanOut(plan.value, e, ReduceInto(b, e).value.0.session, ports).1
                 && var report := if r.result.Ok? then r.result.value else r.result.error.report;
                    report.deliveries == FanOut(plan.value, e, ReduceInto(b, e).value.0.session, ports).0
                    && (r.result.Err? <==> HasFailures(report.deliveries))
  {
    hide ValidateProviderEvent, PlanRoutes, ReduceInto, FanOut, RoutingSession, Ascending, HasFailures;
  }

  /** The chosen page is a slice of the history. With complete retention there always is one, and
      it starts over exactly when the requested cursor is ahead of the session. */
  lemma ChooseShape(h: seq<AgentEvent>, a: Aggregate, after: U64, limit: nat)
    requires IsHistory(h, a) && limit > 0
    ensures var chosen := ChoosePage(a, after, limit);
            && (chosen.Some? ==>
                  var page := chosen.value;
                  && page.after <= |h|
                  && page.events == h[page.after..page.after + Min(limit, |h| - page.after)]
                  && Through(page) == page.after + |page.events|
                  && (if page.reset then page.after == 0 && !Covered(a, h, after) else page.after == after))
            && (chosen.Some? <==> Covered(a, h, after) || Covered(a, h, 0))
            && (a.config.retainAll ==> chosen.Some? && (chosen.value.reset <==> after > |h|))
  {
    hide Page, IsHistory;
    PageIsSlice(h, a, after, limit);
    PageIsSlice(h, a, 0, limit);
    Identity(h, a);
    SequencesOf(h, a);
  }

  lemma SequencesOf(h: seq<AgentEvent>, a: Aggregate)
    requires IsHistory(h, a)
    ensures forall i :: 0 <= i < |h| ==> h[i].sequence == i + 1
  {
  }

  /** A synchronisation message carries exactly the chosen events, and a baseline exactly when it
      reaches the head of the session. */
  lemma MakeSyncShape(provider: ProviderDescriptor, channel: ChannelDescriptor, a: Aggregate, page: Chosen)
    ensures var r := MakeSync(provider, channel, a, page);
            r.Ok? ==>
              && r.value.after == page.after && r.value.through == Through(page) && r.value.reset == page.reset
              && |r.value.events| == |page.events| && EventsOf(r.value.events) == page.events
              && (r.value.baseline.Some? <==> Through(page) == a.LastSequence())
              && (r.value.baseline.Some? ==> MakeBaseline(provider, channel, a) == Ok(r.value.baseline.value))
  {
    hide RouteEvents, MakeBaseline, Through;
    RouteEventsShape(provider, channel, a.session, page.events);
    var routed := RouteEvents(provider, channel, a.session, page.events);
    if routed.Ok? {
      assert |EventsOf(routed.value)| == |routed.value|;
    }
  }

  /** Synchronising either hands nothing over and changes nothing, or hands one message over and,
      when it is accepted and final, installs the subscription. */
  lemma SyncShape(b: Bridge, channel: ChannelId, session: SessionId, after: U64, limit: nat, ports: Ports)
    ensures var r := SyncSession(b, channel, session, after, limit, ports);
            if r.notes == [] then r.bridge == b
            else
              && limit > 0 && channel in b.channels && session in b.sessions && !b.IsSubscribed(channel, session)
              && var a := b.sessions[session];
                 && a.session.providerId in b.providers
                 && ChoosePage(a, after, limit).Some?
                 && var made := MakeSync(b.providers[a.session.providerId], b.channels[channel], a,
                                         ChoosePage(a, after, limit).value);
                    && made.Ok?
                    && var accepted := ports(channel, SyncHandoff(made.value));
                       && r.notes == [Delivery(channel, session, SyncHandoff(made.value), accepted)]
                       && (!accepted ==> r.result.Err? && r.bridge == b)
                       && (accepted ==>
                             && r.result.Ok?
                             && r.result.value.through == made.value.through
                             && r.result.value.eventCount == |made.value.events|
                             && r.result.value.reset == made.value.reset
                             && r.result.value.subscribed == made.value.baseline.Some?
                             && r.result.value.pendingCount ==
                                (if made.value.baseline.Some? then |made.value.baseline.value.pending| else 0)
                             && r.bridge ==
                                (if made.value.baseline.Some?
                                 then b.(subscriptions := AddSubscription(b.subscriptions, session, channel))
                                 else b))
  {
    hide ChoosePage, MakeSync, AddSubscription;
  }

  /** Plain subscription: nothing happens, or the baseline was rejected, or the subscription is installed. */
  lemma SubscribeShape(b: Bridge, channel: ChannelId, session: SessionId, ports: Ports)
    ensures var r := Subscribe(b, channel, session, ports);
            if r.notes == [] then r.bridge == b
            else
              && channel in b.channels && session in b.sessions && !b.IsSubscribed(channel, session)
              && var a := b.sessions[session];
                 && a.session.providerId in b.providers
                 && var made := MakeBaseline(b.providers[a.session.providerId], b.channels[channel], a);
                    && made.Ok?
                    && var view := SessionView in b.channels[channel].capabilities;
                       && var accepted := !view || ports(channel, BaselineHandoff(made.value));
                          && r.notes ==
                             (if view then [Delivery(channel, session, BaselineHandoff(made.value), accepted)] else [])
                             + (if accepted then [SubscribedAt(channel, session, a.LastSequence())] else [])
                          && r.bridge ==
                             if accepted then b.(subscriptions := AddSubscription(b.subscriptions, session, channel))
                             else b
  {
    hide MakeBaseline, AddSubscription;
  }

  lemma BaselineShape(provider: ProviderDescriptor, channel: ChannelDescriptor, a: Aggregate)
    ensures var r := MakeBaseline(provider, channel, a);
            r.Ok? ==>
              && r.value.session == a.session && r.value.sequence == a.LastSequence()
              && |r.value.pending| == |PendingRequests(a)|
              && forall i :: 0 <= i < |r.value.pending| ==>
                   && r.value.pending[i].request == PendingRequests(a)[i]
                   && RouteInteraction(provider, channel, a.session, PendingRequests(a)[i])
                      == Ok(r.value.pending[i].mode)
  {
    hide PendingRequests, RouteInteraction;
    RouteRequestsShape(provider, channel, a.session, PendingRequests(a));
  }

  // ---------- Subscription tables ----------

  /** One subscription is added or removed and every other one stays. */
  lemma SubscriptionEdits(subs: map<SessionId, set<ChannelId>>, session: SessionId, channel: ChannelId,
                          s: SessionId, c: ChannelId)
    ensures var added := AddSubscription(subs, session, channel);
            (s in added && c in added[s]) <==> (s in subs && c in subs[s]) || (s == session && c == channel)
    ensures var dropped := DropSubscription(subs, session, channel);
            (s in dropped && c in dropped[s]) <==> (s in subs && c in subs[s]) && !(s == session && c == channel)
    ensures var without := WithoutChannel(subs, channel);
            (s in without && c in without[s]) <==> (s in subs && c in subs[s]) && c != channel
  {
    var dropped := DropSubscription(subs, session, channel);
    if session in subs && subs[session] - {channel} == {} && s == session && c in subs[s] {
      assert c in {channel};
    }
    var without := WithoutChannel(subs, channel);
    if s in subs && c in subs[s] && c != channel {
      assert c in subs[s] - {channel};
    }
  }
}
