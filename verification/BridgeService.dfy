/** The Bridge as the mutable service it is: its registries and subscription table change in place,
    and each method is proved against the function that specifies it. */
module BridgeService {
  import opened Core
  import opened Order
  import opened Interaction
  import opened Routing
  import opened Aggregates
  import opened Bridges

  class Service {
    var providers: map<ProviderId, ProviderDescriptor>
    var channels: map<ChannelId, ChannelDescriptor>
    const config: Config
    var sessions: map<SessionId, Aggregate>
    var subscriptions: map<SessionId, set<ChannelId>>

    ghost function Value(): Bridge
      reads this
    {
      Bridge(providers, channels, config, sessions, subscriptions)
    }

    constructor (config: Config)
      ensures Value() == NewBridge(config)
    {
      this.config := config;
      providers, channels, sessions, subscriptions := map[], map[], map[], map[];
    }

    method RegisterProvider(d: ProviderDescriptor) returns (r: Outcome<RegistrationError>)
      modifies this
      ensures Reply(Value(), r, []) == Bridges.RegisterProvider(old(Value()), d)
    {
      if d.id in providers {
        return Fail(AlreadyRegistered);
      }
      providers := providers[d.id := d];
      r := Pass;
    }

    method RegisterChannel(d: ChannelDescriptor) returns (r: Outcome<RegistrationError>)
      modifies this
      ensures Reply(Value(), r, []) == Bridges.RegisterChannel(old(Value()), d)
    {
      if d.id in channels {
        return Fail(AlreadyRegistered);
      }
      channels := channels[d.id := d];
      r := Pass;
    }

    method IsSubscribed(channel: ChannelId, session: SessionId) returns (r: bool)
      ensures r == Value().IsSubscribed(channel, session)
    {
      r := session in subscriptions && channel in subscriptions[session];
    }

    /** Delivers one retained page and enters live delivery when the page reaches the head. */
    method SyncSession(channel: ChannelId, session: SessionId, requestedAfter: U64, limit: nat, ports: Ports)
      returns (r: Result<SyncOutcome, SubscriptionError>, notes: seq<Note>)
      modifies this
      ensures Reply(Value(), r, notes)
              == Bridges.SyncSession(old(Value()), channel, session, requestedAfter, limit, ports)
    {
      hide ChoosePage, RouteEvents, MakeBaseline;
      if limit == 0 {
        return Err(InvalidPageSize), [];
      }
      if channel !in channels {
        return Err(UnknownChannel), [];
      }
      if session !in sessions {
        return Err(UnknownSession), [];
      }
      var aggregate := sessions[session];
      var subscribed := IsSubscribed(channel, session);
      if subscribed {
        return Ok(SyncOutcome(aggregate.LastSequence(), 0, false, true, 0)), [];
      }
      if aggregate.session.providerId !in providers {
        return Err(UnknownSession), [];
      }
      var provider := providers[aggregate.session.providerId];
      var chosen := ChoosePage(aggregate, requestedAfter, limit);
      if chosen.None? {
        return Err(HistoryUnavailable), [];
      }
      var page := chosen.value;
      var through := Through(page);
      var finalPage := through == aggregate.LastSequence();
      var routed := RouteEvents(provider, channels[channel], aggregate.session, page.events);
      if routed.Err? {
        return Err(BaselineRoute(routed.error)), [];
      }
      var baseline: Option<Baseline> := None;
      var pendingCount := 0;
      if finalPage {
        var made := MakeBaseline(provider, channels[channel], aggregate);
        if made.Err? {
          return Err(BaselineRoute(made.error)), [];
        }
        baseline := Some(made.value);
        pendingCount := |made.value.pending|;
      }
      var sync := Sync(page.after, through, page.reset, routed.value, baseline);
      var accepted := ports(channel, SyncHandoff(sync));
      notes := [Delivery(channel, session, SyncHandoff(sync), accepted)];
      if !accepted {
        return Err(HandoffRejected), notes;
      }
      if finalPage {
        subscriptions := AddSubscription(subscriptions, session, channel);
      }
      r := Ok(SyncOutcome(through, |routed.value|, page.reset, finalPage, pendingCount));
    }

    /** Subscribes after the current session view was accepted. */
    method Subscribe(channel: ChannelId, session: SessionId, ports: Ports)
      returns (r: Result<SubscribeOutcome, SubscriptionError>, notes: seq<Note>)
      modifies this
      ensures Reply(Value(), r, notes) == Bridges.Subscribe(old(Value()), channel, session, ports)
    {
      hide MakeBaseline;
      if channel !in channels {
        return Err(UnknownChannel), [];
      }
      if session !in sessions {
        return Err(UnknownSession), [];
      }
      var aggregate := sessions[session];
      var subscribed := IsSubscribed(channel, session);
      if subscribed {
        return Ok(AlreadySubscribed(aggregate.LastSequence())), [];
      }
      if aggregate.session.providerId !in providers {
        return Err(UnknownSession), [];
      }
      var made := MakeBaseline(providers[aggregate.session.providerId], channels[channel], aggregate);
      if made.Err? {
        return Err(BaselineRoute(made.error)), [];
      }
      notes := [];
      var view := SessionView in channels[channel].capabilities;
      if view {
        var accepted := ports(channel, BaselineHandoff(made.value));
        notes := [Delivery(channel, session, BaselineHandoff(made.value), accepted)];
        if !accepted {
          return Err(HandoffRejected), notes;
        }
      }
      subscriptions := AddSubscription(subscriptions, session, channel);
      notes := notes + [SubscribedAt(channel, session, aggregate.LastSequence())];
      r := Ok(Subscribed(view, aggregate.LastSequence(), |made.value.pending|));
    }

    /** Cancels one subscription and drops the session's entry when it becomes empty. */
    method Unsubscribe(channel: ChannelId, session: SessionId) returns (r: Result<bool, SubscriptionError>)
      modifies this
      ensures Reply(Value(), r, []) == Bridges.Unsubscribe(old(Value()), channel, session)
    {
      if channel !in channels {
        return Err(UnknownChannel);
      }
      if session !in sessions {
        return Err(UnknownSession);
      }
      var removed := false;
      if session in subscriptions {
        removed := channel in subscriptions[session];
        subscriptions := subscriptions[session := subscriptions[session] - {channel}];
        if subscriptions[session] == {} {
          subscriptions := subscriptions - {session};
        }
      }
      r := Ok(removed);
    }

    /** Removes a Channel from every session, keeping the entries that stay non-empty and a count. */
    method UnsubscribeChannel(channel: ChannelId) returns (r: Result<nat, SubscriptionError>)
      modifies this
      ensures Reply(Value(), r, []) == Bridges.UnsubscribeChannel(old(Value()), channel)
    {
      if channel !in channels {
        return Err(UnknownChannel);
      }
      var removed;
      subscriptions, removed := RetainOthers(subscriptions, channel);
      r := Ok(removed);
    }

    /** Routes to all subscribers, reduces, then fans out to all of them even when some reject. */
    method HandleProviderEvent(provider: ProviderId, e: AgentEvent, ports: Ports)
      returns (r: Result<Report, PublishError>, notes: seq<Note>)
      modifies this
      ensures Reply(Value(), r, notes) == Bridges.HandleProviderEvent(old(Value()), provider, e, ports)
    {
      hide ValidateProviderEvent, RouteEvent, ApplyEvent, Initial, DeliverTo, UpdatesSessionView;
      ghost var b := Value();
      if provider !in providers {
        return Err(ProviderNotFound), [];
      }
      var session: AgentSession;
      if e.sessionId in sessions {
        session := sessions[e.sessionId].session;
      } else if e.payload.SessionStarted? {
        session := e.payload.session;
      } else {
        return Err(SessionNotStarted), [];
      }
      var valid := ValidateProviderEvent(providers[provider], session, e);
      if valid.Fail? {
        return Err(PublishRoute(valid.error)), [];
      }
      var planned := PlanAll(providers[provider], session, e);
      if planned.Err? {
        return Err(planned.error), [];
      }
      var next: Aggregate;
      if e.sessionId in sessions {
        var step := ApplyEvent(sessions[e.sessionId], e);
        if step.1.Err? {
          return Err(PublishReduce(step.1.error)), [];
        }
        if step.1.value == AlreadyApplied {
          return Ok(Report(AlreadyApplied, [])), [];
        }
        next := step.0;
      } else {
        var initial := Initial(e, config);
        if initial.Err? {
          return Err(PublishReduce(initial.error)), [];
        }
        next := initial.value;
      }
      sessions := sessions[e.sessionId := next];
      var deliveries, failed;
      deliveries, failed, notes := DeliverAll(planned.value, e, next.session, ports);
      var report := Report(Applied, deliveries);
      r := if failed then Err(ChannelHandoffs(report)) else Ok(report);
    }

    /** The first loop of `handle_provider_event`: every route is computed before reduction. */
    method PlanAll(provider: ProviderDescriptor, session: AgentSession, e: AgentEvent)
      returns (r: Result<seq<PlannedRoute>, PublishError>)
      ensures r == PlanRoutes(channels, provider, session, e, Ascending(Value().Subscribers(e.sessionId)))
    {
      hide RouteEvent, UpdatesSessionView, Ascending;
      var ids := Ascending(if e.sessionId in subscriptions then subscriptions[e.sessionId] else {});
      var plan: seq<PlannedRoute> := [];
      for k := 0 to |ids|
        invariant PlanRoutes(channels, provider, session, e, ids[..k]) == Ok(plan)
      {
        assert ids[..k + 1][..k] == ids[..k];
        if ids[k] !in channels {
          PlanStopsAtError(channels, provider, session, e, ids, k + 1);
          return Err(ChannelNotFound(ids[k]));
        }
        var descriptor := channels[ids[k]];
        var route := RouteEvent(provider, descriptor, session, e);
        if route.Err? {
          PlanStopsAtError(channels, provider, session, e, ids, k + 1);
          return Err(PublishRoute(route.error));
        }
        plan := plan + [PlannedRoute(ids[k], route.value,
                                     SessionView in descriptor.capabilities && UpdatesSessionView(e))];
      }
      assert ids[..|ids|] == ids;
      r := Ok(plan);
    }
  }

  /** The table after the sessions in `visited` were swept. */
  ghost function Swept(subs: map<SessionId, set<ChannelId>>, channel: ChannelId, visited: set<SessionId>)
    : map<SessionId, set<ChannelId>>
  {
    map s | s in subs && (s in visited ==> subs[s] - {channel} != {}) ::
      if s in visited then subs[s] - {channel} else subs[s]
  }

  ghost function Hits(subs: map<SessionId, set<ChannelId>>, channel: ChannelId, visited: set<SessionId>)
    : set<SessionId>
  {
    set s | s in visited && s in subs && channel in subs[s]
  }

  /** Which sessions remain, and with which Channels. */
  lemma SweptAt(subs: map<SessionId, set<ChannelId>>, channel: ChannelId, visited: set<SessionId>, t: SessionId)
    ensures t in Swept(subs, channel, visited) <==> t in subs && (t in visited ==> subs[t] - {channel} != {})
    ensures t in Swept(subs, channel, visited) ==>
              Swept(subs, channel, visited)[t] == if t in visited then subs[t] - {channel} else subs[t]
  {
  }

  lemma SweepEmptied(subs: map<SessionId, set<ChannelId>>, channel: ChannelId, visited: set<SessionId>, s: SessionId)
    requires s in subs && s !in visited && subs[s] - {channel} == {}
    ensures Swept(subs, channel, visited + {s}) == Swept(subs, channel, visited) - {s}
  {
    hide Swept;
    var after, kept := Swept(subs, channel, visited + {s}), Swept(subs, channel, visited) - {s};
    forall t ensures (t in after <==> t in kept) && (t in after && t in kept ==> after[t] == kept[t]) {
      SweptAt(subs, channel, visited, t);
      SweptAt(subs, channel, visited + {s}, t);
    }
  }

  lemma SweepReduced(subs: map<SessionId, set<ChannelId>>, channel: ChannelId, visited: set<SessionId>, s: SessionId)
    requires s in subs && s !in visited && subs[s] - {channel} != {}
    ensures Swept(subs, channel, visited + {s}) == Swept(subs, channel, visited)[s := subs[s] - {channel}]
  {
    hide Swept;
    var after, kept := Swept(subs, channel, visited + {s}), Swept(subs, channel, visited)[s := subs[s] - {channel}];
    forall t ensures (t in after <==> t in kept) && (t in after && t in kept ==> after[t] == kept[t]) {
      SweptAt(subs, channel, visited, t);
      SweptAt(subs, channel, visited + {s}, t);
    }
  }

  lemma HitOne(subs: map<SessionId, set<ChannelId>>, channel: ChannelId, visited: set<SessionId>, s: SessionId)
    requires s in subs && s !in visited
    ensures |Hits(subs, channel, visited + {s})|
            == |Hits(subs, channel, visited)| + if channel in subs[s] then 1 else 0
  {
    assert Hits(subs, channel, visited + {s})
           == Hits(subs, channel, visited) + if channel in subs[s] then {s} else {};
  }

  lemma SweepEnds(subs: map<SessionId, set<ChannelId>>, channel: ChannelId)
    ensures Swept(subs, channel, {}) == subs && Hits(subs, channel, {}) == {}
    ensures Swept(subs, channel, subs.Keys) == WithoutChannel(subs, channel)
    ensures Hits(subs, channel, subs.Keys) == SubscribedSessions(subs, channel)
  {
  }

  /** The `retain` sweep of `unsubscribe_channel`, with its counter. */
  method RetainOthers(subs: map<SessionId, set<ChannelId>>, channel: ChannelId)
    returns (kept: map<SessionId, set<ChannelId>>, removed: nat)
    ensures kept == WithoutChannel(subs, channel)
    ensures removed == |SubscribedSessions(subs, channel)|
  {
    hide Swept, Hits, WithoutChannel, SubscribedSessions, Ascending;
    var visit := Ascending(subs.Keys);
    AscendingElements(subs.Keys);
    AscendingIsSorted(subs.Keys);
    SweepEnds(subs, channel);
    kept, removed := subs, 0;
    ghost var visited: set<SessionId> := {};
    for k := 0 to |visit|
      invariant forall s :: s in visited <==> s in visit[..k]
      invariant kept == Swept(subs, channel, visited)
      invariant removed == |Hits(subs, channel, visited)|
    {
      var s := visit[k];
      assert s in visit && s !in visit[..k];
      assert visit[..k + 1] == visit[..k] + [s];
      HitOne(subs, channel, visited, s);
      if subs[s] - {channel} == {} {
        SweepEmptied(subs, channel, visited, s);
      } else {
        SweepReduced(subs, channel, visited, s);
      }
      if channel in subs[s] {
        removed := removed + 1;
      }
      var rest := subs[s] - {channel};
      kept := if rest == {} then kept - {s} else kept[s := rest];
      visited := visited + {s};
    }
    assert visit[..|visit|] == visit;
    assert visited == subs.Keys;
  }

  lemma {:induction false} PlanStopsAtError(channels: map<ChannelId, ChannelDescriptor>,
                                            provider: ProviderDescriptor, session: AgentSession, e: AgentEvent,
                                            ids: seq<ChannelId>, k: nat)
    requires 0 < k <= |ids| && PlanRoutes(channels, provider, session, e, ids[..k]).Err?
    ensures PlanRoutes(channels, provider, session, e, ids) == PlanRoutes(channels, provider, session, e, ids[..k])
    decreases |ids|
  {
    hide RouteEvent, UpdatesSessionView;
    if k < |ids| {
      assert ids[..|ids| - 1][..k] == ids[..k];
      PlanStopsAtError(channels, provider, session, e, ids[..|ids| - 1], k);
    } else {
      assert ids[..k] == ids;
    }
  }

  /** The second loop of `handle_provider_event`: one attempt per subscriber. */
  method DeliverAll(plan: seq<PlannedRoute>, e: AgentEvent, view: AgentSession, ports: Ports)
    returns (deliveries: seq<DeliveryResult>, failed: bool, notes: seq<Note>)
    ensures (deliveries, notes) == FanOut(plan, e, view, ports)
    ensures failed == HasFailures(deliveries)
  {
    deliveries, failed, notes := [], false, [];
    for k := 0 to |plan|
      invariant (deliveries, notes) == FanOut(plan[..k], e, view, ports)
      invariant failed == HasFailures(deliveries)
    {
      assert plan[..k + 1][..k] == plan[..k];
      var p := plan[k];
      ghost var before := notes;
      var accepted := ports(p.channel, EventHandoff(e, p.route));
      notes := notes + [Delivery(p.channel, e.sessionId, EventHandoff(e, p.route), accepted)];
      var result := Delivered(p.channel);
      if !accepted {
        result := EventRejected(p.channel);
      } else if p.withSession {
        accepted := ports(p.channel, SessionHandoff(view));
        notes := notes + [Delivery(p.channel, e.sessionId, SessionHandoff(view), accepted)];
        if !accepted {
          result := SessionRejected(p.channel);
        }
      }
      assert notes == before + DeliverTo(p, e, view, ports).1;
      ghost var earlier := deliveries;
      deliveries := deliveries + [result];
      assert forall i :: 0 <= i < |earlier| ==> deliveries[i] == earlier[i];
      assert deliveries[|earlier|] == result;
      failed := failed || !result.Delivered?;
    }
    assert plan[..|plan|] == plan;
  }
}
