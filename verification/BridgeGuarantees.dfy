/** What clients of the Bridge can rely on: stored state always re-routes, catch-up joined with live
    delivery has no gap, repeat or reordering, and a forwarded answer is one the reducer accepts. */
module BridgeGuarantees {
  import opened Core
  import opened Order
  import opened Interaction
  import opened Routing
  import opened Aggregates
  import opened History
  import opened Bridges
  import opened BridgeFacts
  import opened BridgeRuns

  // ---------- Stored state always re-routes ----------

  lemma ValidatedAt(provider: ProviderDescriptor, session: AgentSession, h: seq<AgentEvent>, i: nat)
    requires Validated(provider, session, h) && i < |h|
    ensures ValidateProviderEvent(provider, session, h[i]).Pass?
  {
  }

  lemma BuiltAt(h: seq<AgentEvent>, a: Aggregate, i: nat)
    requires IsHistory(h, a) && i < |h|
    ensures h[i].Constructible()
  {
  }

  /** Any stored event and any pending request still routes to any Channel. */
  lemma StoredEventsRoute(w: World, session: SessionId, channel: ChannelDescriptor, i: nat)
    requires Inv(w) && session in w.bridge.sessions && i < |w.history[session]|
    ensures var a := w.bridge.sessions[session];
            && a.session.providerId in w.bridge.providers
            && RouteEvent(w.bridge.providers[a.session.providerId], channel, a.session, w.history[session][i]).Ok?
            && (w.history[session][i].payload.InteractionRequested? ==>
                  RouteInteraction(w.bridge.providers[a.session.providerId], channel, a.session,
                                   w.history[session][i].payload.request).Ok?)
  {
    hide IsHistory, Validated, RouteEvent, RouteInteraction, ValidateProviderEvent;
    var a, h := w.bridge.sessions[session], w.history[session];
    assert SessionInv(w.bridge, session, h);
    ValidatedAt(w.bridge.providers[a.session.providerId], a.session, h, i);
    BuiltAt(h, a, i);
    ValidatedEventsRoute(w.bridge.providers[a.session.providerId], channel, a.session, h[i]);
  }

  lemma PendingComesFromHistory(w: World, session: SessionId, k: nat)
    requires Inv(w) && session in w.bridge.sessions && k < |PendingRequests(w.bridge.sessions[session])|
    ensures exists i :: 0 <= i < |w.history[session]|
              && w.history[session][i].payload == InteractionRequested(PendingRequests(w.bridge.sessions[session])[k])
  {
    hide IsHistory, Validated, Ascending;
    var a, h := w.bridge.sessions[session], w.history[session];
    assert SessionInv(w.bridge, session, h);
    var ids := Ascending(a.pending.Keys);
    AscendingElements(a.pending.Keys);
    assert ids[k] in ids;
    var request := PendingRequests(a)[k];
    assert request == a.pending[ids[k]];
    PendingIsOpen(h, a, InteractionRequest(ids[k], 0, 0, None, SAMPLE_TEXT, TextRequest(None, false)));
    var i :| OpenAt(h, i, request);
    assert h[i].payload == InteractionRequested(request);
  }

  lemma BaselinesRoute(w: World, session: SessionId, channel: ChannelDescriptor)
    requires Inv(w) && session in w.bridge.sessions
    ensures var a := w.bridge.sessions[session];
            && a.session.providerId in w.bridge.providers
            && MakeBaseline(w.bridge.providers[a.session.providerId], channel, a).Ok?
  {
    hide IsHistory, Validated, RouteEvent, RouteInteraction, PendingRequests;
    var a := w.bridge.sessions[session];
    assert SessionInv(w.bridge, session, w.history[session]);
    var provider, requests := w.bridge.providers[a.session.providerId], PendingRequests(a);
    forall k | 0 <= k < |requests| ensures RouteInteraction(provider, channel, a.session, requests[k]).Ok? {
      PendingComesFromHistory(w, session, k);
      var i :| 0 <= i < |w.history[session]| && w.history[session][i].payload == InteractionRequested(requests[k]);
      StoredEventsRoute(w, session, channel, i);
    }
    RouteRequestsSucceeds(provider, channel, a.session, requests);
  }

  lemma SyncsRoute(w: World, session: SessionId, channel: ChannelDescriptor, after: U64, limit: nat)
    requires Inv(w) && session in w.bridge.sessions && limit > 0
    requires ChoosePage(w.bridge.sessions[session], after, limit).Some?
    ensures var a := w.bridge.sessions[session];
            && a.session.providerId in w.bridge.providers
            && MakeSync(w.bridge.providers[a.session.providerId], channel, a,
                        ChoosePage(a, after, limit).value).Ok?
  {
    hide IsHistory, Validated, RouteEvent, RouteInteraction, MakeBaseline, ChoosePage, RouteEvents;
    var a, h := w.bridge.sessions[session], w.history[session];
    assert SessionInv(w.bridge, session, h);
    var provider, page := w.bridge.providers[a.session.providerId], ChoosePage(a, after, limit).value;
    ChooseShape(h, a, after, limit);
    forall i | 0 <= i < |page.events| ensures RouteEvent(provider, channel, a.session, page.events[i]).Ok? {
      assert page.events[i] == h[page.after + i];
      StoredEventsRoute(w, session, channel, page.after + i);
    }
    RouteEventsSucceeds(provider, channel, a.session, page.events);
    BaselinesRoute(w, session, channel);
  }

  /** The errors that would mean a corrupted registry never occur: no stored event or pending request
      fails to route, no subscriber is missing, and no live session has lost its Provider. */
  lemma RegistryErrorsAreUnreachable(w: World, channel: ChannelId, session: SessionId, after: U64, limit: nat,
                                     ports: Ports, from: ProviderId, e: AgentEvent, r: InteractionResponse,
                                     c: AgentCommand, accepts: bool)
    requires Inv(w) && e.Constructible()
    ensures var result := SyncSession(w.bridge, channel, session, after, limit, ports).result;
            result.Err? ==> !result.error.BaselineRoute?
    ensures var result := Subscribe(w.bridge, channel, session, ports).result;
            result.Err? ==> !result.error.BaselineRoute?
    ensures var result := HandleProviderEvent(w.bridge, from, e, ports).result;
            result.Err? ==> !result.error.ChannelNotFound?
    ensures HandleInteractionResponse(w.bridge, channel, r, accepts) != Fail(ActionProviderNotFound)
    ensures HandleCommand(w.bridge, channel, c, accepts) != Fail(ActionProviderNotFound)
  {
    SyncNeverMisroutes(w, channel, session, after, limit, ports);
    SubscribeNeverMisroutes(w, channel, session, ports);
    SubscribersExist(w, from, e, ports);
    ActionsFindProvider(w, channel, r, c, accepts);
  }

  lemma SyncNeverMisroutes(w: World, channel: ChannelId, session: SessionId, after: U64, limit: nat, ports: Ports)
    requires Inv(w)
    ensures var result := SyncSession(w.bridge, channel, session, after, limit, ports).result;
            result.Err? ==> !result.error.BaselineRoute?
  {
    hide Inv, ChoosePage, MakeSync, AddSubscription;
    var b := w.bridge;
    if limit > 0 && channel in b.channels && session in b.sessions
       && ChoosePage(b.sessions[session], after, limit).Some? {
      SyncsRoute(w, session, b.channels[channel], after, limit);
    }
  }

  lemma SubscribeNeverMisroutes(w: World, channel: ChannelId, session: SessionId, ports: Ports)
    requires Inv(w)
    ensures var result := Subscribe(w.bridge, channel, session, ports).result;
            result.Err? ==> !result.error.BaselineRoute?
  {
    hide Inv, MakeBaseline, AddSubscription;
    var b := w.bridge;
    if channel in b.channels && session in b.sessions {
      BaselinesRoute(w, session, b.channels[channel]);
    }
  }

  lemma SubscribersExist(w: World, from: ProviderId, e: AgentEvent, ports: Ports)
    requires Inv(w) && e.Constructible()
    ensures var result := HandleProviderEvent(w.bridge, from, e, ports).result;
            result.Err? ==> !result.error.ChannelNotFound?
  {
    hide SessionInv, PlanRoutes, ReduceInto, FanOut, RoutingSession, ValidateProviderEvent, Ascending, HasFailures;
    var b := w.bridge;
    var ids := Ascending(b.Subscribers(e.sessionId));
    AscendingElements(b.Subscribers(e.sessionId));
    forall i | 0 <= i < |ids| ensures ids[i] in b.channels {
      assert ids[i] in ids;
      assert b.IsSubscribed(ids[i], e.sessionId);
    }
    if from in b.providers && RoutingSession(b, e).Some?
       && ValidateProviderEvent(b.providers[from], RoutingSession(b, e).value, e).Pass? {
      PlanSucceeds(b.channels, b.providers[from], RoutingSession(b, e).value, e, ids);
    }
  }

  lemma ActionsFindProvider(w: World, channel: ChannelId, r: InteractionResponse, c: AgentCommand, accepts: bool)
    requires Inv(w)
    ensures HandleInteractionResponse(w.bridge, channel, r, accepts) != Fail(ActionProviderNotFound)
    ensures HandleCommand(w.bridge, channel, c, accepts) != Fail(ActionProviderNotFound)
  {
    hide IsHistory, Validated, ValidateInteractionResponse, ValidateCommand;
    if r.sessionId in w.bridge.sessions {
      assert SessionInv(w.bridge, r.sessionId, w.history[r.sessionId]);
    }
    if c.sessionId in w.bridge.sessions {
      assert SessionInv(w.bridge, c.sessionId, w.history[c.sessionId]);
    }
  }

  /** The configuration and descriptors are immutable, and a session keeps its identity and its Provider. */
  ghost predicate Grows(b: Bridge, b': Bridge) {
    && b'.config == b.config
    && (forall p :: p in b.providers ==> p in b'.providers && b'.providers[p] == b.providers[p])
    && (forall c :: c in b.channels ==> c in b'.channels && b'.channels[c] == b.channels[c])
    && (forall s :: s in b.sessions ==>
          s in b'.sessions && b'.sessions[s].session.id == b.sessions[s].session.id
          && b'.sessions[s].session.providerId == b.sessions[s].session.providerId)
  }

  lemma StepGrows(w: World, op: Op)
    requires Inv(w) && op.Legal()
    ensures Grows(w.bridge, Step(w, op).bridge)
  {
    hide HandleProviderEvent, SyncSession, Subscribe, SessionInv, AddSubscription, DropSubscription, WithoutChannel,
         ChoosePage, MakeSync, MakeBaseline, TableInv;
    var b := w.bridge;
    match op
    case Publish(from, e, ports) => PublishGrows(w, from, e, ports);
    case AddProvider(d) =>
    case AddChannel(d) =>
    case RequestPage(channel, session, after, limit, ports) => SyncShape(b, channel, session, after, limit, ports);
    case RequestLive(channel, session, ports) => SubscribeShape(b, channel, session, ports);
    case Leave(channel, session) =>
    case LeaveAll(channel) =>
  }

  lemma PublishGrows(w: World, from: ProviderId, e: AgentEvent, ports: Ports)
    requires Inv(w) && e.Constructible()
    ensures Grows(w.bridge, HandleProviderEvent(w.bridge, from, e, ports).bridge)
  {
    hide HandleProviderEvent, SessionInv, ApplyEvent, Initial, PlanRoutes, FanOut, Ascending, ValidateProviderEvent,
         RoutingSession, HasFailures, TableInv;
    PublishShape(w.bridge, from, e, ports);
    if Moved(HandleProviderEvent(w.bridge, from, e, ports).result) && e.sessionId in w.bridge.sessions {
      PublishedSession(w, from, e, ports);
      ReduceKeepsIdentity(w.bridge.sessions[e.sessionId], e);
    }
  }

  lemma GrowsReflexively(b: Bridge)
    ensures Grows(b, b)
  {
  }

  lemma GrowsTransitively(a: Bridge, b: Bridge, c: Bridge)
    requires Grows(a, b) && Grows(b, c)
    ensures Grows(a, c)
  {
  }

  lemma {:induction false} RunGrows(config: Config, ops: seq<Op>, more: seq<Op>)
    requires LegalRun(ops + more)
    ensures Grows(Run(Fresh(config), ops).bridge, Run(Fresh(config), ops + more).bridge)
    decreases |more|
  {
    hide Step, Grows, Inv;
    if more == [] {
      assert ops + more == ops;
      GrowsReflexively(Run(Fresh(config), ops).bridge);
    } else {
      var n := |more| - 1;
      var all := ops + more;
      assert all[..|all| - 1] == ops + more[..n] && all[|all| - 1] == more[n];
      assert LegalRun(ops + more[..n]) by {
        assert forall i :: 0 <= i < |ops + more[..n]| ==> (ops + more[..n])[i] == all[i];
      }
      RunGrows(config, ops, more[..n]);
      RunKeepsInv(config, ops + more[..n]);
      StepGrows(Run(Fresh(config), ops + more[..n]), more[n]);
      GrowsTransitively(Run(Fresh(config), ops).bridge, Run(Fresh(config), ops + more[..n]).bridge,
                        Run(Fresh(config), all).bridge);
    }
  }

  /** An event replayed to a Channel at any later point of the run gets the route it got when it was live. */
  lemma ReplayedRouteIsLive(config: Config, ops: seq<Op>, more: seq<Op>, session: SessionId, channel: ChannelId,
                            e: AgentEvent)
    requires LegalRun(ops + more)
    requires var b := Run(Fresh(config), ops).bridge; session in b.sessions && channel in b.channels
    ensures var b, b' := Run(Fresh(config), ops).bridge, Run(Fresh(config), ops + more).bridge;
            && session in b'.sessions && channel in b'.channels
            && var a, a' := b.sessions[session].session, b'.sessions[session].session;
               && a'.providerId == a.providerId && a.providerId in b.providers && a.providerId in b'.providers
               && RouteEvent(b'.providers[a.providerId], b'.channels[channel], a', e)
                  == RouteEvent(b.providers[a.providerId], b.channels[channel], a, e)
  {
    hide Run, IsHistory, Validated, RouteEvent;
    assert LegalRun(ops) by {
      assert forall i :: 0 <= i < |ops| ==> ops[i] == (ops + more)[i];
    }
    RunKeepsInv(config, ops);
    RunGrows(config, ops, more);
    var w, w' := Run(Fresh(config), ops), Run(Fresh(config), ops + more);
    assert SessionInv(w.bridge, session, w.history[session]);
    var a, a' := w.bridge.sessions[session].session, w'.bridge.sessions[session].session;
    RoutesIgnoreSnapshotDetails(w.bridge.providers[a.providerId], w.bridge.channels[channel], a, a', e);
  }

  // ---------- What one Channel knows about one session ----------

  /** A client's record: the cursor it first asked from, the events received since, the cursor it
      passes back on its next request, and the latest session view. */
  datatype View = View(base: nat, received: seq<AgentEvent>, cursor: nat, session: Option<AgentSession>)

  /** A client that has read nothing and will ask from `from`. */
  ghost function NewClient(from: nat): View {
    View(from, [], from, None)
  }

  /** A client appends every event it is handed. Only a page marked as a reset, or its own plain
      subscription, makes it start over. The cursor is the last sequence or page end it was told. */
  ghost function ObserveHandoff(v: View, handoff: Handoff): View {
    match handoff
    case EventHandoff(e, _) => v.(received := v.received + [e], cursor := e.sequence)
    case SessionHandoff(session) => v.(session := Some(session))
    case BaselineHandoff(baseline) => View(baseline.sequence, [], baseline.sequence, Some(baseline.session))
    case SyncHandoff(sync) =>
      var kept := if sync.reset then View(0, [], 0, v.session) else v;
      View(kept.base, kept.received + EventsOf(sync.events), sync.through,
           if sync.baseline.Some? then Some(sync.baseline.value.session) else v.session)
  }

  ghost function Observe(v: View, note: Note, channel: ChannelId, session: SessionId): View {
    if note.channel != channel || note.about != session then v
    else match note
      case SubscribedAt(_, _, sequence) => View(sequence, [], sequence, v.session)
      case Delivery(_, _, handoff, accepted) => if accepted then ObserveHandoff(v, handoff) else v
  }

  ghost function ObserveAll(v: View, notes: seq<Note>, channel: ChannelId, session: SessionId): View {
    if notes == [] then v
    else Observe(ObserveAll(v, notes[..|notes| - 1], channel, session), notes[|notes| - 1], channel, session)
  }

  lemma {:induction false} ObserveConcat(v: View, a: seq<Note>, b: seq<Note>, channel: ChannelId, session: SessionId)
    ensures ObserveAll(v, a + b, channel, session) == ObserveAll(ObserveAll(v, a, channel, session), b, channel, session)
    decreases |b|
  {
    hide Observe;
    if b == [] {
      assert a + b == a;
    } else {
      var n := |b| - 1;
      ObserveConcat(v, a, b[..n], channel, session);
      assert (a + b)[..|a + b| - 1] == a + b[..n];
    }
  }

  /** The Channel accepted every handoff it was offered. */
  ghost predicate AcceptedAll(notes: seq<Note>, channel: ChannelId) {
    forall i :: 0 <= i < |notes| ==> notes[i].Delivery? && notes[i].channel == channel ==> notes[i].accepted
  }

  ghost function ViewOf(w: World, channel: ChannelId, session: SessionId, from: nat): View {
    ObserveAll(NewClient(from), w.notes, channel, session)
  }

  /** A subscriber with SESSION_VIEW holds the current snapshot. */
  ghost predicate ShowsSession(w: World, channel: ChannelId, session: SessionId, v: View) {
    w.bridge.IsSubscribed(channel, session) && session in w.bridge.sessions && channel in w.bridge.channels
    && SessionView in w.bridge.channels[channel].capabilities ==>
      v.session == Some(w.bridge.sessions[session].session)
  }

  /** The client has read nothing yet, or exactly the history from where it asked to its cursor;
      and a subscriber's cursor is the head. */
  ghost predicate HoldsSlice(w: World, channel: ChannelId, session: SessionId, from: nat, v: View) {
    var h, live := HistoryOf(w, session), w.bridge.IsSubscribed(channel, session);
    || (!live && v == NewClient(from).(session := v.session))
    || (&& v.base <= v.cursor <= |h| && v.received == h[v.base..v.cursor]
        && (live ==> v.cursor == |h|))
  }

  /** Every page this client asks for starts at its cursor. */
  ghost predicate Asks(op: Op, channel: ChannelId, session: SessionId, cursor: nat) {
    op.RequestPage? && op.pageChannel == channel && op.pageSession == session ==> op.after == cursor
  }

  // ---------- Live fan-out, seen by one Channel ----------

  ghost predicate Distinct(plan: seq<PlannedRoute>) {
    forall i, j :: 0 <= i < j < |plan| ==> plan[i].channel != plan[j].channel
  }

  ghost predicate Targets(plan: seq<PlannedRoute>, channel: ChannelId, withSession: bool) {
    exists i :: 0 <= i < |plan| && plan[i].channel == channel && plan[i].withSession == withSession
  }

  ghost predicate Misses(plan: seq<PlannedRoute>, channel: ChannelId) {
    forall i :: 0 <= i < |plan| ==> plan[i].channel != channel
  }

  lemma ObserveOneOrTwo(v: View, notes: seq<Note>, channel: ChannelId, session: SessionId)
    ensures |notes| == 1 ==> ObserveAll(v, notes, channel, session) == Observe(v, notes[0], channel, session)
    ensures |notes| == 2 ==>
              ObserveAll(v, notes, channel, session)
              == Observe(Observe(v, notes[0], channel, session), notes[1], channel, session)
  {
    hide Observe;
    if |notes| == 2 {
      assert notes[..1] == [notes[0]] && notes[..1][..0] == [];
      assert ObserveAll(v, notes[..1], channel, session) == Observe(v, notes[0], channel, session);
    }
  }

  lemma DeliverToOthers(p: PlannedRoute, e: AgentEvent, view: AgentSession, ports: Ports, channel: ChannelId,
                        session: SessionId, v: View)
    requires p.channel != channel || e.sessionId != session
    ensures ObserveAll(v, DeliverTo(p, e, view, ports).1, channel, session) == v
  {
    var notes := DeliverTo(p, e, view, ports).1;
    ObserveOneOrTwo(v, notes, channel, session);
  }

  lemma DeliverToTarget(p: PlannedRoute, e: AgentEvent, view: AgentSession, ports: Ports, v: View)
    requires AcceptedAll(DeliverTo(p, e, view, ports).1, p.channel)
    ensures ObserveAll(v, DeliverTo(p, e, view, ports).1, p.channel, e.sessionId)
            == v.(received := v.received + [e], cursor := e.sequence,
                 session := if p.withSession then Some(view) else v.session)
  {
    var notes := DeliverTo(p, e, view, ports).1;
    ObserveOneOrTwo(v, notes, p.channel, e.sessionId);
    assert notes[0].accepted;
    assert |notes| == 2 ==> notes[1].accepted;
  }

  lemma {:induction false} FanOutPassesBy(plan: seq<PlannedRoute>, e: AgentEvent, view: AgentSession, ports: Ports,
                                          channel: ChannelId, session: SessionId, v: View)
    requires Misses(plan, channel) || e.sessionId != session
    ensures ObserveAll(v, FanOut(plan, e, view, ports).1, channel, session) == v
  {
    hide DeliverTo, ObserveAll;
    if plan == [] {
      EmptyObservation(v, channel, session);
    } else {
      var n := |plan| - 1;
      var earlier, last := FanOut(plan[..n], e, view, ports).1, DeliverTo(plan[n], e, view, ports).1;
      FanOutPassesBy(plan[..n], e, view, ports, channel, session, v);
      ObserveConcat(v, earlier, last, channel, session);
      DeliverToOthers(plan[n], e, view, ports, channel, session, v);
    }
  }

  lemma EmptyObservation(v: View, channel: ChannelId, session: SessionId)
    ensures ObserveAll(v, [], channel, session) == v
  {
  }

  /** Each targeted Channel sees the event exactly once, and the new session view when it is due one. */
  lemma {:induction false} FanOutReaches(plan: seq<PlannedRoute>, e: AgentEvent, view: AgentSession, ports: Ports,
                                         channel: ChannelId, withSession: bool, v: View)
    requires Distinct(plan) && Targets(plan, channel, withSession)
    requires AcceptedAll(FanOut(plan, e, view, ports).1, channel)
    ensures ObserveAll(v, FanOut(plan, e, view, ports).1, channel, e.sessionId)
            == v.(received := v.received + [e], cursor := e.sequence,
                  session := if withSession then Some(view) else v.session)
    decreases |plan|
  {
    hide DeliverTo, ObserveAll;
    var n := |plan| - 1;
    var earlier, last := FanOut(plan[..n], e, view, ports).1, DeliverTo(plan[n], e, view, ports).1;
    var notes := FanOut(plan, e, view, ports).1;
    assert notes == earlier + last;
    ObserveConcat(v, earlier, last, channel, e.sessionId);
    assert AcceptedAll(earlier, channel) by {
      assert forall i :: 0 <= i < |earlier| ==> notes[i] == earlier[i];
    }
    assert AcceptedAll(last, channel) by {
      assert forall i :: 0 <= i < |last| ==> notes[|earlier| + i] == last[i];
    }
    var i :| 0 <= i < |plan| && plan[i].channel == channel && plan[i].withSession == withSession;
    if i == n {
      FanOutPassesBy(plan[..n], e, view, ports, channel, e.sessionId, v);
      DeliverToTarget(plan[n], e, view, ports, v);
    } else {
      assert plan[..n][i] == plan[i];
      FanOutReaches(plan[..n], e, view, ports, channel, withSession, v);
      DeliverToOthers(plan[n], e, view, ports, channel, e.sessionId,
                      v.(received := v.received + [e], cursor := e.sequence,
                         session := if withSession then Some(view) else v.session));
    }
  }

  // ---------- Catch-up joined with live delivery ----------

  /** The plan of a publication, as one Channel sees it. */
  lemma PlanTargets(b: Bridge, from: ProviderId, e: AgentEvent, channel: ChannelId)
    requires from in b.providers && RoutingSession(b, e).Some?
    requires PlanRoutes(b.channels, b.providers[from], RoutingSession(b, e).value, e,
                        Ascending(b.Subscribers(e.sessionId))).Ok?
    ensures var plan := PlanRoutes(b.channels, b.providers[from], RoutingSession(b, e).value, e,
                                   Ascending(b.Subscribers(e.sessionId))).value;
            && Distinct(plan)
            && if b.IsSubscribed(channel, e.sessionId)
               then channel in b.channels
                    && Targets(plan, channel, SessionView in b.channels[channel].capabilities && UpdatesSessionView(e))
               else Misses(plan, channel)
  {
    hide PlanRoutes, Ascending, UpdatesSessionView, RouteEvent, RoutingSession;
    var ids := Ascending(b.Subscribers(e.sessionId));
    var plan := PlanRoutes(b.channels, b.providers[from], RoutingSession(b, e).value, e, ids).value;
    AscendingElements(b.Subscribers(e.sessionId));
    AscendingIsSorted(b.Subscribers(e.sessionId));
    PlanShape(b.channels, b.providers[from], RoutingSession(b, e).value, e, ids);
    if b.IsSubscribed(channel, e.sessionId) {
      assert channel in ids;
      var i :| 0 <= i < |ids| && ids[i] == channel;
      assert plan[i].channel == channel;
    } else {
      forall i | 0 <= i < |plan| ensures plan[i].channel != channel {
        assert ids[i] in ids;
      }
    }
  }

  /** A publication about another session, or to which the Channel is not subscribed, tells it nothing. */
  lemma PublishPassesBy(b: Bridge, from: ProviderId, e: AgentEvent, ports: Ports, channel: ChannelId,
                        session: SessionId, v: View)
    requires Moved(HandleProviderEvent(b, from, e, ports).result)
    requires e.sessionId != session || !b.IsSubscribed(channel, session)
    ensures ObserveAll(v, HandleProviderEvent(b, from, e, ports).notes, channel, session) == v
  {
    hide HandleProviderEvent, ValidateProviderEvent, ReduceInto, PlanRoutes, FanOut, Ascending, HasFailures,
         RoutingSession, ObserveAll, Targets, Misses, Distinct;
    PublishShape(b, from, e, ports);
    PlanTargets(b, from, e, channel);
    var plan := PlanRoutes(b.channels, b.providers[from], RoutingSession(b, e).value, e,
                           Ascending(b.Subscribers(e.sessionId))).value;
    FanOutPassesBy(plan, e, ReduceInto(b, e).value.0.session, ports, channel, session, v);
  }

  /** A subscriber that accepts its handoffs gets the event, and the new view when the event updates it. */
  lemma PublishReaches(b: Bridge, from: ProviderId, e: AgentEvent, ports: Ports, channel: ChannelId, v: View)
    requires Moved(HandleProviderEvent(b, from, e, ports).result)
    requires b.IsSubscribed(channel, e.sessionId)
    requires AcceptedAll(HandleProviderEvent(b, from, e, ports).notes, channel)
    ensures channel in b.channels && ReduceInto(b, e).Ok?
    ensures var shown := SessionView in b.channels[channel].capabilities && UpdatesSessionView(e);
            ObserveAll(v, HandleProviderEvent(b, from, e, ports).notes, channel, e.sessionId) ==
            v.(received := v.received + [e], cursor := e.sequence,
               session := if shown then Some(ReduceInto(b, e).value.0.session) else v.session)
  {
    hide HandleProviderEvent, ValidateProviderEvent, ReduceInto, PlanRoutes, FanOut, Ascending, HasFailures,
         RoutingSession, ObserveAll, Targets, Misses, Distinct, AcceptedAll, UpdatesSessionView;
    PublishShape(b, from, e, ports);
    PlanTargets(b, from, e, channel);
    var plan := PlanRoutes(b.channels, b.providers[from], RoutingSession(b, e).value, e,
                           Ascending(b.Subscribers(e.sessionId))).value;
    var shown := SessionView in b.channels[channel].capabilities && UpdatesSessionView(e);
    FanOutReaches(plan, e, ReduceInto(b, e).value.0.session, ports, channel, shown, v);
  }

  /** What a publication changes in the world. */
  lemma PublishEffect(w: World, from: ProviderId, e: AgentEvent, ports: Ports)
    requires Inv(w) && e.Constructible() && Moved(HandleProviderEvent(w.bridge, from, e, ports).result)
    ensures ReduceInto(w.bridge, e).Ok?
    ensures var w' := Step(w, Publish(from, e, ports));
            && w'.bridge == w.bridge.(sessions := w.bridge.sessions[e.sessionId := ReduceInto(w.bridge, e).value.0])
            && w'.history == w.history[e.sessionId := HistoryOf(w, e.sessionId) + [e]]
    ensures e.sequence == |HistoryOf(w, e.sessionId)| + 1
    ensures e.sessionId in w.bridge.sessions && !UpdatesSessionView(e) ==>
              ReduceInto(w.bridge, e).value.0.session == w.bridge.sessions[e.sessionId].session
  {
    hide HandleProviderEvent, ValidateProviderEvent, PlanRoutes, FanOut, Ascending, HasFailures, RoutingSession,
         ApplyEvent, Initial, SessionInv, UpdatesSessionView;
    PublishShape(w.bridge, from, e, ports);
    PublishedSession(w, from, e, ports);
    LastOfSession(HandleProviderEvent(w.bridge, from, e, ports).bridge, HistoryOf(w, e.sessionId), e);
    if e.sessionId in w.bridge.sessions {
      ReduceKeepsIdentity(w.bridge.sessions[e.sessionId], e);
      UpdatesAreShown(e);
    }
  }

  lemma LastOfSession(b: Bridge, h: seq<AgentEvent>, e: AgentEvent)
    requires SessionInv(b, e.sessionId, h + [e])
    ensures e.sequence == |h| + 1
  {
    hide IsHistory, Validated;
    SequencesOf(h + [e], b.sessions[e.sessionId]);
    assert (h + [e])[|h|] == e;
  }

  lemma PublishView(w: World, from: ProviderId, e: AgentEvent, ports: Ports, channel: ChannelId,
                    session: SessionId, v: View, start: nat)
    requires Inv(w) && e.Constructible()
    requires AcceptedAll(HandleProviderEvent(w.bridge, from, e, ports).notes, channel)
    ensures var w' := Step(w, Publish(from, e, ports));
            var v' := ObserveAll(v, HandleProviderEvent(w.bridge, from, e, ports).notes, channel, session);
            && (ShowsSession(w, channel, session, v) ==> ShowsSession(w', channel, session, v'))
            && (HoldsSlice(w, channel, session, start, v) ==> HoldsSlice(w', channel, session, start, v'))
  {
    hide HandleProviderEvent, ObserveAll, UpdatesSessionView, AcceptedAll, ReduceInto, Inv;
    var b := w.bridge;
    if !Moved(HandleProviderEvent(b, from, e, ports).result) {
      SilentPublish(b, from, e, ports);
      EmptyObservation(v, channel, session);
    } else {
      PublishEffect(w, from, e, ports);
      if e.sessionId != session || !b.IsSubscribed(channel, session) {
        PublishPassesBy(b, from, e, ports, channel, session, v);
        SliceSurvives(HistoryOf(w, session), e, v);
      } else {
        SubscribedToLive(w, channel, session);
        PublishReaches(b, from, e, ports, channel, v);
        SliceGrows(HistoryOf(w, session), e, v);
      }
    }
  }

  lemma SilentPublish(b: Bridge, from: ProviderId, e: AgentEvent, ports: Ports)
    requires !Moved(HandleProviderEvent(b, from, e, ports).result)
    ensures HandleProviderEvent(b, from, e, ports).bridge == b && HandleProviderEvent(b, from, e, ports).notes == []
  {
    hide HandleProviderEvent, ValidateProviderEvent, ReduceInto, PlanRoutes, FanOut, Ascending, HasFailures,
         RoutingSession;
    PublishShape(b, from, e, ports);
  }

  /** The payloads that can change the session's snapshot. */
  lemma UpdatesAreShown(e: AgentEvent)
    ensures UpdatesSessionView(e) <==> e.payload.SessionStarted? || e.payload.StateChanged?
                                       || e.payload.ConnectionChanged? || e.payload.SessionEnded?
    ensures UpdatesSessionView(e) <==> e.payload.UpdatesSession() || e.payload.SessionStarted?
  {
  }

  lemma SliceSurvives(h: seq<AgentEvent>, e: AgentEvent, v: View)
    ensures v.base <= v.cursor <= |h| ==> (h + [e])[v.base..v.cursor] == h[v.base..v.cursor]
  {
  }

  lemma SliceGrows(h: seq<AgentEvent>, e: AgentEvent, v: View)
    ensures v.base <= v.cursor == |h| ==> (h + [e])[v.base..|h| + 1] == h[v.base..v.cursor] + [e]
  {
  }

  /** A page answers the request: it is the history after the requested cursor, or from the start when
      it is marked as a reset; it is final, with the current session, exactly when it reaches the head;
      and under complete retention it is a reset exactly when the cursor is ahead. */
  lemma PageAnswersRequest(h: seq<AgentEvent>, a: Aggregate, provider: ProviderDescriptor, channel: ChannelDescriptor,
                           after: U64, limit: nat, sync: Sync)
    requires IsHistory(h, a) && limit > 0 && ChoosePage(a, after, limit).Some?
    requires MakeSync(provider, channel, a, ChoosePage(a, after, limit).value) == Ok(sync)
    ensures sync.after == if sync.reset then 0 else after
    ensures sync.after + |sync.events| == sync.through <= |h|
    ensures EventsOf(sync.events) == h[sync.after..sync.through]
    ensures sync.baseline.Some? <==> sync.through == |h|
    ensures sync.baseline.Some? ==> sync.baseline.value.session == a.session
    ensures sync.baseline.None? ==> |sync.events| == limit
    ensures a.config.retainAll ==> (sync.reset <==> after > |h|)
  {
    hide IsHistory, ChoosePage, MakeSync, MakeBaseline, Through, EventsOf;
    Identity(h, a);
    ChooseShape(h, a, after, limit);
    MakeSyncShape(provider, channel, a, ChoosePage(a, after, limit).value);
    BaselineShape(provider, channel, a);
  }

  /** An accepted page continues the client's record from the cursor it asked with, or starts over. */
  lemma PageContinuesRecord(h: seq<AgentEvent>, after: nat, v: View, sync: Sync)
    requires sync.after == if sync.reset then 0 else after
    requires sync.after + |sync.events| == sync.through <= |h| && EventsOf(sync.events) == h[sync.after..sync.through]
    requires after == v.cursor && v.base <= v.cursor && (v.cursor <= |h| ==> v.received == h[v.base..v.cursor])
    ensures var v' := ObserveHandoff(v, SyncHandoff(sync));
            v'.base <= v'.cursor <= |h| && v'.received == h[v'.base..v'.cursor]
  {
    hide EventsOf;
    SlicesJoin(h, v.base, sync.after, |sync.events|);
    assert [] + EventsOf(sync.events) == EventsOf(sync.events);
  }

  lemma SlicesJoin(h: seq<AgentEvent>, base: nat, after: nat, count: nat)
    requires after + count <= |h|
    ensures base <= after ==> h[base..after] + h[after..after + count] == h[base..after + count]
  {
  }

  lemma PageIsRead(v: View, sync: Sync)
    ensures var v' := ObserveHandoff(v, SyncHandoff(sync));
            && v'.cursor == sync.through
            && v'.session == if sync.baseline.Some? then Some(sync.baseline.value.session) else v.session
  {
    hide EventsOf;
  }

  /** An accepted page for this Channel and session, seen by its client. */
  lemma OwnPage(w: World, channel: ChannelId, session: SessionId, after: U64, limit: nat, ports: Ports, v: View,
                start: nat)
    requires Inv(w) && SyncSession(w.bridge, channel, session, after, limit, ports).notes != []
    requires AcceptedAll(SyncSession(w.bridge, channel, session, after, limit, ports).notes, channel)
    ensures session in w.bridge.sessions && session in w.history
    ensures var r, h := SyncSession(w.bridge, channel, session, after, limit, ports), w.history[session];
            var v' := ObserveAll(v, r.notes, channel, session);
            && (r.bridge.IsSubscribed(channel, session) ==>
                  v'.cursor == |h| && v'.session == Some(w.bridge.sessions[session].session))
            && (HoldsSlice(w, channel, session, start, v) && after == v.cursor ==>
                  v'.base <= v'.cursor <= |h| && v'.received == h[v'.base..v'.cursor])
  {
    hide SyncSession, IsHistory, Validated, ObserveAll, ChoosePage, MakeSync, AddSubscription, ObserveHandoff, EventsOf,
         TableInv;
    var b := w.bridge;
    var r := SyncSession(b, channel, session, after, limit, ports);
    SyncShape(b, channel, session, after, limit, ports);
    ObserveOneOrTwo(v, r.notes, channel, session);
    var a, h, sync := b.sessions[session], w.history[session], r.notes[0].handoff.sync;
    assert SessionInv(b, session, h);
    assert r.notes[0].accepted;
    PageAnswersRequest(h, a, b.providers[a.session.providerId], b.channels[channel], after, limit, sync);
    PageIsRead(v, sync);
    if HoldsSlice(w, channel, session, start, v) && after == v.cursor {
      PageContinuesRecord(h, after, v, sync);
    }
  }

  lemma SyncView(w: World, c: ChannelId, s: SessionId, after: U64, limit: nat, ports: Ports, channel: ChannelId,
                 session: SessionId, v: View, start: nat)
    requires Inv(w)
    requires AcceptedAll(SyncSession(w.bridge, c, s, after, limit, ports).notes, channel)
    ensures var op := RequestPage(c, s, after, limit, ports);
            var w' := Step(w, op);
            var v' := ObserveAll(v, SyncSession(w.bridge, c, s, after, limit, ports).notes, channel, session);
            && (ShowsSession(w, channel, session, v) ==> ShowsSession(w', channel, session, v'))
            && (HoldsSlice(w, channel, session, start, v) && Asks(op, channel, session, v.cursor) ==>
                  HoldsSlice(w', channel, session, start, v'))
  {
    hide SyncSession, SessionInv, ObserveAll, ChoosePage, MakeSync, AddSubscription, TableInv, AcceptedAll;
    var b := w.bridge;
    var r := SyncSession(b, c, s, after, limit, ports);
    SyncShape(b, c, s, after, limit, ports);
    if r.notes == [] {
      EmptyObservation(v, channel, session);
    } else {
      SubscriptionEdits(b.subscriptions, s, c, session, channel);
      if c == channel && s == session {
        OwnPage(w, c, s, after, limit, ports, v, start);
      } else {
        ObserveOneOrTwo(v, r.notes, channel, session);
      }
    }
  }

  /** A plain subscription opens an epoch at the head of the session, with the view if the Channel takes views. */
  lemma OwnSubscription(w: World, channel: ChannelId, session: SessionId, ports: Ports, v: View)
    requires Inv(w) && Subscribe(w.bridge, channel, session, ports).notes != []
    requires AcceptedAll(Subscribe(w.bridge, channel, session, ports).notes, channel)
    ensures channel in w.bridge.channels && session in w.bridge.sessions && session in w.history
    ensures var r := Subscribe(w.bridge, channel, session, ports);
            && r.bridge == w.bridge.(subscriptions := AddSubscription(w.bridge.subscriptions, session, channel))
            && ObserveAll(v, r.notes, channel, session) ==
               View(|w.history[session]|, [], |w.history[session]|,
                    if SessionView in w.bridge.channels[channel].capabilities
                    then Some(w.bridge.sessions[session].session) else v.session)
  {
    hide Subscribe, Inv, ObserveAll, AddSubscription, MakeBaseline, PendingRequests;
    var b := w.bridge;
    var r := Subscribe(b, channel, session, ports);
    SubscribeShape(b, channel, session, ports);
    ObserveOneOrTwo(v, r.notes, channel, session);
    StoredSession(w, session);
    var a, h := b.sessions[session], w.history[session];
    Identity(h, a);
    BaselineShape(b.providers[a.session.providerId], b.channels[channel], a);
    assert r.notes[0].Delivery? ==> r.notes[0].accepted;
  }

  lemma SubscribeView(w: World, c: ChannelId, s: SessionId, ports: Ports, channel: ChannelId, session: SessionId,
                      v: View, start: nat)
    requires Inv(w)
    requires AcceptedAll(Subscribe(w.bridge, c, s, ports).notes, channel)
    ensures var w' := Step(w, RequestLive(c, s, ports));
            var v' := ObserveAll(v, Subscribe(w.bridge, c, s, ports).notes, channel, session);
            && (ShowsSession(w, channel, session, v) ==> ShowsSession(w', channel, session, v'))
            && (HoldsSlice(w, channel, session, start, v) ==> HoldsSlice(w', channel, session, start, v'))
  {
    hide Subscribe, SessionInv, TableInv, ObserveAll, AddSubscription, MakeBaseline, AcceptedAll;
    var b := w.bridge;
    var r := Subscribe(b, c, s, ports);
    if r.notes == [] {
      SubscribeShape(b, c, s, ports);
      EmptyObservation(v, channel, session);
    } else {
      SubscriptionEdits(b.subscriptions, s, c, session, channel);
      if c == channel && s == session {
        OwnSubscription(w, c, s, ports, v);
      } else {
        SubscribeShape(b, c, s, ports);
        ObserveOneOrTwo(v, r.notes, channel, session);
      }
    }
  }

  ghost function NotesOf(w: World, op: Op): seq<Note> {
    match op
    case Publish(from, e, ports) => HandleProviderEvent(w.bridge, from, e, ports).notes
    case RequestPage(channel, session, after, limit, ports) =>
      SyncSession(w.bridge, channel, session, after, limit, ports).notes
    case RequestLive(channel, session, ports) => Subscribe(w.bridge, channel, session, ports).notes
    case _ => []
  }

  lemma StepView(w: World, op: Op, channel: ChannelId, session: SessionId, v: View, start: nat)
    requires Inv(w) && op.Legal() && AcceptedAll(NotesOf(w, op), channel)
    ensures var w', v' := Step(w, op), ObserveAll(v, NotesOf(w, op), channel, session);
            && (ShowsSession(w, channel, session, v) ==> ShowsSession(w', channel, session, v'))
            && (HoldsSlice(w, channel, session, start, v) && Asks(op, channel, session, v.cursor) ==>
                  HoldsSlice(w', channel, session, start, v'))
  {
    hide HandleProviderEvent, SyncSession, Subscribe, ObserveAll, SessionInv, DropSubscription, WithoutChannel,
         TableInv;
    match op
    case Publish(from, e, ports) => PublishView(w, from, e, ports, channel, session, v, start);
    case RequestPage(c, s, after, limit, ports) => SyncView(w, c, s, after, limit, ports, channel, session, v, start);
    case RequestLive(c, s, ports) => SubscribeView(w, c, s, ports, channel, session, v, start);
    case AddProvider(_) => EmptyObservation(v, channel, session);
    case AddChannel(d) =>
      EmptyObservation(v, channel, session);
      UnknownIsUnsubscribed(w, d.id, session);
    case Leave(c, s) =>
      EmptyObservation(v, channel, session);
      SubscriptionEdits(w.bridge.subscriptions, s, c, session, channel);
    case LeaveAll(c) =>
      EmptyObservation(v, channel, session);
      SubscriptionEdits(w.bridge.subscriptions, session, c, session, channel);
  }

  lemma UnknownIsUnsubscribed(w: World, channel: ChannelId, session: SessionId)
    requires Inv(w)
    ensures channel !in w.bridge.channels ==> !w.bridge.IsSubscribed(channel, session)
  {
    hide SessionInv;
  }

  /** The client asks for every page at the cursor it was last told, having started at `from`. */
  ghost predicate PassesCursorBack(config: Config, ops: seq<Op>, channel: ChannelId, session: SessionId, from: nat) {
    forall i :: 0 <= i < |ops| ==>
      Asks(ops[i], channel, session, ViewOf(Run(Fresh(config), ops[..i]), channel, session, from).cursor)
  }

  lemma AcceptedSplit(a: seq<Note>, b: seq<Note>, channel: ChannelId)
    requires AcceptedAll(a + b, channel)
    ensures AcceptedAll(a, channel) && AcceptedAll(b, channel)
  {
    assert forall i :: 0 <= i < |a| ==> (a + b)[i] == a[i];
    assert forall i :: 0 <= i < |b| ==> (a + b)[|a| + i] == b[i];
  }

  lemma RunLast(w: World, ops: seq<Op>)
    requires ops != []
    ensures Run(w, ops) == Step(Run(w, ops[..|ops| - 1]), ops[|ops| - 1])
  {
    hide Step;
  }

  lemma NotesSplit(config: Config, ops: seq<Op>, channel: ChannelId)
    requires ops != [] && AcceptedAll(Run(Fresh(config), ops).notes, channel)
    ensures var n := |ops| - 1;
            var w := Run(Fresh(config), ops[..n]);
            && Run(Fresh(config), ops).notes == w.notes + NotesOf(w, ops[n])
            && AcceptedAll(w.notes, channel) && AcceptedAll(NotesOf(w, ops[n]), channel)
  {
    hide Step, NotesOf, Run, AcceptedAll, Fresh;
    var n := |ops| - 1;
    var w := Run(Fresh(config), ops[..n]);
    RunLast(Fresh(config), ops);
    NotesGrow(w, ops[n]);
    AcceptedSplit(w.notes, NotesOf(w, ops[n]), channel);
  }

  lemma CursorPrefix(config: Config, ops: seq<Op>, channel: ChannelId, session: SessionId, from: nat)
    requires ops != [] && PassesCursorBack(config, ops, channel, session, from)
    ensures var n := |ops| - 1;
            && PassesCursorBack(config, ops[..n], channel, session, from)
            && Asks(ops[n], channel, session, ViewOf(Run(Fresh(config), ops[..n]), channel, session, from).cursor)
  {
    hide Run, Asks, ViewOf;
    var n := |ops| - 1;
    forall i | 0 <= i < n
      ensures Asks(ops[..n][i], channel, session,
                   ViewOf(Run(Fresh(config), ops[..n][..i]), channel, session, from).cursor)
    {
      assert ops[..n][..i] == ops[..i];
    }
  }

  /** After every step of every run, whatever cursors it asks with, a SESSION_VIEW subscriber that
      accepted its handoffs holds exactly the current session. */
  lemma {:induction false} SubscribersSeeTheSession(config: Config, ops: seq<Op>, channel: ChannelId,
                                                    session: SessionId, from: nat)
    requires LegalRun(ops) && AcceptedAll(Run(Fresh(config), ops).notes, channel)
    ensures var w := Run(Fresh(config), ops); ShowsSession(w, channel, session, ViewOf(w, channel, session, from))
  {
    hide Step, ShowsSession, HoldsSlice, ObserveAll, NotesOf, Inv, AcceptedAll;
    if ops == [] {
      FreshView(config, channel, session, from);
    } else {
      var n := |ops| - 1;
      var w := Run(Fresh(config), ops[..n]);
      RunKeepsInv(config, ops[..n]);
      NotesSplit(config, ops, channel);
      SubscribersSeeTheSession(config, ops[..n], channel, session, from);
      StepView(w, ops[n], channel, session, ViewOf(w, channel, session, from), from);
      ObserveConcat(NewClient(from), w.notes, NotesOf(w, ops[n]), channel, session);
    }
  }

  /** Catch-up joined with live delivery has no gap, repeat or reordering. After any run, for a client
      that passes its cursor back and a Channel that accepts its handoffs, the events handed over since
      it started (or was told to start over, or subscribed afresh) are exactly the history from there to
      its cursor; and while it is subscribed its cursor is the head. */
  lemma {:induction false} CatchUpJoinsLive(config: Config, ops: seq<Op>, channel: ChannelId, session: SessionId,
                                            from: nat)
    requires LegalRun(ops) && AcceptedAll(Run(Fresh(config), ops).notes, channel)
    requires PassesCursorBack(config, ops, channel, session, from)
    ensures var w := Run(Fresh(config), ops); HoldsSlice(w, channel, session, from, ViewOf(w, channel, session, from))
  {
    hide Step, ShowsSession, HoldsSlice, ObserveAll, NotesOf, Inv, AcceptedAll, PassesCursorBack, Asks;
    if ops == [] {
      FreshView(config, channel, session, from);
    } else {
      var n := |ops| - 1;
      var w := Run(Fresh(config), ops[..n]);
      RunKeepsInv(config, ops[..n]);
      NotesSplit(config, ops, channel);
      CursorPrefix(config, ops, channel, session, from);
      CatchUpJoinsLive(config, ops[..n], channel, session, from);
      StepView(w, ops[n], channel, session, ViewOf(w, channel, session, from), from);
      ObserveConcat(NewClient(from), w.notes, NotesOf(w, ops[n]), channel, session);
    }
  }

  lemma FreshView(config: Config, channel: ChannelId, session: SessionId, from: nat)
    ensures var w := Fresh(config);
            && ShowsSession(w, channel, session, ViewOf(w, channel, session, from))
            && HoldsSlice(w, channel, session, from, ViewOf(w, channel, session, from))
  {
  }

  lemma NotesGrow(w: World, op: Op)
    ensures Step(w, op).notes == w.notes + NotesOf(w, op)
  {
    hide HandleProviderEvent, SyncSession, Subscribe;
  }

  lemma SubscribedToLive(w: World, channel: ChannelId, session: SessionId)
    requires Inv(w) && w.bridge.IsSubscribed(channel, session)
    ensures session in w.bridge.sessions && session in w.history && channel in w.bridge.channels
  {
    hide SessionInv;
    assert session in w.bridge.sessions.Keys;
  }

  // ---------- A client that starts from zero ----------

  /** Every event the Channel accepted about the session, over the whole run, in order. */
  ghost function Heard(notes: seq<Note>, channel: ChannelId, session: SessionId): seq<AgentEvent> {
    if notes == [] then []
    else
      var k := |notes| - 1;
      var earlier, note := Heard(notes[..k], channel, session), notes[k];
      if note.channel != channel || note.about != session || note.SubscribedAt? || !note.accepted then earlier
      else match note.handoff
        case EventHandoff(e, _) => earlier + [e]
        case SyncHandoff(sync) => earlier + EventsOf(sync.events)
        case SessionHandoff(_) => earlier
        case BaselineHandoff(_) => earlier
  }

  /** The note does not make its client start over. */
  ghost predicate Continues(note: Note, channel: ChannelId, session: SessionId) {
    note.channel == channel && note.about == session ==>
      && note.Delivery? && !note.handoff.BaselineHandoff?
      && (note.handoff.SyncHandoff? ==> !note.handoff.sync.reset)
  }

  ghost predicate AllContinue(notes: seq<Note>, channel: ChannelId, session: SessionId) {
    forall i :: 0 <= i < |notes| ==> Continues(notes[i], channel, session)
  }

  /** Without a fresh start the record is everything heard. */
  lemma {:induction false} RecordIsAllHeard(notes: seq<Note>, channel: ChannelId, session: SessionId, from: nat)
    requires AllContinue(notes, channel, session)
    ensures var v := ObserveAll(NewClient(from), notes, channel, session);
            v.base == from && v.received == Heard(notes, channel, session)
  {
    hide EventsOf;
    if notes != [] {
      var k := |notes| - 1;
      assert Continues(notes[k], channel, session);
      assert AllContinue(notes[..k], channel, session) by {
        assert forall i :: 0 <= i < k ==> notes[..k][i] == notes[i];
      }
      RecordIsAllHeard(notes[..k], channel, session, from);
    }
  }

  lemma {:induction false} FanOutContinues(plan: seq<PlannedRoute>, e: AgentEvent, view: AgentSession, ports: Ports,
                                           channel: ChannelId, session: SessionId)
    ensures AllContinue(FanOut(plan, e, view, ports).1, channel, session)
  {
    if plan != [] {
      FanOutContinues(plan[..|plan| - 1], e, view, ports, channel, session);
    }
  }

  lemma PublishContinues(b: Bridge, from: ProviderId, e: AgentEvent, ports: Ports, channel: ChannelId,
                         session: SessionId)
    ensures AllContinue(HandleProviderEvent(b, from, e, ports).notes, channel, session)
  {
    hide HandleProviderEvent, ValidateProviderEvent, ReduceInto, PlanRoutes, FanOut, Ascending, HasFailures,
         RoutingSession, Continues;
    PublishShape(b, from, e, ports);
    if Moved(HandleProviderEvent(b, from, e, ports).result) {
      FanOutContinues(PlanRoutes(b.channels, b.providers[from], RoutingSession(b, e).value, e,
                                 Ascending(b.Subscribers(e.sessionId))).value,
                      e, ReduceInto(b, e).value.0.session, ports, channel, session);
    }
  }

  /** A page asked for at a cursor within the history is no reset, under complete retention. */
  lemma SyncContinues(w: World, c: ChannelId, s: SessionId, after: U64, limit: nat, ports: Ports, channel: ChannelId,
                      session: SessionId)
    requires Inv(w) && w.bridge.config.retainAll
    requires c == channel && s == session ==> after <= |HistoryOf(w, session)|
    ensures AllContinue(SyncSession(w.bridge, c, s, after, limit, ports).notes, channel, session)
  {
    hide SyncSession, IsHistory, Validated, ChoosePage, MakeSync, AddSubscription, ObserveHandoff, TableInv;
    var b := w.bridge;
    SyncShape(b, c, s, after, limit, ports);
    var notes := SyncSession(b, c, s, after, limit, ports).notes;
    if notes != [] && c == channel && s == session {
      var a, h := b.sessions[s], w.history[s];
      assert SessionInv(b, s, h);
      PageAnswersRequest(h, a, b.providers[a.session.providerId], b.channels[c], after, limit, notes[0].handoff.sync);
    }
  }

  lemma SubscribeContinues(b: Bridge, c: ChannelId, s: SessionId, ports: Ports, channel: ChannelId, session: SessionId)
    requires c != channel || s != session
    ensures AllContinue(Subscribe(b, c, s, ports).notes, channel, session)
  {
    hide MakeBaseline;
  }

  ghost predicate NoPlainSubscription(ops: seq<Op>, channel: ChannelId, session: SessionId) {
    forall i :: 0 <= i < |ops| ==>
      !(ops[i].RequestLive? && ops[i].liveChannel == channel && ops[i].liveSession == session)
  }

  lemma StepContinues(w: World, op: Op, channel: ChannelId, session: SessionId)
    requires Inv(w) && w.bridge.config.retainAll
    requires !(op.RequestLive? && op.liveChannel == channel && op.liveSession == session)
    requires op.RequestPage? && op.pageChannel == channel && op.pageSession == session ==>
               op.after <= |HistoryOf(w, session)|
    ensures AllContinue(NotesOf(w, op), channel, session)
  {
    hide HandleProviderEvent, SyncSession, Subscribe, AllContinue, Inv;
    match op
    case Publish(from, e, ports) => PublishContinues(w.bridge, from, e, ports, channel, session);
    case RequestPage(c, s, after, limit, ports) => SyncContinues(w, c, s, after, limit, ports, channel, session);
    case RequestLive(c, s, ports) => SubscribeContinues(w.bridge, c, s, ports, channel, session);
    case _ => assert AllContinue([], channel, session) by { NothingStartsOver(channel, session); }
  }

  lemma NothingStartsOver(channel: ChannelId, session: SessionId)
    ensures AllContinue([], channel, session)
  {
  }

  lemma ConfigStays(config: Config, ops: seq<Op>)
    requires LegalRun(ops)
    ensures Run(Fresh(config), ops).bridge.config == config
  {
    assert [] + ops == ops;
    RunGrows(config, [], ops);
  }

  /** Under complete retention a client that starts from zero, asks only for pages and passes its cursor
      back is never told to start over. */
  lemma {:induction false} NeverStartsOver(config: Config, ops: seq<Op>, channel: ChannelId, session: SessionId)
    requires LegalRun(ops) && AcceptedAll(Run(Fresh(config), ops).notes, channel) && config.retainAll
    requires PassesCursorBack(config, ops, channel, session, 0) && NoPlainSubscription(ops, channel, session)
    ensures AllContinue(Run(Fresh(config), ops).notes, channel, session)
  {
    hide Step, ObserveAll, NotesOf, Inv, AcceptedAll, PassesCursorBack, AllContinue;
    if ops == [] {
      NothingStartsOver(channel, session);
    } else {
      var n := |ops| - 1;
      var w := Run(Fresh(config), ops[..n]);
      RunKeepsInv(config, ops[..n]);
      ConfigStays(config, ops[..n]);
      NotesSplit(config, ops, channel);
      CursorPrefix(config, ops, channel, session, 0);
      assert NoPlainSubscription(ops[..n], channel, session) by {
        assert forall i :: 0 <= i < n ==> ops[..n][i] == ops[i];
      }
      NeverStartsOver(config, ops[..n], channel, session);
      CatchUpJoinsLive(config, ops[..n], channel, session, 0);
      StepContinues(w, ops[n], channel, session);
      BothContinue(w.notes, NotesOf(w, ops[n]), channel, session);
    }
  }

  lemma BothContinue(a: seq<Note>, b: seq<Note>, channel: ChannelId, session: SessionId)
    requires AllContinue(a, channel, session) && AllContinue(b, channel, session)
    ensures AllContinue(a + b, channel, session)
  {
  }

  /** The same client, over the whole run and without any fresh start: everything it was ever handed,
      simply put together, is the history up to its cursor, and all of it while it is subscribed. */
  lemma EverythingOnceInOrder(config: Config, ops: seq<Op>, channel: ChannelId, session: SessionId)
    requires LegalRun(ops) && AcceptedAll(Run(Fresh(config), ops).notes, channel) && config.retainAll
    requires PassesCursorBack(config, ops, channel, session, 0) && NoPlainSubscription(ops, channel, session)
    ensures var w := Run(Fresh(config), ops);
            var heard, h := Heard(w.notes, channel, session), HistoryOf(w, session);
            && AllContinue(w.notes, channel, session)
            && |heard| <= |h| && heard == h[..|heard|]
            && ViewOf(w, channel, session, 0).cursor == |heard|
            && (w.bridge.IsSubscribed(channel, session) ==> heard == h)
  {
    hide Run, ObserveAll, AcceptedAll, PassesCursorBack, AllContinue, Heard;
    var w := Run(Fresh(config), ops);
    NeverStartsOver(config, ops, channel, session);
    CatchUpJoinsLive(config, ops, channel, session, 0);
    RecordIsAllHeard(w.notes, channel, session, 0);
    var h := HistoryOf(w, session);
    assert h[..|h|] == h;
  }

  /** So such a client, while subscribed, rebuilds the Bridge's aggregate by replaying what it was handed. */
  lemma ReplayRebuildsServerState(config: Config, ops: seq<Op>, channel: ChannelId, session: SessionId)
    requires LegalRun(ops) && AcceptedAll(Run(Fresh(config), ops).notes, channel) && config.retainAll
    requires PassesCursorBack(config, ops, channel, session, 0) && NoPlainSubscription(ops, channel, session)
    requires Run(Fresh(config), ops).bridge.IsSubscribed(channel, session)
    ensures var w := Run(Fresh(config), ops);
            && session in w.bridge.sessions
            && Replay(Heard(w.notes, channel, session), config) == Ok(w.bridge.sessions[session])
  {
    hide Run, Heard, Replay, Inv, AcceptedAll, PassesCursorBack, AllContinue, ViewOf;
    var w := Run(Fresh(config), ops);
    RunKeepsInv(config, ops);
    ConfigStays(config, ops);
    EverythingOnceInOrder(config, ops, channel, session);
    SubscribedToLive(w, channel, session);
    StoredSession(w, session);
  }

  /** A client that started anywhere and was told to start over does so too, from what it was handed since. */
  lemma ResetClientRebuildsServerState(config: Config, ops: seq<Op>, channel: ChannelId, session: SessionId, from: nat)
    requires LegalRun(ops) && AcceptedAll(Run(Fresh(config), ops).notes, channel)
    requires PassesCursorBack(config, ops, channel, session, from)
    requires var w := Run(Fresh(config), ops);
             w.bridge.IsSubscribed(channel, session) && ViewOf(w, channel, session, from).base == 0
    ensures var w := Run(Fresh(config), ops);
            && session in w.bridge.sessions
            && Replay(ViewOf(w, channel, session, from).received, config) == Ok(w.bridge.sessions[session])
  {
    hide Run, ViewOf, Replay, Inv, AcceptedAll, PassesCursorBack;
    var w := Run(Fresh(config), ops);
    RunKeepsInv(config, ops);
    ConfigStays(config, ops);
    CatchUpJoinsLive(config, ops, channel, session, from);
    SubscribedToLive(w, channel, session);
    StoredSession(w, session);
    var h := w.history[session];
    assert h[0..|h|] == h;
  }

  /** The baseline of the final page is the state a replay of the history ends in: its snapshot, its
      cursor, and exactly its open interactions, in ascending order. */
  lemma FinalBaselineMatchesReplay(w: World, channel: ChannelId, session: SessionId, after: U64, limit: nat,
                                   ports: Ports, sync: Sync)
    requires Inv(w)
    requires SyncSession(w.bridge, channel, session, after, limit, ports).notes
             == [Delivery(channel, session, SyncHandoff(sync), true)]
    requires sync.baseline.Some?
    ensures session in w.history
    ensures var h, baseline := w.history[session], sync.baseline.value;
            && Replay(h, w.bridge.config).Ok?
            && baseline.session == Replay(h, w.bridge.config).value.session
            && baseline.sequence == |h|
            && (forall request :: IsOpen(h, request) <==>
                  exists k :: 0 <= k < |baseline.pending| && baseline.pending[k].request == request)
            && StrictlyIncreasing(IdsOf(baseline.pending))
            && channel in w.bridge.channels && baseline.session.providerId in w.bridge.providers
            && forall k :: 0 <= k < |baseline.pending| ==>
                 (baseline.pending[k].mode == Interactive <==>
                    MayAnswer(w.bridge.providers[baseline.session.providerId].capabilities,
                              w.bridge.channels[channel].capabilities, baseline.pending[k].request.payload))
  {
    hide SyncSession, Validated, ChoosePage, MakeSync, MakeBaseline, Replay, PendingRequests, IsOpen, Inv, SessionInv,
         IsHistory, RouteInteraction, StrictlyIncreasing, MayAnswer, MayAsk;
    var b := w.bridge;
    SyncShape(b, channel, session, after, limit, ports);
    var a := b.sessions[session];
    StoredSession(w, session);
    var h, provider := w.history[session], b.providers[a.session.providerId];
    Identity(h, a);
    MakeSyncShape(provider, b.channels[channel], a, ChoosePage(a, after, limit).value);
    BaselineShape(provider, b.channels[channel], a);
    PendingListing(h, a);
    var pending := sync.baseline.value.pending;
    assert IdsOf(pending) == PendingIds(a);
    forall k | 0 <= k < |pending|
      ensures pending[k].mode == Interactive <==>
              MayAnswer(provider.capabilities, b.channels[channel].capabilities, pending[k].request.payload)
    {
      RouteByName(provider, b.channels[channel], a.session, PendingRequests(a)[k]);
    }
    forall request ensures IsOpen(h, request) <==>
                           exists k :: 0 <= k < |pending| && pending[k].request == request {
      if IsOpen(h, request) {
        var k :| 0 <= k < |PendingRequests(a)| && PendingRequests(a)[k] == request;
        assert pending[k].request == request;
      }
    }
  }

  lemma StoredSession(w: World, session: SessionId)
    requires Inv(w) && session in w.bridge.sessions
    ensures session in w.history && IsHistory(w.history[session], w.bridge.sessions[session])
    ensures Replay(w.history[session], w.bridge.config) == Ok(w.bridge.sessions[session])
    ensures w.bridge.sessions[session].session.id == session
    ensures w.bridge.sessions[session].session.providerId in w.bridge.providers
    ensures w.bridge.providers[w.bridge.sessions[session].session.providerId].id
            == w.bridge.sessions[session].session.providerId
  {
    hide Validated, Replay;
    assert session in w.bridge.sessions.Keys;
    assert SessionInv(w.bridge, session, w.history[session]);
  }

  ghost function IdsOf(pending: seq<RoutedInteraction>): seq<InteractionId> {
    seq(|pending|, k requires 0 <= k < |pending| => pending[k].request.id)
  }

  ghost function PendingIds(a: Aggregate): seq<InteractionId> {
    seq(|PendingRequests(a)|, k requires 0 <= k < |PendingRequests(a)| => PendingRequests(a)[k].id)
  }

  /** The listed pending requests are exactly the open ones, sorted by identifier. */
  lemma PendingListing(h: seq<AgentEvent>, a: Aggregate)
    requires IsHistory(h, a)
    ensures forall request :: IsOpen(h, request) <==>
              exists k :: 0 <= k < |PendingRequests(a)| && PendingRequests(a)[k] == request
    ensures StrictlyIncreasing(PendingIds(a))
  {
    hide IsHistory, Ascending, IsOpen;
    var ids := Ascending(a.pending.Keys);
    AscendingElements(a.pending.Keys);
    AscendingIsSorted(a.pending.Keys);
    forall k | 0 <= k < |ids|
      ensures ids[k] in a.pending && a.pending[ids[k]].id == ids[k] && PendingIds(a)[k] == ids[k]
    {
      assert ids[k] in ids;
      PendingIsOpen(h, a, InteractionRequest(ids[k], 0, 0, None, SAMPLE_TEXT, TextRequest(None, false)));
    }
    assert PendingIds(a) == ids;
    forall request ensures IsOpen(h, request) <==>
                           exists k :: 0 <= k < |PendingRequests(a)| && PendingRequests(a)[k] == request
    {
      PendingIsOpen(h, a, request);
      if IsOpen(h, request) {
        assert request.id in a.pending.Keys;
        var k :| 0 <= k < |ids| && ids[k] == request.id;
        assert PendingRequests(a)[k] == request;
      }
    }
  }

  // ---------- Reports ----------

  /** What a subscriber's own verdicts on its own two handoffs make of one publication. */
  ghost function OwnResult(b: Bridge, from: ProviderId, e: AgentEvent, ports: Ports, c: ChannelId): DeliveryResult
    requires from in b.providers && RoutingSession(b, e).Some? && c in b.channels && ReduceInto(b, e).Ok?
    requires RouteEvent(b.providers[from], b.channels[c], RoutingSession(b, e).value, e).Ok?
  {
    var route := RouteEvent(b.providers[from], b.channels[c], RoutingSession(b, e).value, e).value;
    var viewDue := SessionView in b.channels[c].capabilities && UpdatesSessionView(e);
    if !ports(c, EventHandoff(e, route)) then EventRejected(c)
    else if viewDue && !ports(c, SessionHandoff(ReduceInto(b, e).value.0.session)) then SessionRejected(c)
    else Delivered(c)
  }

  /** Every subscriber is reported once, in ascending order, as Delivered exactly when it took its event
      and any view it was due, and otherwise with the handoff it refused, whatever the others answered. */
  lemma EverySubscriberIsReported(b: Bridge, from: ProviderId, e: AgentEvent, ports: Ports)
    requires Moved(HandleProviderEvent(b, from, e, ports).result)
    ensures from in b.providers && RoutingSession(b, e).Some? && ReduceInto(b, e).Ok?
    ensures var result := HandleProviderEvent(b, from, e, ports).result;
            var deliveries := if result.Ok? then result.value.deliveries else result.error.report.deliveries;
            var ids := Ascending(b.Subscribers(e.sessionId));
            && |deliveries| == |ids|
            && (result.Ok? <==> forall i :: 0 <= i < |deliveries| ==> deliveries[i].Delivered?)
            && forall i :: 0 <= i < |deliveries| ==>
                 && ids[i] in b.channels
                 && RouteEvent(b.providers[from], b.channels[ids[i]], RoutingSession(b, e).value, e).Ok?
                 && deliveries[i] == OwnResult(b, from, e, ports, ids[i])
  {
    hide HandleProviderEvent, ValidateProviderEvent, PlanRoutes, RoutingSession, ReduceInto, Ascending,
         UpdatesSessionView, RouteEvent;
    PublishShape(b, from, e, ports);
    var ids := Ascending(b.Subscribers(e.sessionId));
    var plan := PlanRoutes(b.channels, b.providers[from], RoutingSession(b, e).value, e, ids).value;
    PlanShape(b.channels, b.providers[from], RoutingSession(b, e).value, e, ids);
    FanOutReportsAll(plan, e, ReduceInto(b, e).value.0.session, ports);
  }

  // ---------- A forwarded answer is one the reducer accepts ----------

  lemma ForwardedContent(b: Bridge, channel: ChannelId, r: InteractionResponse)
    requires HandleInteractionResponse(b, channel, r, true) == Pass
    ensures channel in b.channels && r.sessionId in b.sessions
    ensures var a := b.sessions[r.sessionId];
            && a.session.providerId in b.providers
            && r.requestId in a.pending
            && ValidateResponse(a.pending[r.requestId], r) == Pass
            && a.pending[r.requestId].payload.ResponseCapability()
               in b.providers[a.session.providerId].capabilities
  {
    hide ValidateResponse;
  }

  lemma AnswerMatchesKind(request: InteractionRequest, r: InteractionResponse)
    requires ValidateResponse(request, r) == Pass
    ensures r.payload.RequiredCapability() == request.payload.ResponseCapability()
  {
    hide CheckFields, CheckSelection;
  }

  lemma RespondedApplies(a: Aggregate, e: AgentEvent, r: InteractionResponse)
    requires e.payload == InteractionResponded(r) && e.sessionId == a.session.id
    requires e.sequence == a.LastSequence() + 1
    requires r.requestId in a.pending && ValidateResponse(a.pending[r.requestId], r) == Pass
    ensures ApplyEvent(a, e).1 == Ok(Applied)
    ensures ApplyEvent(a, e).0.pending == a.pending - {r.requestId}
    ensures ApplyEvent(a, e).0.session == a.session
  {
    hide ValidateResponse;
  }

  lemma PublishesWhenValid(w: World, from: ProviderId, e: AgentEvent, ports: Ports)
    requires Inv(w) && e.Constructible() && from in w.bridge.providers && e.sessionId in w.bridge.sessions
    requires ValidateProviderEvent(w.bridge.providers[from], w.bridge.sessions[e.sessionId].session, e).Pass?
    requires ApplyEvent(w.bridge.sessions[e.sessionId], e).1 == Ok(Applied)
    ensures Moved(HandleProviderEvent(w.bridge, from, e, ports).result)
    ensures HandleProviderEvent(w.bridge, from, e, ports).bridge
            == w.bridge.(sessions := w.bridge.sessions[e.sessionId :=
                                       ApplyEvent(w.bridge.sessions[e.sessionId], e).0])
  {
    hide SessionInv, PlanRoutes, ApplyEvent, FanOut, ValidateProviderEvent, Ascending, HasFailures;
    var b := w.bridge;
    var ids := Ascending(b.Subscribers(e.sessionId));
    AscendingElements(b.Subscribers(e.sessionId));
    assert forall i :: 0 <= i < |ids| ==> ids[i] in ids;
    PlanSucceeds(b.channels, b.providers[from], RoutingSession(b, e).value, e, ids);
  }

  /** If the Bridge forwards `r` and the Provider then publishes it at the next sequence, the event
      is accepted whatever the Channels answer, and submitting `r` again reports it as not pending. */
  lemma ForwardedAnswerIsAccepted(w: World, channel: ChannelId, r: InteractionResponse, e: AgentEvent, ports: Ports,
                                  accepts: bool)
    requires Inv(w) && r.payload.Constructible()
    requires HandleInteractionResponse(w.bridge, channel, r, true) == Pass
    requires e.payload == InteractionResponded(r) && e.sessionId == r.sessionId
    requires r.sessionId in w.bridge.sessions && e.sequence == w.bridge.sessions[r.sessionId].LastSequence() + 1
    ensures var from := w.bridge.sessions[r.sessionId].session.providerId;
            var published := HandleProviderEvent(w.bridge, from, e, ports);
            && Moved(published.result)
            && HandleInteractionResponse(published.bridge, channel, r, accepts) == Fail(ActionNotPending)
  {
    hide HandleProviderEvent, ApplyEvent, ValidateResponse, Inv, ValidateInteractionResponse;
    var b, a := w.bridge, w.bridge.sessions[r.sessionId];
    assert b.IsSubscribed(channel, r.sessionId);
    ForwardedContent(b, channel, r);
    AnswerMatchesKind(a.pending[r.requestId], r);
    StoredSession(w, r.sessionId);
    RespondedApplies(a, e, r);
    PublishesWhenValid(w, a.session.providerId, e, ports);
  }

  // ---------- Which actions are forwarded ----------

  /** The request is shown to this Channel as one it can answer. */
  ghost predicate InteractiveFor(w: World, channel: ChannelId, session: SessionId, request: InteractionRequest) {
    && session in w.bridge.sessions && channel in w.bridge.channels
    && var view := w.bridge.sessions[session].session;
       && view.providerId in w.bridge.providers
       && RouteInteraction(w.bridge.providers[view.providerId], w.bridge.channels[channel], view, request)
          == Ok(Interactive)
  }

  /** The response settles a request that is open in the session's history, in time and with what it offers. */
  ghost predicate Answered(w: World, channel: ChannelId, r: InteractionResponse, request: InteractionRequest) {
    && IsOpen(HistoryOf(w, r.sessionId), request) && request.id == r.requestId
    && InteractiveFor(w, channel, r.sessionId, request)
    && Timely(request, r.respondedAt) && Answers(request.payload, r.payload)
  }

  /** An open request is a stored one of its own session, and the other way round. */
  lemma OpenIsStored(w: World, session: SessionId, request: InteractionRequest)
    requires Inv(w) && session in w.bridge.sessions
    ensures session in w.history
    ensures var a := w.bridge.sessions[session];
            && (IsOpen(w.history[session], request) <==> request.id in a.pending && a.pending[request.id] == request)
            && (request.id in a.pending ==> a.pending[request.id].id == request.id)
            && (IsOpen(w.history[session], request) ==> request.sessionId == session)
  {
    hide Inv, SessionInv, IsHistory;
    StoredSession(w, session);
    var a, h := w.bridge.sessions[session], w.history[session];
    PendingIsOpen(h, a, request);
    if IsOpen(h, request) {
      var i :| OpenAt(h, i, request);
      BuiltAt(h, a, i);
      Identity(h, a);
    }
  }

  lemma RoutedAnswer(provider: ProviderDescriptor, channel: ChannelDescriptor, session: AgentSession,
                     request: InteractionRequest, r: InteractionResponse)
    requires r.payload.Constructible() && provider.id == session.providerId && request.sessionId == session.id
    requires r.sessionId == session.id && r.requestId == request.id
    ensures ValidateInteractionResponse(provider, channel, session, request, r).Pass? <==>
            && RouteInteraction(provider, channel, session, request) == Ok(Interactive)
            && r.channelId == channel.id
            && Timely(request, r.respondedAt) && Answers(request.payload, r.payload)
  {
    hide ValidateResponse;
    ValidationIsExact(request, r);
  }

  /** The Bridge forwards a response exactly when its Channel is subscribed and named in it, the Provider
      takes it, and it answers a request that is open in the history and interactive for that Channel. */
  lemma AnswerForwardedIff(w: World, channel: ChannelId, r: InteractionResponse, accepts: bool)
    requires Inv(w) && r.payload.Constructible()
    ensures HandleInteractionResponse(w.bridge, channel, r, accepts) == Pass <==>
            && accepts && w.bridge.IsSubscribed(channel, r.sessionId) && r.channelId == channel
            && exists request :: Answered(w, channel, r, request)
  {
    hide Inv, ValidateInteractionResponse, RouteInteraction, IsOpen, Answers, Timely;
    var b := w.bridge;
    if b.IsSubscribed(channel, r.sessionId) {
      SubscribedToLive(w, channel, r.sessionId);
      StoredSession(w, r.sessionId);
      ChannelIsItself(w, channel);
      var a := b.sessions[r.sessionId];
      var provider := b.providers[a.session.providerId];
      if r.requestId in a.pending {
        var request := a.pending[r.requestId];
        OpenIsStored(w, r.sessionId,
                     InteractionRequest(r.requestId, 0, 0, None, SAMPLE_TEXT, TextRequest(None, false)));
        OpenIsStored(w, r.sessionId, request);
        RoutedAnswer(provider, b.channels[channel], a.session, request, r);
        if HandleInteractionResponse(b, channel, r, accepts) == Pass {
          assert Answered(w, channel, r, request);
        }
      }
      if request :| Answered(w, channel, r, request) {
        OpenIsStored(w, r.sessionId, request);
        RoutedAnswer(provider, b.channels[channel], a.session, request, r);
      }
    }
  }

  lemma ChannelIsItself(w: World, channel: ChannelId)
    requires Inv(w) && channel in w.bridge.channels
    ensures w.bridge.channels[channel].id == channel
  {
    hide SessionInv;
  }

  /** The Bridge forwards a command exactly when its Channel is subscribed and named in it, both ends
      have the capabilities named for that command, and the Provider takes it. */
  lemma CommandForwardedIff(w: World, channel: ChannelId, c: AgentCommand, accepts: bool)
    requires Inv(w)
    ensures HandleCommand(w.bridge, channel, c, accepts) == Pass <==>
            && accepts && w.bridge.IsSubscribed(channel, c.sessionId) && c.channelId == channel
            && c.sessionId in w.bridge.sessions && channel in w.bridge.channels
            && MayIssue(w.bridge.channels[channel].capabilities, c.payload)
            && var provider := w.bridge.sessions[c.sessionId].session.providerId;
               provider in w.bridge.providers && MayCommand(w.bridge.providers[provider].capabilities, c.payload)
  {
    hide Inv, ValidateCommand, MayIssue, MayCommand;
    if w.bridge.IsSubscribed(channel, c.sessionId) {
      SubscribedToLive(w, channel, c.sessionId);
      StoredSession(w, c.sessionId);
      ChannelIsItself(w, channel);
      var a := w.bridge.sessions[c.sessionId];
      CommandByName(w.bridge.providers[a.session.providerId], w.bridge.channels[channel], a.session, c);
    }
  }
}
