/** What each Bridge operation answers, from the history and the registries alone: not only that nothing
    goes wrong, but that every request is served when it can be, and with which error when it cannot. */
module BridgeAnswers {
  import opened Core
  import opened Order
  import opened Interaction
  import opened Routing
  import opened Aggregates
  import opened History
  import opened Acceptance
  import opened Bridges
  import opened BridgeFacts
  import opened BridgeRuns
  import opened BridgeGuarantees

  /** A session is known exactly when it has a history. */
  lemma KnownHasHistory(w: World, session: SessionId)
    requires Inv(w)
    ensures session in w.bridge.sessions <==> HistoryOf(w, session) != []
    ensures session in w.bridge.sessions <==> session in w.history
    ensures |HistoryOf(w, session)| <= MAX_U64
  {
    hide IsHistory, Validated, TableInv;
    assert session in w.bridge.sessions.Keys <==> session in w.history.Keys;
    if session in w.bridge.sessions {
      assert SessionInv(w.bridge, session, w.history[session]);
      Identity(w.history[session], w.bridge.sessions[session]);
    }
  }

  /** An endpoint is registered exactly when its identifier is new, and never replaced. */
  lemma RegistrationsAreAnswered(b: Bridge, p: ProviderDescriptor, c: ChannelDescriptor)
    ensures RegisterProvider(b, p) ==
            if p.id in b.providers then Reply(b, Fail(AlreadyRegistered), [])
            else Reply(b.(providers := b.providers[p.id := p]), Pass, [])
    ensures RegisterChannel(b, c) ==
            if c.id in b.channels then Reply(b, Fail(AlreadyRegistered), [])
            else Reply(b.(channels := b.channels[c.id := c]), Pass, [])
  {
  }

  // ---------- Pages ----------

  /** The history after a cursor is still held: all of it, or the last `capacity` events. */
  ghost predicate Held(config: Config, h: seq<AgentEvent>, after: nat) {
    after == |h| || (after < |h| && (config.retainAll || |h| - after <= config.capacity))
  }

  /** Where the page for a request starts. */
  ghost function PageStart(config: Config, h: seq<AgentEvent>, after: nat): nat {
    if Held(config, h, after) then after else 0
  }

  ghost function PageEnd(config: Config, h: seq<AgentEvent>, after: nat, limit: nat): nat
    requires after <= |h| || !Held(config, h, after)
  {
    var start := PageStart(config, h, after);
    if |h| - start <= limit then |h| else start + limit
  }

  /** The one message a served page request hands over. */
  ghost predicate IsPage(w: World, session: SessionId, after: nat, limit: nat, sync: Sync) {
    var h, config := HistoryOf(w, session), w.bridge.config;
    && sync.after == PageStart(config, h, after) && sync.through == PageEnd(config, h, after, limit)
    && sync.after <= sync.through <= |h|
    && sync.reset == !Held(config, h, after)
    && |sync.events| == sync.through - sync.after && EventsOf(sync.events) == h[sync.after..sync.through]
    && (sync.baseline.Some? <==> sync.through == |h|)
  }

  /** The page made for a request, before anybody sees it. */
  lemma PageIsMade(w: World, channel: ChannelDescriptor, session: SessionId, after: U64, limit: nat)
    requires Inv(w) && session in w.bridge.sessions && limit > 0
    ensures var a, h := w.bridge.sessions[session], HistoryOf(w, session);
            && a.session.providerId in w.bridge.providers
            && (ChoosePage(a, after, limit).Some? <==> Held(w.bridge.config, h, after) || Held(w.bridge.config, h, 0))
            && (ChoosePage(a, after, limit).Some? ==>
                  && var made := MakeSync(w.bridge.providers[a.session.providerId], channel, a,
                                          ChoosePage(a, after, limit).value);
                     made.Ok? && IsPage(w, session, after, limit, made.value))
  {
    hide IsHistory, Validated, ChoosePage, MakeSync, TableInv, EventsOf;
    var a, h := w.bridge.sessions[session], w.history[session];
    KnownHasHistory(w, session);
    assert SessionInv(w.bridge, session, h);
    ChooseShape(h, a, after, limit);
    if ChoosePage(a, after, limit).Some? {
      SyncsRoute(w, session, channel, after, limit);
      var sync := MakeSync(w.bridge.providers[a.session.providerId], channel, a, ChoosePage(a, after, limit).value).value;
      PageAnswersRequest(h, a, w.bridge.providers[a.session.providerId], channel, after, limit, sync);
      PageReset(h, a, w.bridge.providers[a.session.providerId], channel, after, limit, sync);
    }
  }

  lemma PageReset(h: seq<AgentEvent>, a: Aggregate, provider: ProviderDescriptor, channel: ChannelDescriptor,
                  after: U64, limit: nat, sync: Sync)
    requires IsHistory(h, a) && limit > 0 && ChoosePage(a, after, limit).Some?
    requires MakeSync(provider, channel, a, ChoosePage(a, after, limit).value) == Ok(sync)
    ensures sync.reset <==> !Held(a.config, h, after)
    ensures sync.through == PageEnd(a.config, h, after, limit)
  {
    hide IsHistory, Page, MakeSync, EventsOf;
    PageIsSlice(h, a, after, limit);
    PageIsSlice(h, a, 0, limit);
    ChooseShape(h, a, after, limit);
    MakeSyncShape(provider, channel, a, ChoosePage(a, after, limit).value);
  }

  /** Every page request, answered. The three argument errors come in order and exactly when due; a
      subscriber is told the head; history that is no longer held is reported so; otherwise exactly one
      page is handed over, and the answer and the subscription follow the Channel's verdict on it. */
  lemma PageRequestsAreAnswered(w: World, channel: ChannelId, session: SessionId, after: U64, limit: nat, ports: Ports)
    requires Inv(w)
    ensures var r, h, config := SyncSession(w.bridge, channel, session, after, limit, ports), HistoryOf(w, session),
                                w.bridge.config;
            if limit == 0 then r == Reply(w.bridge, Err(InvalidPageSize), [])
            else if channel !in w.bridge.channels then r == Reply(w.bridge, Err(UnknownChannel), [])
            else if h == [] then r == Reply(w.bridge, Err(UnknownSession), [])
            else if w.bridge.IsSubscribed(channel, session) then
              |h| <= MAX_U64 && r == Reply(w.bridge, Ok(SyncOutcome(|h|, 0, false, true, 0)), [])
            else if !Held(config, h, after) && !Held(config, h, 0) then
              r == Reply(w.bridge, Err(HistoryUnavailable), [])
            else
              && |r.notes| == 1 && r.notes[0].Delivery? && r.notes[0].handoff.SyncHandoff?
              && var sync := r.notes[0].handoff.sync;
                 && IsPage(w, session, after, limit, sync)
                 && r.notes == [Delivery(channel, session, SyncHandoff(sync), ports(channel, SyncHandoff(sync)))]
                 && if !ports(channel, SyncHandoff(sync)) then r.bridge == w.bridge && r.result == Err(HandoffRejected)
                    else
                      && r.result.Ok?
                      && r.result.value.through == sync.through && r.result.value.eventCount == |sync.events|
                      && r.result.value.reset == !Held(config, h, after)
                      && r.result.value.subscribed == (sync.through == |h|)
                      && r.result.value.pendingCount ==
                         (if sync.baseline.Some? then |sync.baseline.value.pending| else 0)
                      && r.bridge == w.bridge.(subscriptions := r.bridge.subscriptions)
                      && forall s, c :: r.bridge.IsSubscribed(c, s) <==>
                           w.bridge.IsSubscribed(c, s) || (sync.through == |h| && s == session && c == channel)
  {
    hide Inv, ChoosePage, MakeSync, AddSubscription, EventsOf, IsPage, Held;
    var b := w.bridge;
    KnownHasHistory(w, session);
    if limit > 0 && channel in b.channels && session in b.sessions {
      StoredSession(w, session);
      Identity(w.history[session], b.sessions[session]);
      if !b.IsSubscribed(channel, session) {
        PageIsMade(w, b.channels[channel], session, after, limit);
        if Held(b.config, HistoryOf(w, session), after) || Held(b.config, HistoryOf(w, session), 0) {
          var sync := SyncSession(b, channel, session, after, limit, ports).notes[0].handoff.sync;
          PageEndsAtHead(w, session, after, limit, sync);
          OneMore(b, session, channel);
        }
      }
    }
  }

  lemma PageEndsAtHead(w: World, session: SessionId, after: nat, limit: nat, sync: Sync)
    requires IsPage(w, session, after, limit, sync)
    ensures sync.baseline.Some? <==> sync.through == |HistoryOf(w, session)|
    ensures sync.reset == !Held(w.bridge.config, HistoryOf(w, session), after)
  {
  }

  lemma OneMore(b: Bridge, session: SessionId, channel: ChannelId)
    ensures var after := b.(subscriptions := AddSubscription(b.subscriptions, session, channel));
            forall s, c :: after.IsSubscribed(c, s) <==> b.IsSubscribed(c, s) || (s == session && c == channel)
  {
    hide AddSubscription;
    var after := b.(subscriptions := AddSubscription(b.subscriptions, session, channel));
    forall s, c
      ensures after.IsSubscribed(c, s) <==> b.IsSubscribed(c, s) || (s == session && c == channel)
    {
      SubscriptionEdits(b.subscriptions, session, channel, s, c);
    }
  }

  // ---------- Catching up ----------

  /** The Bridge and the client's cursor after `n` page requests, each at the cursor last answered. */
  ghost function CatchUp(w: World, channel: ChannelId, session: SessionId, after: U64, limit: nat, ports: Ports, n: nat)
    : (World, U64)
    decreases n
  {
    if n == 0 then (w, after)
    else
      var r := SyncSession(w.bridge, channel, session, after, limit, ports);
      CatchUp(Step(w, RequestPage(channel, session, after, limit, ports)), channel, session,
              if r.result.Ok? then r.result.value.through else after, limit, ports, n - 1)
  }

  /** How many pages of `limit` events it takes to cover `missing` of them, and at least one. */
  ghost function Requests(missing: nat, limit: nat): nat
    requires limit > 0
  {
    if missing <= limit then 1 else 1 + Requests(missing - limit, limit)
  }

  lemma {:induction false} RequestsIsCeiling(missing: nat, limit: nat)
    requires limit > 0
    ensures var n := Requests(missing, limit);
            && n >= 1 && missing <= n * limit && (missing == 0 ==> n == 1) && (missing > 0 ==> (n - 1) * limit < missing)
    decreases missing
  {
    if missing > limit {
      RequestsIsCeiling(missing - limit, limit);
      OneMorePage(Requests(missing - limit, limit), limit);
    }
  }

  /** One page of the catch-up of an accepting client, under complete retention. */
  lemma PageOfCatchUp(w: World, channel: ChannelId, session: SessionId, after: U64, limit: nat, ports: Ports)
    requires Inv(w) && w.bridge.config.retainAll && limit > 0 && channel in w.bridge.channels
    requires HistoryOf(w, session) != [] && !w.bridge.IsSubscribed(channel, session)
    requires forall handoff :: ports(channel, handoff)
    ensures var h := HistoryOf(w, session);
            var r, w' := SyncSession(w.bridge, channel, session, after, limit, ports),
                         Step(w, RequestPage(channel, session, after, limit, ports));
            var start := if after > |h| then 0 else after;
            && Inv(w') && w'.bridge.config == w.bridge.config && channel in w'.bridge.channels
            && HistoryOf(w', session) == h
            && r.result.Ok? && r.result.value.through == (if |h| - start <= limit then |h| else start + limit)
            && (w'.bridge.IsSubscribed(channel, session) <==> |h| - start <= limit)
            && (r.result.value.reset <==> after > |h|)
  {
    hide Inv, SyncSession, AddSubscription, ChoosePage, MakeSync;
    PageRequestsAreAnswered(w, channel, session, after, limit, ports);
    StepKeepsInv(w, RequestPage(channel, session, after, limit, ports));
  }

  /** With nothing new published, a client that asks at any cursor and passes back what it is told is not
      subscribed before, and is subscribed at the head after, exactly the ceiling of the missing events
      over the page size, and at least one request. A cursor ahead of the session starts over at zero. */
  lemma {:induction false} CatchUpGoesLive(w: World, channel: ChannelId, session: SessionId, after: U64, limit: nat,
                                           ports: Ports, j: nat)
    requires Inv(w) && w.bridge.config.retainAll && limit > 0 && channel in w.bridge.channels
    requires HistoryOf(w, session) != [] && !w.bridge.IsSubscribed(channel, session)
    requires forall handoff :: ports(channel, handoff)
    ensures var h := HistoryOf(w, session);
            var n := Requests(|h| - if after > |h| then 0 else after, limit);
            var done := CatchUp(w, channel, session, after, limit, ports, n);
            && done.0.bridge.IsSubscribed(channel, session) && done.1 == |h| && done.0.history == w.history
            && (j < n ==> !CatchUp(w, channel, session, after, limit, ports, j).0.bridge.IsSubscribed(channel, session))
    decreases |HistoryOf(w, session)| - (if after > |HistoryOf(w, session)| then 0 else after)
  {
    hide Inv, SyncSession, Step;
    var h := HistoryOf(w, session);
    var start := if after > |h| then 0 else after;
    PageOfCatchUp(w, channel, session, after, limit, ports);
    SameHistories(w, RequestPage(channel, session, after, limit, ports));
    var w' := Step(w, RequestPage(channel, session, after, limit, ports));
    if |h| - start > limit {
      CatchUpGoesLive(w', channel, session, start + limit, limit, ports, if j == 0 then 0 else j - 1);
    }
  }

  lemma SameHistories(w: World, op: Op)
    requires op.RequestPage?
    ensures Step(w, op).history == w.history
  {
  }

  // ---------- Plain subscriptions ----------

  /** Every plain subscription, answered: the baseline is the current session, its sequence and its open
      requests; a Channel that takes views must accept it first. */
  lemma SubscriptionsAreAnswered(w: World, channel: ChannelId, session: SessionId, ports: Ports)
    requires Inv(w)
    ensures var r, h := Subscribe(w.bridge, channel, session, ports), HistoryOf(w, session);
            if channel !in w.bridge.channels then r == Reply(w.bridge, Err(UnknownChannel), [])
            else if h == [] then r == Reply(w.bridge, Err(UnknownSession), [])
            else
              && session in w.bridge.sessions && |h| <= MAX_U64
              && var a := w.bridge.sessions[session];
                 var view := SessionView in w.bridge.channels[channel].capabilities;
                 if w.bridge.IsSubscribed(channel, session) then r == Reply(w.bridge, Ok(AlreadySubscribed(|h|)), [])
                 else
                   && |r.notes| >= 1
                   && (view ==>
                         && r.notes[0].Delivery? && r.notes[0].channel == channel && r.notes[0].about == session
                         && r.notes[0].handoff.BaselineHandoff?
                         && r.notes[0].handoff.baseline.session == a.session
                         && r.notes[0].handoff.baseline.sequence == |h|
                         && RequestsOf(r.notes[0].handoff.baseline.pending) == PendingRequests(a)
                         && r.notes[0].accepted == ports(channel, r.notes[0].handoff))
                   && if view && !r.notes[0].accepted then
                        r.bridge == w.bridge && r.result == Err(HandoffRejected) && |r.notes| == 1
                      else
                        && r.result == Ok(Subscribed(view, |h|, |PendingRequests(a)|))
                        && r.notes[|r.notes| - 1] == SubscribedAt(channel, session, |h|)
                        && r.bridge == w.bridge.(subscriptions := r.bridge.subscriptions)
                        && forall s, c :: r.bridge.IsSubscribed(c, s) <==>
                             w.bridge.IsSubscribed(c, s) || (s == session && c == channel)
  {
    hide Inv, MakeBaseline, AddSubscription, PendingRequests;
    var b := w.bridge;
    KnownHasHistory(w, session);
    if channel in b.channels && session in b.sessions {
      StoredSession(w, session);
      Identity(w.history[session], b.sessions[session]);
      if !b.IsSubscribed(channel, session) {
        BaselinesRoute(w, session, b.channels[channel]);
        var a := b.sessions[session];
        BaselineShape(b.providers[a.session.providerId], b.channels[channel], a);
        OneMore(b, session, channel);
        var baseline := MakeBaseline(b.providers[a.session.providerId], b.channels[channel], a).value;
        assert RequestsOf(baseline.pending) == PendingRequests(a);
      }
    }
  }

  ghost function RequestsOf(pending: seq<RoutedInteraction>): seq<InteractionRequest> {
    seq(|pending|, i requires 0 <= i < |pending| => pending[i].request)
  }

  /** Every unsubscription, answered: it says whether there was one, and removes that one only. */
  lemma UnsubscriptionsAreAnswered(w: World, channel: ChannelId, session: SessionId)
    requires Inv(w)
    ensures var r := Unsubscribe(w.bridge, channel, session);
            if channel !in w.bridge.channels then r == Reply(w.bridge, Err(UnknownChannel), [])
            else if HistoryOf(w, session) == [] then r == Reply(w.bridge, Err(UnknownSession), [])
            else
              && r.result == Ok(w.bridge.IsSubscribed(channel, session)) && r.notes == []
              && r.bridge == w.bridge.(subscriptions := r.bridge.subscriptions)
              && forall s, c :: r.bridge.IsSubscribed(c, s) <==>
                   w.bridge.IsSubscribed(c, s) && !(s == session && c == channel)
  {
    hide Inv, DropSubscription;
    var b := w.bridge;
    KnownHasHistory(w, session);
    var after := b.(subscriptions := DropSubscription(b.subscriptions, session, channel));
    forall s, c
      ensures after.IsSubscribed(c, s) <==> b.IsSubscribed(c, s) && !(s == session && c == channel)
    {
      SubscriptionEdits(b.subscriptions, session, channel, s, c);
    }
  }

  lemma ChannelUnsubscriptionsAreAnswered(b: Bridge, channel: ChannelId)
    ensures var r := UnsubscribeChannel(b, channel);
            if channel !in b.channels then r == Reply(b, Err(UnknownChannel), [])
            else
              && r.result == Ok(|set s | s in b.subscriptions && b.IsSubscribed(channel, s)|) && r.notes == []
              && r.bridge == b.(subscriptions := r.bridge.subscriptions)
              && forall s, c :: r.bridge.IsSubscribed(c, s) <==> b.IsSubscribed(c, s) && c != channel
  {
    hide WithoutChannel;
    assert SubscribedSessions(b.subscriptions, channel) == set s | s in b.subscriptions && b.IsSubscribed(channel, s);
    var after := b.(subscriptions := WithoutChannel(b.subscriptions, channel));
    forall s, c ensures after.IsSubscribed(c, s) <==> b.IsSubscribed(c, s) && c != channel {
      SubscriptionEdits(b.subscriptions, 0, channel, s, c);
    }
  }

  // ---------- Publications ----------

  /** The session is the Provider's own, and it has the capability named for this kind of event. */
  ghost predicate Owned(w: World, from: ProviderId, e: AgentEvent) {
    var h := HistoryOf(w, e.sessionId);
    && from in w.bridge.providers && MayPublish(w.bridge.providers[from].capabilities, e.payload)
    && (e.payload.SessionStarted? ==> e.payload.session.providerId == from)
    && (h == [] ==> e.payload.SessionStarted?)
    && (h != [] ==> h[0].payload.SessionStarted? && h[0].payload.session.providerId == from)
  }

  /** The provider's view of a known session is the one of its first event. */
  lemma SessionOwner(w: World, session: SessionId)
    requires Inv(w) && session in w.bridge.sessions
    ensures var a, h := w.bridge.sessions[session], HistoryOf(w, session);
            && h != [] && h[0].payload.SessionStarted? && h[0].sessionId == session
            && a.session.id == session && a.session.providerId == h[0].payload.session.providerId
  {
    hide Inv;
    KnownHasHistory(w, session);
    StoredSession(w, session);
    Identity(w.history[session], w.bridge.sessions[session]);
  }

  lemma ValidIsOwned(w: World, from: ProviderId, e: AgentEvent)
    requires Inv(w) && e.Constructible() && from in w.bridge.providers && RoutingSession(w.bridge, e).Some?
    ensures ValidateProviderEvent(w.bridge.providers[from], RoutingSession(w.bridge, e).value, e).Pass? <==>
            Owned(w, from, e)
  {
    hide Inv, ValidateProviderEvent, MayPublish;
    EventByName(w.bridge.providers[from], RoutingSession(w.bridge, e).value, e);
    KnownHasHistory(w, e.sessionId);
    ProviderIsItself(w, from);
    if e.sessionId in w.bridge.sessions {
      SessionOwner(w, e.sessionId);
    }
  }

  lemma ProviderIsItself(w: World, from: ProviderId)
    requires Inv(w) && from in w.bridge.providers
    ensures w.bridge.providers[from].id == from
  {
    hide SessionInv;
  }

  lemma AllSubscribersRoute(w: World, from: ProviderId, e: AgentEvent)
    requires Inv(w) && e.Constructible() && from in w.bridge.providers && RoutingSession(w.bridge, e).Some?
    requires ValidateProviderEvent(w.bridge.providers[from], RoutingSession(w.bridge, e).value, e).Pass?
    ensures PlanRoutes(w.bridge.channels, w.bridge.providers[from], RoutingSession(w.bridge, e).value, e,
                       Ascending(w.bridge.Subscribers(e.sessionId))).Ok?
  {
    hide SessionInv, PlanRoutes, ValidateProviderEvent, RoutingSession, Ascending;
    var b, ids := w.bridge, Ascending(w.bridge.Subscribers(e.sessionId));
    AscendingElements(b.Subscribers(e.sessionId));
    forall i | 0 <= i < |ids| ensures ids[i] in b.channels {
      assert ids[i] in ids;
      assert b.IsSubscribed(ids[i], e.sessionId);
    }
    PlanSucceeds(b.channels, b.providers[from], RoutingSession(b, e).value, e, ids);
  }

  /** What the reducer says of an event the Provider may publish. */
  lemma ReductionIsAnswered(w: World, e: AgentEvent)
    requires Inv(w) && e.Constructible() && RoutingSession(w.bridge, e).Some?
    ensures var h, reduced := HistoryOf(w, e.sessionId), ReduceInto(w.bridge, e);
            && (h != [] ==> h[0].payload.SessionStarted?)
            && if h == [] then
                 if e.sequence == 1 then reduced.Ok? && reduced.value.1 == Applied
                 else reduced == Err(InvalidInitialSequence(e.sequence))
               else if e.sequence == |h| + 1 && Admissible(h, e) then reduced.Ok? && reduced.value.1 == Applied
               else if e == h[|h| - 1] then reduced.Ok? && reduced.value.1 == AlreadyApplied
               else e.sessionId in w.bridge.sessions && reduced.Err?
                    && ApplyEvent(w.bridge.sessions[e.sessionId], e).1 == Err(reduced.error)
  {
    hide Inv, ApplyEvent, Initial, Admissible;
    KnownHasHistory(w, e.sessionId);
    if e.sessionId in w.bridge.sessions {
      var a, h := w.bridge.sessions[e.sessionId], w.history[e.sessionId];
      StoredSession(w, e.sessionId);
      SessionOwner(w, e.sessionId);
      AcceptanceIsExact(h, a, e);
      CursorAnswers(h, a, e);
      var answer := ApplyEvent(a, e).1;
      assert answer.Ok? ==> answer.value == Applied || answer.value == AlreadyApplied;
    } else {
      StreamStarts(e, w.bridge.config);
    }
  }

  /** Every publication, answered. Errors come in order and exactly when due and change nothing; a new
      session starts with sequence one; the next event that the stream admits is applied; only the last
      event itself is taken as a retry. */
  lemma PublicationsAreAnswered(w: World, from: ProviderId, e: AgentEvent, ports: Ports)
    requires Inv(w) && e.Constructible()
    ensures var r, h := HandleProviderEvent(w.bridge, from, e, ports), HistoryOf(w, e.sessionId);
            && (h != [] ==> h[0].payload.SessionStarted?)
            && (!Moved(r.result) ==> r.bridge == w.bridge && r.notes == [])
            && if from !in w.bridge.providers then r.result == Err(ProviderNotFound)
               else if h == [] && !e.payload.SessionStarted? then r.result == Err(SessionNotStarted)
               else if !Owned(w, from, e) then r.result.Err? && r.result.error.PublishRoute?
               else if h == [] then
                 if e.sequence == 1 then Moved(r.result)
                 else r.result == Err(PublishReduce(InvalidInitialSequence(e.sequence)))
               else if e.sequence == |h| + 1 && Admissible(h, e) then Moved(r.result)
               else if e == h[|h| - 1] then r.result == Ok(Report(AlreadyApplied, []))
               else && e.sessionId in w.bridge.sessions && r.result.Err? && r.result.error.PublishReduce?
                    && ApplyEvent(w.bridge.sessions[e.sessionId], e).1 == Err(r.result.error.reduceError)
  {
    hide Inv, ValidateProviderEvent, PlanRoutes, FanOut, Ascending, HasFailures, ReduceInto, Owned, Admissible,
         ApplyEvent;
    KnownHasHistory(w, e.sessionId);
    if e.sessionId in w.bridge.sessions {
      SessionOwner(w, e.sessionId);
    }
    if from in w.bridge.providers && RoutingSession(w.bridge, e).Some? {
      ValidIsOwned(w, from, e);
      ReductionIsAnswered(w, e);
      if Owned(w, from, e) {
        AllSubscribersRoute(w, from, e);
      }
    }
  }

  // ---------- Actions ----------

  /** The response is one that this Channel may give to a request open in the history. */
  ghost predicate Settling(w: World, channel: ChannelId, r: InteractionResponse) {
    r.channelId == channel && exists request :: Answered(w, channel, r, request)
  }

  /** Every response, answered: which error comes when, in order, from the history. */
  lemma ResponsesAreAnswered(w: World, channel: ChannelId, r: InteractionResponse, accepts: bool)
    requires Inv(w) && r.payload.Constructible()
    ensures var result, h := HandleInteractionResponse(w.bridge, channel, r, accepts), HistoryOf(w, r.sessionId);
            if channel !in w.bridge.channels then result == Fail(ActionChannelNotFound)
            else if h == [] then result == Fail(ActionSessionNotFound)
            else if !w.bridge.IsSubscribed(channel, r.sessionId) then result == Fail(ChannelNotSubscribed)
            else if forall request :: !OpenUnder(h, r.requestId, request) then result == Fail(ActionNotPending)
            else if !Settling(w, channel, r) then result.Fail? && result.error.ActionRoute?
            else result == if accepts then Pass else Fail(ProviderHandoff)
  {
    hide Inv, ValidateInteractionResponse, Answered, OpenUnder;
    KnownHasHistory(w, r.sessionId);
    AnswerForwardedIff(w, channel, r, true);
    AnswerForwardedIff(w, channel, r, accepts);
    if r.sessionId in w.bridge.sessions {
      StoredSession(w, r.sessionId);
      PendingById(w.history[r.sessionId], w.bridge.sessions[r.sessionId], r.requestId);
    }
  }

  /** Every command, answered, with its needs by name. */
  lemma CommandsAreAnswered(w: World, channel: ChannelId, c: AgentCommand, accepts: bool)
    requires Inv(w)
    ensures var result, h := HandleCommand(w.bridge, channel, c, accepts), HistoryOf(w, c.sessionId);
            if channel !in w.bridge.channels then result == Fail(ActionChannelNotFound)
            else if h == [] then result == Fail(ActionSessionNotFound)
            else if !w.bridge.IsSubscribed(channel, c.sessionId) then result == Fail(ChannelNotSubscribed)
            else
              && h[0].payload.SessionStarted? && h[0].payload.session.providerId in w.bridge.providers
              && var provider := w.bridge.providers[h[0].payload.session.providerId];
                 if c.channelId != channel then result == Fail(ActionRoute(ChannelMismatch))
                 else if !(MayCommand(provider.capabilities, c.payload)
                           && MayIssue(w.bridge.channels[channel].capabilities, c.payload))
                 then result.Fail? && result.error.ActionRoute?
                 else result == if accepts then Pass else Fail(ProviderHandoff)
  {
    hide Inv, ValidateCommand, MayCommand, MayIssue;
    KnownHasHistory(w, c.sessionId);
    if c.sessionId in w.bridge.sessions && channel in w.bridge.channels {
      StoredSession(w, c.sessionId);
      SessionOwner(w, c.sessionId);
      ChannelIsItself(w, channel);
      var a := w.bridge.sessions[c.sessionId];
      CommandByName(w.bridge.providers[a.session.providerId], w.bridge.channels[channel], a.session, c);
    }
  }
}
