/** What the native channel answers: when a request is rejected, queued or served, and that a subscription
    for which there is room completes. */
module NativeAnswers {
  import opened Core
  import opened Order
  import opened Routing
  import opened History
  import opened Bridges
  import opened BridgeFacts
  import opened BridgeRuns
  import opened BridgeAnswers
  import opened Native
  import opened NativeRuns
  import opened NativeGuarantees

  /** The frames a queue holds, wherever they are. */
  ghost function Occupied(q: Queue): nat {
    var parked := if q.client.None? || q.client.value.pending.None? then 0
                  else |q.client.value.pending.value.frames| + |q.client.value.pending.value.trailing|;
    |q.outgoing| + parked
  }

  /** Frames are queued, all at the end and in order, exactly when all of them fit; otherwise none is, and
      the connection is marked for abort. */
  lemma QueueingIsExact(q: Queue, frames: seq<Frame>)
    ensures var (q', ok) := EnqueueBatch(q, frames);
            && (ok <==> Occupied(q) + |frames| <= q.capacity)
            && q' == if ok then q.(outgoing := q.outgoing + frames) else q.(aborted := true)
    ensures |frames| == 1 ==> Enqueue(q, frames[0]) == EnqueueBatch(q, frames)
  {
    assert |frames| == 1 ==> frames == [frames[0]];
  }

  // ---------- Discovery ----------

  ghost predicate ListsOnce(listed: seq<nat>, ids: set<nat>) {
    StrictlyIncreasing(listed) && |listed| == |ids| && forall x :: x in listed <==> x in ids
  }

  lemma AscendingListsOnce(ids: set<nat>)
    ensures ListsOnce(Ascending(ids), ids)
  {
    AscendingElements(ids);
    AscendingIsSorted(ids);
  }

  /** A discovery names its counts, then every Provider once and every session once, both ascending, and
      then completes. */
  lemma DiscoveryListsEverything(b: Bridge, request: RequestId)
    ensures var frames, p, s := DiscoveryFrames(b, request), |b.providers|, |b.sessions|;
            var providers, sessions := Ascending(b.providers.Keys), Ascending(b.sessions.Keys);
            && ListsOnce(providers, b.providers.Keys) && ListsOnce(sessions, b.sessions.Keys)
            && |providers| == p && |sessions| == s && |frames| == p + s + 2
            && frames[0] == DiscoveryStarted(request, p, s) && frames[p + s + 1] == SyncCompleted(request)
            && (forall i :: 0 <= i < p ==> frames[i + 1] == DiscoveryProvider(request, providers[i]))
            && (forall i :: 0 <= i < s ==> frames[i + p + 1] == DiscoverySession(request, sessions[i]))
  {
    hide Ascending, StrictlyIncreasing;
    AscendingListsOnce(b.providers.Keys);
    AscendingListsOnce(b.sessions.Keys);
    assert |b.providers| == |b.providers.Keys| && |b.sessions| == |b.sessions.Keys|;
  }

  /** The discovered sessions change exactly when the whole discovery fits. */
  lemma DiscoveriesAreAnswered(q: Queue, ids: set<SessionId>, frames: seq<Frame>)
    requires q.client.Some?
    ensures var (q', ok) := Discovered(q, ids, frames);
            && (ok <==> Occupied(q) + |frames| <= q.capacity)
            && q' == if ok then q.(outgoing := q.outgoing + frames,
                                   client := Some(q.client.value.(discovered := ids)))
                     else q.(aborted := true)
  {
  }

  // ---------- Subscribing ----------

  /** A subscription request is rejected, with nothing changed, exactly for a session that was not
      discovered, while another one is pending, or for a subscribed session without a stored cursor. A
      subscribed one is answered at once at its stored cursor. Any other is marked as pending. */
  lemma SubscribeRequestsAreAnswered(q: Queue, request: RequestId, session: SessionId)
    requires q.client.Some?
    ensures var (q', start) := BeginSubscribe(q, request, session);
            var c := q.client.value;
            var cursor := AfterCursor(q, session);
            if session !in c.discovered || c.pending.Some? || (session in c.subscriptions && cursor == 0) then
              start == RejectSubscribe && q' == q
            else if session in c.subscriptions then
              && start == AnswerAtOnce(Occupied(q) < q.capacity)
              && q' == (if Occupied(q) < q.capacity
                        then q.(outgoing := q.outgoing
                                            + [SubscriptionResult(request, session, SubscribedBefore, cursor, 0, 0, false)])
                        else q.(aborted := true))
            else
              && start == StartSync
              && q' == q.(client := Some(c.(pending := Some(PendingSubscription(request, session, [], [], false)))))
  {
  }

  // ---------- The Port ----------

  /** In one publication each subscriber is handed its event with its own route and, only if it took that
      and is due one, the session as the event left it; nobody else is handed anything. */
  lemma EachSubscriberIsHandedItsOwn(b: Bridge, from: ProviderId, e: AgentEvent, ports: Ports, c: ChannelId)
    requires Moved(HandleProviderEvent(b, from, e, ports).result)
    ensures from in b.providers && RoutingSession(b, e).Some? && ReduceInto(b, e).Ok?
    ensures !b.IsSubscribed(c, e.sessionId) ==> Mine(HandleProviderEvent(b, from, e, ports).notes, c) == []
    ensures b.IsSubscribed(c, e.sessionId) ==>
              && c in b.channels
              && RouteEvent(b.providers[from], b.channels[c], RoutingSession(b, e).value, e).Ok?
              && var event := EventHandoff(e, RouteEvent(b.providers[from], b.channels[c],
                                                         RoutingSession(b, e).value, e).value);
                 var view := SessionHandoff(ReduceInto(b, e).value.0.session);
                 var viewDue := SessionView in b.channels[c].capabilities && UpdatesSessionView(e);
                 Mine(HandleProviderEvent(b, from, e, ports).notes, c) ==
                 [Delivery(c, e.sessionId, event, ports(c, event))]
                 + (if ports(c, event) && viewDue then [Delivery(c, e.sessionId, view, ports(c, view))] else [])
  {
    hide HandleProviderEvent, PlanRoutes, FanOut, Ascending, ReduceInto, ValidateProviderEvent, RoutingSession,
         HasFailures, Mine, RouteEvent, UpdatesSessionView;
    PublishShape(b, from, e, ports);
    var ids := Ascending(b.Subscribers(e.sessionId));
    var plan := PlanRoutes(b.channels, b.providers[from], RoutingSession(b, e).value, e, ids).value;
    PlanShape(b.channels, b.providers[from], RoutingSession(b, e).value, e, ids);
    AscendingIsSorted(b.Subscribers(e.sessionId));
    AscendingElements(b.Subscribers(e.sessionId));
    MineOfFanOut(plan, e, ReduceInto(b, e).value.0.session, ports, c);
    if b.IsSubscribed(c, e.sessionId) {
      assert c in ids;
      var i :| 0 <= i < |ids| && ids[i] == c;
      assert plan[i].channel == c;
    } else {
      forall i | 0 <= i < |plan| ensures plan[i].channel != c {
        assert ids[i] in ids;
      }
      assert Avoids(plan, c);
    }
  }

  /** A live message is refused exactly without a client, for a session neither subscribed nor pending, or
      when the queue is full, which marks the connection for abort; otherwise its one frame is kept. */
  lemma LiveMessagesAreAnswered(q: Queue, message: Handoff)
    requires message.EventHandoff? || message.SessionHandoff?
    ensures var (q', r) := PortStep(q, message);
            var s := if message.EventHandoff? then message.event.sessionId else message.session.id;
            if q.client.None? then (q', r) == (q, Refused(NoActiveClient))
            else if s !in q.client.value.subscriptions
                    && !(q.client.value.pending.Some? && q.client.value.pending.value.session == s)
            then (q', r) == (q, Refused(SessionNotSubscribed))
            else if Occupied(q) >= q.capacity then (q', r) == (q.(aborted := true), Refused(QueueFull))
            else r == Accepted && Occupied(q') == Occupied(q) + 1 && q'.aborted == q.aborted
  {
  }

  /** A baseline is parked whole for the session that is pending, and refused otherwise. */
  lemma BaselinesAreAnswered(q: Queue, baseline: Baseline)
    ensures var (q', r) := PortStep(q, BaselineHandoff(baseline));
            if q.PendingOf().None? then (q', r) == (q, Refused(NoActiveClient))
            else if q.PendingOf().value.session != baseline.session.id then (q', r) == (q, Refused(SessionNotSubscribed))
            else if Occupied(q) + 1 + |baseline.pending| > q.capacity then (q', r) == (q.(aborted := true), Refused(QueueFull))
            else
              var p := q.PendingOf().value;
              && r == Accepted
              && q' == q.SetPending(Some(p.(frames := p.frames + [SubscriptionSession(p.request, baseline.session)]
                                                      + InteractionFrames(p.request, baseline.pending), synced := true)))
  {
    hide InteractionFrames;
    InteractionCount(0, baseline.pending);
    if q.PendingOf().Some? {
      var p := q.PendingOf().value;
      InteractionCount(p.request, baseline.pending);
      assert p.frames + BaselineFrames(p.request, baseline)
             == p.frames + [SubscriptionSession(p.request, baseline.session)]
                + InteractionFrames(p.request, baseline.pending);
    }
  }

  lemma InteractionCount(request: RequestId, pending: seq<RoutedInteraction>)
    ensures |InteractionFrames(request, pending)| == |pending|
  {
  }

  // ---------- A whole subscription ----------

  ghost function PageFrames(sync: Sync): nat {
    |sync.events| + if sync.baseline.Some? then 1 + |sync.baseline.value.pending| else 0
  }

  lemma PageFrameCount(request: RequestId, sync: Sync)
    ensures |SyncFrames(request, sync)| == PageFrames(sync)
  {
  }

  /** The Port takes a page of the pending session exactly when all of its frames fit. */
  lemma PagesAreAnswered(q: Queue, sync: Sync, session: SessionId)
    requires q.PendingOf().Some? && q.PendingOf().value.session == session
    requires forall i :: 0 <= i < |sync.events| ==> sync.events[i].event.sessionId == session
    ensures PortStep(q, SyncHandoff(sync)).1 == Accepted <==> Occupied(q) + PageFrames(sync) <= q.capacity
  {
    hide SyncFrames;
    PageFrameCount(q.PendingOf().value.request, sync);
  }

  lemma PageIsOwn(w: World, session: SessionId, after: nat, limit: nat, sync: Sync)
    requires Inv(w) && session in w.bridge.sessions && IsPage(w, session, after, limit, sync)
    ensures forall i :: 0 <= i < |sync.events| ==> sync.events[i].event.sessionId == session
  {
    hide IsHistory, Validated;
    var a, h := w.bridge.sessions[session], w.history[session];
    assert SessionInv(w.bridge, session, h);
    Identity(h, a);
    forall i | 0 <= i < |sync.events| ensures sync.events[i].event.sessionId == session {
      assert EventsOf(sync.events)[i] == h[sync.after + i];
    }
  }

  /** Calling the Bridge for a pending session with a history, under complete retention, hands over the
      page after the stored cursor, and succeeds exactly when that page fits the queue. */
  lemma SyncCallsAreAnswered(link: Link, n: ChannelId, others: Ports)
    requires NativeInv(link, n) && link.worker.Marked? && link.world.bridge.config.retainAll
    requires HistoryOf(link.world, link.worker.session) != []
    ensures var w, link' := link.worker, CallSyncStep(link, n, others);
            && |link'.world.notes| == |link.world.notes| + 1
            && var note := link'.world.notes[|link.world.notes|];
               && note.Delivery? && note.channel == n && note.handoff.SyncHandoff?
               && var sync := note.handoff.sync;
                  && IsPage(link.world, w.session, AfterCursor(link.queue, w.session), PAGE_EVENTS, sync)
                  && (link'.worker.Synced? <==> Occupied(link.queue) + PageFrames(sync) <= link.queue.capacity)
                  && (link'.worker.Synced? ==> link'.worker.sync == sync)
                  && (!link'.worker.Synced? ==> link'.worker == SyncFailed(w.request, w.session))
  {
    hide SyncSession, PortStep, Inv, Continuous, IsPage, PageFrames, Occupied;
    var b, q, session := link.world.bridge, link.queue, link.worker.session;
    var after, ports := AfterCursor(q, session), SyncPorts(q, n, others);
    assert !b.IsSubscribed(n, session);
    KnownHasHistory(link.world, session);
    PageRequestsAreAnswered(link.world, n, session, after, PAGE_EVENTS, ports);
    RetainedIsOccupied(b, HistoryOf(link.world, session));
    var r := SyncSession(b, n, session, after, PAGE_EVENTS, ports);
    var sync := r.notes[0].handoff.sync;
    SyncVerdict(q, n, others, sync);
    PageIsOwn(link.world, session, after, PAGE_EVENTS, sync);
    PagesAreAnswered(q, sync, session);
  }

  lemma RetainedIsOccupied(b: Bridge, h: seq<Core.AgentEvent>)
    requires b.config.retainAll
    ensures BridgeAnswers.Held(b.config, h, 0)
  {
  }

  /** With room for the page and its two closing frames, a pending subscription completes: the worker is
      ready, the stored cursor is the end of the page, and the session is subscribed exactly when that is
      the head. */
  lemma RoomySubscriptionsComplete(link: Link, n: ChannelId, others: Ports)
    requires NativeInv(link, n) && link.worker.Marked? && link.world.bridge.config.retainAll
    requires HistoryOf(link.world, link.worker.session) != []
    requires var link' := CallSyncStep(link, n, others);
             |link'.world.notes| > |link.world.notes|
             && link'.world.notes[|link.world.notes|].Delivery?
             && link'.world.notes[|link.world.notes|].handoff.SyncHandoff?
             && Occupied(link.queue) + PageFrames(link'.world.notes[|link.world.notes|].handoff.sync) + 2
                <= link.queue.capacity
    ensures var session, h := link.worker.session, HistoryOf(link.world, link.worker.session);
            var end := PageEnd(link.world.bridge.config, h, AfterCursor(link.queue, session), 128);
            var done := Next(CallSyncStep(link, n, others), n, FinishSubscribe);
            && done.worker == Ready && AfterCursor(done.queue, session) == end
            && (session in Subs(done.queue) <==> end == |h|)
  {
    hide Next, CallSyncStep, Inv, Continuous, Batch, Shape, Agreement, PageFrames, Occupied, EventsOf;
    SyncCallsAreAnswered(link, n, others);
    CallSyncKeepsInv(link, n, others);
    CallSyncEffect(link, n, others);
    var link' := CallSyncStep(link, n, others);
    ParkedSize(link, link', n);
    SyncBatchIsWellFormed(link', n);
    FinishCursors(link', n);
    MarkedIsNew(link, n);
  }

  lemma MarkedIsNew(link: Link, n: ChannelId)
    requires NativeInv(link, n) && link.worker.Marked?
    ensures link.worker.session !in Subs(link.queue)
  {
    hide Inv, Continuous;
  }

  lemma ParkedSize(link: Link, link': Link, n: ChannelId)
    requires link.queue.client.Some? && link.worker.Marked? && SyncCalled(link, link', n) && link'.worker.Synced?
    requires Shape(link, n)
    ensures QueuedLen(link'.queue) == Occupied(link.queue) + PageFrames(link'.worker.sync)
    ensures link'.queue.capacity == link.queue.capacity && Subs(link'.queue) == Subs(link.queue)
  {
    hide SyncFrames, Inv;
    PageFrameCount(link.worker.request, link'.worker.sync);
  }
}
