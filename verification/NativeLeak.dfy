/** The subscription that an overflowing final page leaves behind in the Bridge: how long it stays,
    and what it hides from the client. */
module NativeLeak {
  import opened Core
  import opened Order
  import opened Routing
  import opened History
  import opened Bridges
  import opened BridgeFacts
  import opened BridgeRuns
  import opened Native
  import opened NativeRuns
  import opened NativeGuarantees

  /** A pending subscription is the one the worker is working on. */
  ghost predicate Tracks(link: Link) {
    link.queue.PendingOf().Some? ==>
      && (link.worker.Marked? || link.worker.SyncFailed? || link.worker.Synced?)
      && link.worker.session == link.queue.PendingOf().value.session
  }

  /** The Bridge holds a subscription that the connection does not know of and will not remove. */
  ghost predicate Leaked(link: Link, n: ChannelId, s: SessionId) {
    link.world.bridge.IsSubscribed(n, s) && s !in Subs(link.queue) && s !in Expected(link) && Tracks(link)
  }

  lemma OverflowLeaks(link: Link, n: ChannelId)
    requires NativeInv(link, n) && LosesSubscription(link, FinishSubscribe)
    ensures Leaked(Next(link, n, FinishSubscribe), n, link.worker.session)
  {
    hide Inv, Continuous, Next, Batch, EventsOf, EventFrames, RacedFrames, Mine, LiveEvents, Concerns, AfterCursor;
    SyncBatchIsWellFormed(link, n);
    assert link.world.bridge.IsSubscribed(n, link.worker.session);
  }

  /** The Port touches neither the subscriptions nor which session is pending. */
  lemma PortKeepsClient(q: Queue, handoff: Handoff)
    ensures var q' := PortStep(q, handoff).0;
            && Subs(q') == Subs(q) && q'.PendingOf().Some? == q.PendingOf().Some?
            && (q.PendingOf().Some? ==> q'.PendingOf().value.session == q.PendingOf().value.session)
  {
    hide SyncFrames, BaselineFrames;
  }

  lemma {:induction false} PortRunKeepsClient(q: Queue, notes: seq<Note>)
    requires forall i :: 0 <= i < |notes| ==> notes[i].Delivery?
    ensures var q' := PortRun(q, notes);
            && Subs(q') == Subs(q) && q'.PendingOf().Some? == q.PendingOf().Some?
            && (q.PendingOf().Some? ==> q'.PendingOf().value.session == q.PendingOf().value.session)
  {
    hide PortStep, Subs;
    if notes != [] {
      var k := |notes| - 1;
      PortRunKeepsClient(q, notes[..k]);
      PortKeepsClient(PortRun(q, notes[..k]), notes[k].handoff);
    }
  }

  lemma EmitKeepsLeak(link: Link, n: ChannelId, s: SessionId, from: ProviderId, e: AgentEvent, others: Ports)
    requires Leaked(link, n, s)
    ensures Leaked(EmitStep(link, n, from, e, others), n, s)
  {
    hide PortRun, Mine, HandleProviderEvent, EmitPorts;
    MineAreDeliveries(EmitNotes(link, n, from, e, others), n);
    PortRunKeepsClient(link.queue, Mine(EmitNotes(link, n, from, e, others), n));
    PublishKeepsSubscriptions(link.world.bridge, from, e, EmitPorts(link.queue, n, others));
  }

  lemma SyncKeepsLeak(link: Link, n: ChannelId, s: SessionId, others: Ports)
    requires Leaked(link, n, s) && link.worker.Marked? && link.worker.session != s
    ensures Leaked(CallSyncStep(link, n, others), n, s)
  {
    hide SyncSession, PortStep, AddSubscription, ChoosePage, MakeSync;
    var b, q, session := link.world.bridge, link.queue, link.worker.session;
    var after, ports := AfterCursor(q, session), SyncPorts(q, n, others);
    SyncShape(b, n, session, after, PAGE_EVENTS, ports);
    OwnEdits(b, session, n);
    var r := SyncSession(b, n, session, after, PAGE_EVENTS, ports);
    if r.notes != [] {
      PortKeepsClient(q, r.notes[0].handoff);
    }
  }

  lemma LeavingKeepsLeak(link: Link, n: ChannelId, s: SessionId, move: Move)
    requires Leaked(link, n, s) && (move.AskUnsubscribe? || move.CloseOne?)
    requires move.AskUnsubscribe? ==> move.session != s
    ensures Leaked(Next(link, n, move), n, s)
  {
    hide EmitStep, CallSyncStep, SubscribeStep, Unsubscribe, Discovered, CompleteSubscribe, Enqueue, DiscoveryFrames;
    LeaveKeepsOthers(link.world.bridge, n, if move.CloseOne? then move.closing else move.session, s);
  }

  /** Moves that do not call the Bridge. */
  lemma LocalKeepsLeak(link: Link, n: ChannelId, s: SessionId, move: Move)
    requires Leaked(link, n, s)
    requires !move.Emit? && !move.Elsewhere? && !move.CallSync? && !move.AskUnsubscribe? && !move.CloseOne?
    ensures Leaked(Next(link, n, move), n, s)
  {
    hide EmitStep, CallSyncStep, Unsubscribe, DiscoveryFrames, Step, SyncBatch;
  }

  /** Neither disconnecting nor a new connection removes it, nor does anything that happens there, until
      the client unsubscribes from that session or asks for it again. */
  lemma LeakPersists(link: Link, n: ChannelId, s: SessionId, move: Move)
    requires Leaked(link, n, s)
    requires !(move.AskUnsubscribe? && move.session == s)
    requires !(move.CallSync? && link.worker.Marked? && link.worker.session == s)
    ensures Leaked(Next(link, n, move), n, s)
  {
    hide Next, Leaked;
    if move.AskUnsubscribe? || move.CloseOne? {
      LeavingKeepsLeak(link, n, s, move);
    } else if move.Emit? || move.Elsewhere? || move.CallSync? {
      BridgeKeepsLeak(link, n, s, move);
    } else {
      LocalKeepsLeak(link, n, s, move);
    }
  }

  lemma BridgeKeepsLeak(link: Link, n: ChannelId, s: SessionId, move: Move)
    requires Leaked(link, n, s) && (move.Emit? || move.Elsewhere? || move.CallSync?)
    requires !(move.CallSync? && link.worker.Marked? && link.worker.session == s)
    ensures Leaked(Next(link, n, move), n, s)
  {
    hide EmitStep, CallSyncStep, SubscribeStep, Unsubscribe, Discovered, CompleteSubscribe, Enqueue, DiscoveryFrames,
         Step;
    match move
    case Emit(from, e, others) => EmitKeepsLeak(link, n, s, from, e, others);
    case Elsewhere(op) =>
      if OtherChannel(op, n) { ElsewhereEffect(link.world, n, op); }
    case CallSync(others) =>
      if link.worker.Marked? { SyncKeepsLeak(link, n, s, others); }
  }

  lemma LeaveKeepsOthers(b: Bridge, n: ChannelId, session: SessionId, s: SessionId)
    ensures b.IsSubscribed(n, s) && s != session ==> Unsubscribe(b, n, session).bridge.IsSubscribed(n, s)
  {
    hide DropSubscription;
    SubscriptionEdits(b.subscriptions, session, n, s, n);
  }

  lemma PublishKeepsSubscriptions(b: Bridge, from: ProviderId, e: AgentEvent, ports: Ports)
    ensures HandleProviderEvent(b, from, e, ports).bridge.subscriptions == b.subscriptions
  {
    hide HandleProviderEvent, PlanRoutes, FanOut, Ascending, ReduceInto, ValidateProviderEvent, RoutingSession,
         HasFailures;
    PublishShape(b, from, e, ports);
  }

  /** The two frames a client gets when it asks for a session the Bridge already thinks it has. */
  ghost function HollowBatch(request: RequestId, s: SessionId, head: Counter): seq<Frame> {
    [SubscriptionResult(request, s, SubscribedNow, head, 0, 0, false), SyncCompleted(request)]
  }

  lemma SubscribedSyncIsHollow(w: World, n: ChannelId, s: SessionId, after: U64, ports: Ports)
    requires Inv(w) && w.bridge.IsSubscribed(n, s)
    ensures var r, h := SyncSession(w.bridge, n, s, after, PAGE_EVENTS, ports), HistoryOf(w, s);
            && 0 < |h| <= MAX_U64
            && r == Reply(w.bridge, Ok(SyncOutcome(|h|, 0, false, true, 0)), [])
  {
    hide IsHistory, Validated, ChoosePage, MakeSync;
    SubscribedIsLive(w, n, s);
    assert SessionInv(w.bridge, s, w.history[s]);
    Identity(w.history[s], w.bridge.sessions[s]);
  }

  /** Asking again for a leaked session answers that it is subscribed at the head, with nothing handed
      over: no event, no session. The stored cursor jumps to the head, so whatever lies between the
      client's cursor and the head is never sent. */
  lemma LeakHidesHistory(link: Link, n: ChannelId, s: SessionId, request: RequestId, others: Ports)
    requires Inv(link.world) && link.world.bridge.IsSubscribed(n, s) && link.worker == Marked(request, s)
    requires link.queue.PendingOf() == Some(PendingSubscription(request, s, [], [], false))
    requires |link.queue.outgoing| + 2 <= link.queue.capacity
    ensures var h := HistoryOf(link.world, s);
            && 0 < |h| <= MAX_U64
            && var link' := Next(Next(link, n, CallSync(others)), n, FinishSubscribe);
               && link'.world == link.world && link'.worker == Ready && s in Subs(link'.queue)
               && link'.queue.outgoing == link.queue.outgoing + HollowBatch(request, s, |h|)
               && AfterCursor(link'.queue, s) == |h|
               && (ReadingOf(link, s).cursor == AfterCursor(link.queue, s) < |h| && !ReadingOf(link, s).open ==>
                     && ReadingOf(link', s) == Reading(|h|, true, AfterCursor(link.queue, s), [])
                     && h[ReadingOf(link', s).start..] != [] && (!link'.queue.aborted ==> !ContinuousFor(link', s)))
  {
    hide Inv, SyncSession, PortStep, EmitStep, SubscribeStep, ReadAll;
    var q, h := link.queue, HistoryOf(link.world, s);
    SubscribedSyncIsHollow(link.world, n, s, AfterCursor(q, s), SyncPorts(q, n, others));
    var link1 := Next(link, n, CallSync(others));
    assert link1.world.notes == link.world.notes + [] == link.world.notes;
    assert link1.world == link.world && link1.queue == q;
    var link' := Next(link1, n, FinishSubscribe);
    var batch := HollowBatch(request, s, |h|);
    assert [batch[0]] + [] + [batch[1]] + [] == batch;
    assert link'.queue.outgoing == q.outgoing + batch;
    HollowIsRead(link, link', s, request, |h|);
  }

  lemma HollowIsRead(link: Link, link': Link, s: SessionId, request: RequestId, head: Counter)
    requires link'.sent == link.sent && link'.resume == link.resume
    requires link'.queue.outgoing == link.queue.outgoing + HollowBatch(request, s, head)
    ensures !ReadingOf(link, s).open ==> ReadingOf(link', s) == Reading(head, true, ReadingOf(link, s).cursor, [])
  {
    hide ReadAll;
    var batch, stream := HollowBatch(request, s, head), link.sent + link.queue.outgoing;
    assert link'.sent + link'.queue.outgoing == stream + batch;
    ReadConcat(Resumed(link.resume, s), stream, batch, s);
    assert batch == [batch[0]] + [batch[1]];
    ReadConcat(ReadingOf(link, s), [batch[0]], [batch[1]], s);
    ReadOne(ReadingOf(link, s), batch[0], s);
    ReadOne(Read(ReadingOf(link, s), batch[0], s), batch[1], s);
  }
}
