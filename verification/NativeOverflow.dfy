/** A run of the native channel in which a final page fits but its two closing frames do not, and the
    reconnection after it, on which the client is told that it is subscribed and is sent nothing. */
module NativeOverflow {
  import opened Core
  import opened Order
  import opened Routing
  import opened Aggregates
  import opened Bridges
  import opened BridgeRuns
  import opened Native
  import opened NativeRuns
  import opened NativeGuarantees
  import opened NativeLeak

  // ---------- The scene ----------

  const CODEX := ProviderDescriptor(1, {SessionState})

  /** The capabilities every native channel declares. */
  const PHONE := ChannelDescriptor(2, {Notification, SessionView, RealtimeSync, ApprovalInput, FormInput, TextInput,
                                       RemoteCommand})

  const OPENING := AgentSession(3, 1, None, None, None, Initializing, Connected, 1, 0, 0)
  const STARTED := AgentEvent(4, 3, 1, 0, SessionStarted(OPENING))
  const SPOKEN := AgentEvent(5, 3, 2, 0, Message(Assistant, Info, SAMPLE_TEXT))

  const FIRST := Aggregate(RETAIN_ALL, OPENING, None, None, map[], map[], None, STARTED, [STARTED])
  const STATE := Aggregate(RETAIN_ALL, OPENING, None, None, map[], map[], None, SPOKEN, [STARTED, SPOKEN])
  const KNOWN := Bridge(map[1 := CODEX], map[2 := PHONE], RETAIN_ALL, map[], map[])
  const BEGUN := KNOWN.(sessions := map[3 := FIRST])
  const LIVE := KNOWN.(sessions := map[3 := STATE])

  ghost function Everyone(): Ports {
    (channel: ChannelId, handoff: Handoff) => true
  }

  ghost function LiveWorld(): World {
    World(LIVE, map[3 := [STARTED, SPOKEN]], [])
  }

  lemma StartPublishes(ports: Ports)
    ensures HandleProviderEvent(KNOWN, 1, STARTED, ports) == Reply(BEGUN, Ok(Report(Applied, [])), [])
  {
    assert Ascending(KNOWN.Subscribers(3)) == [];
    assert ValidateProviderEvent(CODEX, OPENING, STARTED).Pass?;
    assert FanOut([], STARTED, OPENING, ports) == ([], []);
    assert KNOWN.sessions[3 := FIRST] == map[3 := FIRST];
  }

  lemma SecondPublishes(ports: Ports)
    ensures HandleProviderEvent(BEGUN, 1, SPOKEN, ports) == Reply(LIVE, Ok(Report(Applied, [])), [])
  {
    assert Ascending(BEGUN.Subscribers(3)) == [];
    assert ValidateProviderEvent(CODEX, OPENING, SPOKEN).Pass?;
    assert FanOut([], SPOKEN, OPENING, ports) == ([], []);
    assert [STARTED] + [SPOKEN] == [STARTED, SPOKEN];
    assert ApplyEvent(FIRST, SPOKEN) == (STATE, Ok(Applied));
    assert BEGUN.sessions[3 := STATE] == map[3 := STATE];
  }

  // ---------- Following a run ----------

  lemma Follow(link: Link, moves: seq<Move>, k: nat, here: Link)
    requires k < |moves| && RunLink(link, 2, moves[..k]) == here
    ensures RunLink(link, 2, moves[..k + 1]) == Next(here, 2, moves[k])
  {
    hide Next;
    assert moves[..k + 1][..k] == moves[..k];
  }

  lemma Unmoved(link: Link, moves: seq<Move>)
    requires moves == []
    ensures RunLink(link, 2, moves) == link
  {
  }

  lemma {:induction false} RunAppend(link: Link, a: seq<Move>, b: seq<Move>)
    ensures RunLink(link, 2, a + b) == RunLink(RunLink(link, 2, a), 2, b)
    decreases |b|
  {
    hide Next;
    if b == [] {
      assert a + b == a;
    } else {
      var k := |b| - 1;
      RunAppend(link, a, b[..k]);
      assert (a + b)[..|a + b| - 1] == a + b[..k];
    }
  }

  // ---------- Publishing the session ----------

  ghost function Offline(world: World, resume: map<SessionId, U64>, sent: seq<Frame>): Link {
    Link(world, Queue(None, [], false, 4), Ready, sent, resume)
  }

  ghost function Publishing(): seq<Move> {
    [Elsewhere(AddProvider(CODEX)), Emit(1, STARTED, Everyone()), Emit(1, SPOKEN, Everyone())]
  }

  lemma Registers()
    ensures Next(Unconnected(RETAIN_ALL, PHONE, 4), 2, Elsewhere(AddProvider(CODEX)))
            == Offline(World(KNOWN, map[], []), map[], [])
  {
    hide EmitStep, CallSyncStep, SubscribeStep;
  }

  lemma PublishesFirst()
    ensures Next(Offline(World(KNOWN, map[], []), map[], []), 2, Emit(1, STARTED, Everyone()))
            == Offline(World(BEGUN, map[3 := [STARTED]], []), map[], [])
  {
    hide HandleProviderEvent, CallSyncStep, SubscribeStep, PortRun, Mine;
    var here := Offline(World(KNOWN, map[], []), map[], []);
    StartPublishes(EmitPorts(here.queue, 2, Everyone()));
    EmptyRun(here.queue);
    NothingMine(2);
    assert HistoryOf(here.world, 3) + [STARTED] == [STARTED];
    assert map[][3 := [STARTED]] == map[3 := [STARTED]];
  }

  lemma PublishesSecond()
    ensures Next(Offline(World(BEGUN, map[3 := [STARTED]], []), map[], []), 2, Emit(1, SPOKEN, Everyone()))
            == Offline(LiveWorld(), map[], [])
  {
    hide HandleProviderEvent, CallSyncStep, SubscribeStep, PortRun, Mine;
    var here := Offline(World(BEGUN, map[3 := [STARTED]], []), map[], []);
    SecondPublishes(EmitPorts(here.queue, 2, Everyone()));
    EmptyRun(here.queue);
    NothingMine(2);
    assert HistoryOf(here.world, 3) + [SPOKEN] == [STARTED, SPOKEN];
    assert here.world.history[3 := [STARTED, SPOKEN]] == map[3 := [STARTED, SPOKEN]];
  }

  lemma Published()
    ensures RunLink(Unconnected(RETAIN_ALL, PHONE, 4), 2, Publishing()) == Offline(LiveWorld(), map[], [])
  {
    hide Next, Offline, Unconnected, RunLink, LiveWorld;
    var link, moves := Unconnected(RETAIN_ALL, PHONE, 4), Publishing();
    Unmoved(link, moves[..0]);
    Registers();
    PublishesFirst();
    PublishesSecond();
    Follow(link, moves, 0, link);
    Follow(link, moves, 1, Offline(World(KNOWN, map[], []), map[], []));
    Follow(link, moves, 2, Offline(World(BEGUN, map[3 := [STARTED]], []), map[], []));
    assert moves[..3] == moves;
  }

  // ---------- Connecting, discovering and asking ----------

  /** The session is stored and its Provider registered; who is subscribed does not matter. */
  ghost predicate Staged(world: World) {
    world.bridge.providers == map[1 := CODEX] && world.bridge.sessions == map[3 := STATE]
  }

  ghost function Online(world: World, ids: set<SessionId>, outgoing: seq<Frame>, worker: Worker, sent: seq<Frame>)
    : Link
  {
    Link(world, Queue(Some(Client(ids, {}, None, map[])), outgoing, false, 4), worker, sent, map[])
  }

  /** One Provider, one session, and the two frames around them: four in all. */
  ghost function Listing(request: RequestId): seq<Frame> {
    [DiscoveryStarted(request, 1, 1), DiscoveryProvider(request, 1), DiscoverySession(request, 3),
     SyncCompleted(request)]
  }

  ghost function Waiting(world: World, discovery: RequestId, request: RequestId): Link {
    Link(world,
         Queue(Some(Client({3}, {}, Some(PendingSubscription(request, 3, [], [], false)), map[])), [], false, 4),
         Marked(request, 3), [HelloFrame] + Listing(discovery), map[])
  }

  ghost function Connecting(discovery: RequestId, request: RequestId): seq<Move> {
    [Accept(map[]), Answer, Drain, TakeSnapshot(discovery), PublishDiscovery, Drain, Drain, Drain, Drain,
     AskSubscribe(request, 3)]
  }

  lemma Accepts(world: World, resume: map<SessionId, U64>, sent: seq<Frame>)
    ensures Next(Offline(world, resume, sent), 2, Accept(map[]))
            == Online(world, {}, [], Answering(HelloFrame, true), [])
  {
    hide EmitStep, CallSyncStep, SubscribeStep, DiscoveryFrames;
  }

  lemma Greets(world: World)
    ensures Next(Online(world, {}, [], Answering(HelloFrame, true), []), 2, Answer)
            == Online(world, {}, [HelloFrame], Ready, [])
    ensures Next(Online(world, {}, [HelloFrame], Ready, []), 2, Drain) == Online(world, {}, [], Ready, [HelloFrame])
  {
    hide EmitStep, CallSyncStep, SubscribeStep, DiscoveryFrames;
    assert [HelloFrame][1..] == [];
  }

  lemma ListingIsComplete(world: World, request: RequestId)
    requires Staged(world)
    ensures DiscoveryFrames(world.bridge, request) == Listing(request) && world.bridge.sessions.Keys == {3}
  {
    OneAscending(1, world.bridge.providers.Keys);
    OneAscending(3, world.bridge.sessions.Keys);
    assert |world.bridge.providers| == 1 && |world.bridge.sessions| == 1;
  }

  lemma OneAscending(x: nat, s: set<nat>)
    requires s == {x}
    ensures Ascending(s) == [x]
  {
    AscendingElements(s);
    assert Ascending(s)[0] in Ascending(s);
  }

  lemma Discovers(world: World, discovery: RequestId)
    requires Staged(world)
    ensures Next(Online(world, {}, [], Ready, [HelloFrame]), 2, TakeSnapshot(discovery))
            == Online(world, {}, [], Discovering({3}, Listing(discovery)), [HelloFrame])
    ensures Next(Online(world, {}, [], Discovering({3}, Listing(discovery)), [HelloFrame]), 2, PublishDiscovery)
            == Online(world, {3}, Listing(discovery), Ready, [HelloFrame])
  {
    hide EmitStep, CallSyncStep, SubscribeStep, DiscoveryFrames;
    ListingIsComplete(world, discovery);
  }

  lemma Drains(world: World, frames: seq<Frame>, sent: seq<Frame>)
    requires frames != []
    ensures Next(Online(world, {3}, frames, Ready, sent), 2, Drain)
            == Online(world, {3}, frames[1..], Ready, sent + [frames[0]])
  {
    hide EmitStep, CallSyncStep, SubscribeStep, DiscoveryFrames;
  }

  lemma AsksFor(world: World, discovery: RequestId, request: RequestId)
    ensures Next(Online(world, {3}, [], Ready, [HelloFrame] + Listing(discovery)), 2, AskSubscribe(request, 3))
            == Waiting(world, discovery, request)
  {
    hide EmitStep, CallSyncStep, DiscoveryFrames;
  }

  lemma DrainsAll(link: Link, moves: seq<Move>, world: World, discovery: RequestId)
    requires |moves| == 10 && forall k :: 5 <= k < 9 ==> moves[k] == Drain
    requires RunLink(link, 2, moves[..5]) == Online(world, {3}, Listing(discovery), Ready, [HelloFrame])
    ensures RunLink(link, 2, moves[..9]) == Online(world, {3}, [], Ready, [HelloFrame] + Listing(discovery))
  {
    hide Next, Online, RunLink;
    var l, sent := Listing(discovery), [HelloFrame];
    Drains(world, l, sent);
    Follow(link, moves, 5, Online(world, {3}, l, Ready, sent));
    Drains(world, l[1..], sent + [l[0]]);
    Follow(link, moves, 6, Online(world, {3}, l[1..], Ready, sent + [l[0]]));
    assert l[1..][1..] == l[2..] && sent + [l[0]] + [l[1]] == sent + l[..2];
    Drains(world, l[2..], sent + l[..2]);
    Follow(link, moves, 7, Online(world, {3}, l[2..], Ready, sent + l[..2]));
    assert l[2..][1..] == l[3..] && sent + l[..2] + [l[2]] == sent + l[..3];
    Drains(world, l[3..], sent + l[..3]);
    Follow(link, moves, 8, Online(world, {3}, l[3..], Ready, sent + l[..3]));
    assert l[3..][1..] == [] && sent + l[..3] + [l[3]] == sent + l;
  }

  lemma ReachesWaiting(world: World, resume: map<SessionId, U64>, sent: seq<Frame>, discovery: RequestId,
                       request: RequestId)
    requires Staged(world)
    ensures RunLink(Offline(world, resume, sent), 2, Connecting(discovery, request))
            == Waiting(world, discovery, request)
  {
    hide Next, Offline, Online, Waiting, RunLink, Staged, Listing;
    var link, moves := Offline(world, resume, sent), Connecting(discovery, request);
    Unmoved(link, moves[..0]);
    Accepts(world, resume, sent);
    Greets(world);
    Discovers(world, discovery);
    AsksFor(world, discovery, request);
    Follow(link, moves, 0, link);
    Follow(link, moves, 1, Online(world, {}, [], Answering(HelloFrame, true), []));
    Follow(link, moves, 2, Online(world, {}, [HelloFrame], Ready, []));
    Follow(link, moves, 3, Online(world, {}, [], Ready, [HelloFrame]));
    Follow(link, moves, 4, Online(world, {}, [], Discovering({3}, Listing(discovery)), [HelloFrame]));
    DrainsAll(link, moves, world, discovery);
    Follow(link, moves, 9, Online(world, {3}, [], Ready, [HelloFrame] + Listing(discovery)));
    assert moves[..10] == moves;
  }

  // ---------- The overflow ----------

  ghost function Opening(): Sync {
    Sync(0, 2, false, [RoutedEvent(STARTED, ObserveOnly), RoutedEvent(SPOKEN, ObserveOnly)],
         Some(Baseline(OPENING, 2, [])))
  }

  lemma PageOfTwo(a: Aggregate, e: AgentEvent, f: AgentEvent, limit: nat)
    requires a.recent == [e, f] && a.lastEvent == f && e.sequence == 1 && f.sequence == 2 && limit > 1
    ensures Page(a, 0, limit) == Some([e, f])
  {
    var tail := a.recent[1..];
    assert tail == [f] && tail[1..] == [];
    assert EventsAfter(tail[1..], 0) == [];
    assert EventsAfter(tail, 0) == [f];
    assert EventsAfter(a.recent, 0) == [e] + EventsAfter(tail, 0) == [e, f];
  }

  lemma RouteTwo(provider: ProviderDescriptor, channel: ChannelDescriptor, session: AgentSession, e: AgentEvent,
                 f: AgentEvent, route: ChannelEventRoute)
    requires RouteEvent(provider, channel, session, e) == Ok(route) == RouteEvent(provider, channel, session, f)
    ensures RouteEvents(provider, channel, session, [e, f]) == Ok([RoutedEvent(e, route), RoutedEvent(f, route)])
  {
    hide RouteEvent;
    assert [f][1..] == [] && [e, f][1..] == [f];
    assert RouteEvents(provider, channel, session, [f][1..]) == Ok([]);
    assert RouteEvents(provider, channel, session, [f]) == Ok([RoutedEvent(f, route)] + []);
    assert [RoutedEvent(f, route)] + [] == [RoutedEvent(f, route)];
    assert [RoutedEvent(e, route)] + [RoutedEvent(f, route)] == [RoutedEvent(e, route), RoutedEvent(f, route)];
  }

  const CLAIMED := LIVE.(subscriptions := map[3 := {2}])

  lemma PageIsMade()
    ensures MakeSync(CODEX, PHONE, STATE, Chosen(0, false, [STARTED, SPOKEN])) == Ok(Opening())
    ensures ChoosePage(STATE, 0, PAGE_EVENTS) == Some(Chosen(0, false, [STARTED, SPOKEN]))
  {
    PageOfTwo(STATE, STARTED, SPOKEN, PAGE_EVENTS);
    assert RouteEvent(CODEX, PHONE, OPENING, STARTED) == Ok(ObserveOnly);
    assert RouteEvent(CODEX, PHONE, OPENING, SPOKEN) == Ok(ObserveOnly);
    RouteTwo(CODEX, PHONE, OPENING, STARTED, SPOKEN, ObserveOnly);
    assert PendingRequests(STATE) == [];
    assert MakeBaseline(CODEX, PHONE, STATE) == Ok(Baseline(OPENING, 2, []));
    var page := Chosen(0, false, [STARTED, SPOKEN]);
    assert Through(page) == 2;
  }

  lemma FirstSubscriber()
    ensures AddSubscription(map[], 3, 2) == map[3 := {2}]
  {
    var none: set<ChannelId> := {};
    assert none + {2} == {2};
  }

  lemma PageIsFinal(ports: Ports)
    requires ports(2, SyncHandoff(Opening()))
    ensures SyncSession(LIVE, 2, 3, 0, PAGE_EVENTS, ports) ==
            Reply(CLAIMED, Ok(SyncOutcome(2, 2, false, true, 0)), [Delivery(2, 3, SyncHandoff(Opening()), true)])
  {
    hide MakeSync, ChoosePage;
    PageIsMade();
    FirstSubscriber();
  }

  lemma PageFits()
    ensures |SyncFrames(6, Opening())| == 3
    ensures PortStep(Waiting(LiveWorld(), 5, 6).queue, SyncHandoff(Opening())).1 == Accepted
  {
  }

  ghost function ClaimedWorld(): World {
    World(CLAIMED, map[3 := [STARTED, SPOKEN]], [Delivery(2, 3, SyncHandoff(Opening()), true)])
  }

  ghost function Parked(): Link {
    var here := Waiting(LiveWorld(), 5, 6);
    Link(ClaimedWorld(),
         here.queue.SetPending(Some(PendingSubscription(6, 3, SyncFrames(6, Opening()), [], true))),
         Synced(6, 3, SyncOutcome(2, 2, false, true, 0), Opening(), 1), here.sent, map[])
  }

  lemma PageIsParked()
    ensures Next(Waiting(LiveWorld(), 5, 6), 2, CallSync(Everyone())) == Parked()
    ensures LosesSubscription(Parked(), FinishSubscribe)
  {
    hide EmitStep, SubscribeStep, SyncSession, SyncFrames, Opening, Listing, DiscoveryFrames, PortStep;
    var here := Waiting(LiveWorld(), 5, 6);
    PageFits();
    SyncVerdict(here.queue, 2, Everyone(), Opening());
    PageIsFinal(SyncPorts(here.queue, 2, Everyone()));
    SyncAnswer(here.queue, 6, 3, Opening());
    assert here.world.notes + [Delivery(2, 3, SyncHandoff(Opening()), true)] == ClaimedWorld().notes;
  }

  ghost function Losing(): seq<Move> {
    Publishing() + Connecting(5, 6) + [CallSync(Everyone())]
  }

  lemma RunReachesParked()
    ensures RunLink(Unconnected(RETAIN_ALL, PHONE, 4), 2, Losing()) == Parked()
  {
    hide Next, Unconnected, RunLink, Waiting, LiveWorld, Parked, Publishing, Connecting, Offline;
    var link := Unconnected(RETAIN_ALL, PHONE, 4);
    Published();
    LiveIsStaged();
    ReachesWaiting(LiveWorld(), map[], [], 5, 6);
    RunAppend(link, Publishing(), Connecting(5, 6));
    RunAppend(link, Publishing() + Connecting(5, 6), [CallSync(Everyone())]);
    PageIsParked();
    OneMove(Waiting(LiveWorld(), 5, 6), CallSync(Everyone()));
  }

  lemma OneMove(link: Link, move: Move)
    ensures RunLink(link, 2, [move]) == Next(link, 2, move)
  {
    hide Next;
    assert [move][..0] == [];
  }

  lemma LiveIsStaged()
    ensures Staged(LiveWorld()) && Staged(ClaimedWorld())
  {
  }

  /** With room for four frames, a client that discovers the one session and subscribes to its two events
      reaches, through moves none of which loses anything, the final page whose completion does. */
  lemma OverflowIsReachable()
    ensures RoomyRun(Unconnected(RETAIN_ALL, PHONE, 4), 2, Losing())
    ensures LosesSubscription(RunLink(Unconnected(RETAIN_ALL, PHONE, 4), 2, Losing()), FinishSubscribe)
  {
    hide Next, Unconnected, RunLink, Parked, Overflows;
    RunReachesParked();
    PageIsParked();
    var moves := Losing();
    assert forall i :: 0 <= i < |moves| ==> moves[i].Legal() && !moves[i].FinishSubscribe?;
  }

  // ---------- The reconnection ----------

  lemma LosesAndCloses()
    ensures var lost := Next(Parked(), 2, FinishSubscribe);
            lost.worker == Closing({}) && Next(lost, 2, FinishClose) == Offline(ClaimedWorld(), map[], Parked().sent)
  {
    hide EmitStep, CallSyncStep, SubscribeStep, DiscoveryFrames, Opening, SyncFrames, Listing;
    PageFits();
  }

  ghost function Returning(): seq<Move> {
    [FinishSubscribe, FinishClose] + Connecting(7, 8) + [CallSync(Everyone()), FinishSubscribe]
  }

  lemma TwoMoves(link: Link, a: Move, b: Move)
    ensures RunLink(link, 2, [a, b]) == Next(Next(link, 2, a), 2, b)
  {
    hide Next;
    assert [a, b] == [a] + [b];
    RunAppend(link, [a], [b]);
    OneMove(link, a);
    OneMove(RunLink(link, 2, [a]), b);
  }

  lemma ClaimedIsSound()
    ensures Inv(ClaimedWorld()) && ClaimedWorld().bridge.IsSubscribed(2, 3)
  {
    hide Inv, RunLink, Unconnected, Parked, RoomyRun;
    OverflowIsReachable();
    RunReachesParked();
    SubscriptionsAgreeAndStreamsContinue(RETAIN_ALL, PHONE, 4, Losing());
    ParkedWorld();
  }

  lemma ParkedWorld()
    ensures Parked().world == ClaimedWorld()
  {
  }

  /** After the overflow the same client reconnects, discovers and asks for the session from the start:
      it is told that it is subscribed at sequence two, and is sent neither event nor the session. */
  lemma ReconnectionMissesEverything()
    ensures var link := RunLink(RunLink(Unconnected(RETAIN_ALL, PHONE, 4), 2, Losing()), 2, Returning());
            && 3 in Subs(link.queue) && HistoryOf(link.world, 3) == [STARTED, SPOKEN]
            && link.sent + link.queue.outgoing == [HelloFrame] + Listing(7) + HollowBatch(8, 3, 2)
            && ReadingOf(link, 3) == Reading(2, true, 0, [])
  {
    hide Next, Unconnected, RunLink, Parked, Waiting, Connecting, Offline, Inv, Listing, HollowBatch, ReadAll;
    RunReachesParked();
    LosesAndCloses();
    LiveIsStaged();
    var start, sent := Parked(), Parked().sent;
    TwoMoves(start, FinishSubscribe, FinishClose);
    RunAppend(start, [FinishSubscribe, FinishClose], Connecting(7, 8));
    ReachesWaiting(ClaimedWorld(), map[], sent, 7, 8);
    RunAppend(start, [FinishSubscribe, FinishClose] + Connecting(7, 8), [CallSync(Everyone()), FinishSubscribe]);
    TwoMoves(Waiting(ClaimedWorld(), 7, 8), CallSync(Everyone()), FinishSubscribe);
    MissesEverything();
  }

  lemma MissesEverything()
    ensures var link := Next(Next(Waiting(ClaimedWorld(), 7, 8), 2, CallSync(Everyone())), 2, FinishSubscribe);
            && 3 in Subs(link.queue) && HistoryOf(link.world, 3) == [STARTED, SPOKEN]
            && link.sent + link.queue.outgoing == [HelloFrame] + Listing(7) + HollowBatch(8, 3, 2)
            && ReadingOf(link, 3) == Reading(2, true, 0, [])
  {
    hide Next, Inv, ReadAll, HollowBatch;
    var here := Waiting(ClaimedWorld(), 7, 8);
    ClaimedIsSound();
    NothingReadYet(here);
    LeakHidesHistory(here, 2, 3, 8, Everyone());
    KeepsSent(here);
  }

  lemma NothingReadYet(link: Link)
    requires link.sent == [HelloFrame] + Listing(7) && link.queue.outgoing == [] && link.resume == map[]
    ensures ReadingOf(link, 3) == Reading(0, false, 0, [])
  {
    hide ReadAll;
    ReadSilent(Resumed(map[], 3), link.sent + link.queue.outgoing, 3);
  }

  lemma KeepsSent(link: Link)
    requires link.worker.Marked?
    ensures Next(Next(link, 2, CallSync(Everyone())), 2, FinishSubscribe).sent == link.sent
  {
    hide EmitStep, SubscribeStep, DiscoveryFrames, SyncSession, PortStep, CompleteSubscribe, Enqueue, Discovered;
  }
}
