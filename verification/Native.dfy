/** The native channel's delivery state: one bounded queue that the worker drains and the
    Bridge-facing Port fills, with live frames parked while a subscription is synchronising. */
module Native {
  import opened Core
  import opened Order
  import opened Routing
  import opened Bridges

  type RequestId = nat

  datatype SubscriptionStatus = SubscribedNow | CatchingUp | SubscribedBefore

  /** One server frame; encoding to text is injective and left implicit. */
  datatype Frame =
    | HelloFrame
    | DiscoveryStarted(discovery: RequestId, providerCount: nat, sessionCount: nat)
    | DiscoveryProvider(discovery: RequestId, provider: ProviderId)
    | DiscoverySession(discovery: RequestId, discovered: SessionId)
    | SubscriptionResult(request: RequestId, session: SessionId, status: SubscriptionStatus, baseline: Counter,
                         pendingCount: nat, eventCount: nat, reset: bool)
    | LiveEvent(event: AgentEvent, route: ChannelEventRoute)
    | LiveSession(view: AgentSession)
    | SubscriptionSession(request: RequestId, view: AgentSession)
    | SubscriptionInteraction(request: RequestId, interaction: RoutedInteraction)
    | SyncCompleted(request: RequestId)
    | UnsubscriptionResult(request: RequestId, session: SessionId, removed: bool)
    | ActionResult(action: RequestId)
    | ErrorFrame(failed: RequestId)

  datatype PendingSubscription = PendingSubscription(
    request: RequestId, session: SessionId, frames: seq<Frame>, trailing: seq<Frame>, synced: bool)

  datatype Client = Client(
    discovered: set<SessionId>, subscriptions: set<SessionId>, pending: Option<PendingSubscription>,
    cursors: map<SessionId, U64>)

  datatype Queue = Queue(client: Option<Client>, outgoing: seq<Frame>, aborted: bool, capacity: nat)
  {
    function PendingOf(): Option<PendingSubscription> {
      if client.Some? then client.value.pending else None
    }

    function SetPending(p: Option<PendingSubscription>): Queue
      requires client.Some?
    {
      this.(client := Some(client.value.(pending := p)))
    }
  }

  datatype PortError = NoActiveClient | SessionNotSubscribed | QueueFull

  datatype PortResult = Accepted | Refused(error: PortError)

  // ---------- state.rs ----------

  function QueuedLen(q: Queue): nat {
    |q.outgoing| + match q.PendingOf()
                   case None => 0
                   case Some(p) => |p.frames| + |p.trailing|
  }

  function Enqueue(q: Queue, frame: Frame): (Queue, bool) {
    if QueuedLen(q) >= q.capacity then (q.(aborted := true), false)
    else (q.(outgoing := q.outgoing + [frame]), true)
  }

  function EnqueueBatch(q: Queue, frames: seq<Frame>): (Queue, bool) {
    if QueuedLen(q) + |frames| > q.capacity then (q.(aborted := true), false)
    else (q.(outgoing := q.outgoing + frames), true)
  }

  function ClearConnection(q: Queue): Queue {
    Queue(None, [], false, q.capacity)
  }

  // ---------- port.rs ----------

  /** The frame a live message becomes; a first session view inside a synchronisation is its own kind. */
  function LiveFrame(q: Queue, message: Handoff): Frame
    requires message.EventHandoff? || message.SessionHandoff?
  {
    match message
    case EventHandoff(e, route) => LiveEvent(e, route)
    case SessionHandoff(view) =>
      var p := q.PendingOf();
      if p.Some? && p.value.session == view.id && p.value.frames == [] then
        SubscriptionSession(p.value.request, view)
      else LiveSession(view)
  }

  /** `NativeChannelPort::deliver`: parked while its session synchronises, queued otherwise. */
  function Deliver(q: Queue, session: SessionId, frame: Frame): (Queue, PortResult) {
    if q.client.None? then (q, Refused(NoActiveClient))
    else
      var p := q.client.value.pending;
      if p.Some? && p.value.session == session then
        if QueuedLen(q) >= q.capacity then (q.(aborted := true), Refused(QueueFull))
        else if p.value.synced then
          (q.SetPending(Some(p.value.(trailing := p.value.trailing + [frame]))), Accepted)
        else (q.SetPending(Some(p.value.(frames := p.value.frames + [frame]))), Accepted)
      else if session in q.client.value.subscriptions then
        var r := Enqueue(q, frame);
        (r.0, if r.1 then Accepted else Refused(QueueFull))
      else (q, Refused(SessionNotSubscribed))
  }

  function EventFrames(events: seq<RoutedEvent>): seq<Frame> {
    seq(|events|, i requires 0 <= i < |events| => LiveEvent(events[i].event, events[i].route))
  }

  function InteractionFrames(request: RequestId, pending: seq<RoutedInteraction>): seq<Frame> {
    seq(|pending|, i requires 0 <= i < |pending| => SubscriptionInteraction(request, pending[i]))
  }

  function BaselineFrames(request: RequestId, baseline: Baseline): seq<Frame> {
    [SubscriptionSession(request, baseline.session)] + InteractionFrames(request, baseline.pending)
  }

  function SyncFrames(request: RequestId, sync: Sync): seq<Frame> {
    EventFrames(sync.events) + if sync.baseline.Some? then BaselineFrames(request, sync.baseline.value) else []
  }

  function Park(q: Queue, frames: seq<Frame>): (Queue, PortResult)
    requires q.PendingOf().Some?
  {
    if QueuedLen(q) + |frames| > q.capacity then (q.(aborted := true), Refused(QueueFull))
    else
      var p := q.PendingOf().value;
      (q.SetPending(Some(p.(frames := p.frames + frames, synced := true))), Accepted)
  }

  /** `deliver_session_baseline`. */
  function DeliverBaseline(q: Queue, baseline: Baseline): (Queue, PortResult) {
    match q.PendingOf()
    case None => (q, Refused(NoActiveClient))
    case Some(p) =>
      if p.session != baseline.session.id then (q, Refused(SessionNotSubscribed))
      else Park(q, BaselineFrames(p.request, baseline))
  }

  /** `deliver_session_sync`. */
  function DeliverSync(q: Queue, sync: Sync): (Queue, PortResult) {
    match q.PendingOf()
    case None => (q, Refused(NoActiveClient))
    case Some(p) =>
      if exists i :: 0 <= i < |sync.events| && sync.events[i].event.sessionId != p.session then
        (q, Refused(SessionNotSubscribed))
      else Park(q, SyncFrames(p.request, sync))
  }

  /** The Port's answer to any handoff. */
  function PortStep(q: Queue, handoff: Handoff): (Queue, PortResult) {
    match handoff
    case EventHandoff(e, _) => Deliver(q, e.sessionId, LiveFrame(q, handoff))
    case SessionHandoff(view) => Deliver(q, view.id, LiveFrame(q, handoff))
    case BaselineHandoff(baseline) => DeliverBaseline(q, baseline)
    case SyncHandoff(sync) => DeliverSync(q, sync)
  }

  // ---------- runtime.rs: the critical sections of the worker ----------

  /** The new connection of `process_hello`. */
  function Open(q: Queue, cursors: map<SessionId, U64>): Queue {
    ClearConnection(q).(client := Some(Client({}, {}, None, cursors)))
  }

  function ProviderFrames(request: RequestId, ids: seq<ProviderId>): seq<Frame> {
    seq(|ids|, i requires 0 <= i < |ids| => DiscoveryProvider(request, ids[i]))
  }

  function SessionFrames(request: RequestId, ids: seq<SessionId>): seq<Frame> {
    seq(|ids|, i requires 0 <= i < |ids| => DiscoverySession(request, ids[i]))
  }

  /** The frames of `process_discover` for one snapshot: every Provider and every session, in order. */
  function DiscoveryFrames(b: Bridge, request: RequestId): seq<Frame> {
    [DiscoveryStarted(request, |b.providers|, |b.sessions|)]
    + ProviderFrames(request, Ascending(b.providers.Keys))
    + SessionFrames(request, Ascending(b.sessions.Keys))
    + [SyncCompleted(request)]
  }

  /** The last critical section of `process_discover`. */
  function Discovered(q: Queue, ids: set<SessionId>, frames: seq<Frame>): (Queue, bool)
    requires q.client.Some?
  {
    var r := EnqueueBatch(q, frames);
    if r.1 then (r.0.(client := Some(r.0.client.value.(discovered := ids))), true) else r
  }

  datatype SubscribeStart = RejectSubscribe | AnswerAtOnce(ok: bool) | StartSync

  /** The first critical section of `process_subscribe`. */
  function BeginSubscribe(q: Queue, request: RequestId, session: SessionId): (Queue, SubscribeStart)
    requires q.client.Some?
  {
    var c := q.client.value;
    if session !in c.discovered || c.pending.Some? then (q, RejectSubscribe)
    else if session in c.subscriptions then
      if session !in c.cursors || c.cursors[session] == 0 then (q, RejectSubscribe)
      else
        var r := Enqueue(q, SubscriptionResult(request, session, SubscribedBefore, c.cursors[session], 0, 0, false));
        (r.0, AnswerAtOnce(r.1))
    else (q.SetPending(Some(PendingSubscription(request, session, [], [], false))), StartSync)
  }

  /** The frames of the last critical section of `process_subscribe`. */
  function SyncBatch(p: PendingSubscription, outcome: SyncOutcome): seq<Frame>
    requires outcome.through > 0
  {
    [SubscriptionResult(p.request, p.session, if outcome.subscribed then SubscribedNow else CatchingUp,
                        outcome.through, outcome.pendingCount, outcome.eventCount, outcome.reset)]
    + p.frames + [SyncCompleted(p.request)] + p.trailing
  }

  /** The last critical section of `process_subscribe`: takes the parked frames and publishes the batch. */
  function CompleteSubscribe(q: Queue, outcome: SyncOutcome): (Queue, bool)
    requires q.PendingOf().Some? && outcome.through > 0
  {
    var p := q.PendingOf().value;
    var r := EnqueueBatch(q.SetPending(None), SyncBatch(p, outcome));
    if !r.1 then r
    else
      var c := r.0.client.value;
      (r.0.(client := Some(c.(cursors := c.cursors[p.session := outcome.through],
                              subscriptions := if outcome.subscribed then c.subscriptions + {p.session}
                                               else c.subscriptions))), true)
  }

  /** The critical section of `process_unsubscribe`, after the Bridge removed the subscription. */
  function Forget(q: Queue, session: SessionId): Queue {
    if q.client.None? then q
    else q.(client := Some(q.client.value.(subscriptions := q.client.value.subscriptions - {session})))
  }

  // ---------- The shared object ----------

  /** `DeliveryState` behind its mutex: each method is one critical section of the worker or the Port. */
  class DeliveryState {
    var client: Option<Client>
    var outgoing: seq<Frame>
    var aborted: bool
    const capacity: nat

    ghost function Value(): Queue
      reads this
    {
      Queue(client, outgoing, aborted, capacity)
    }

    constructor (capacity: nat)
      ensures Value() == Queue(None, [], false, capacity)
    {
      this.capacity := capacity;
      client, outgoing, aborted := None, [], false;
    }

    method QueuedLength() returns (n: nat)
      ensures n == QueuedLen(Value())
    {
      n := |outgoing|;
      if client.Some? && client.value.pending.Some? {
        n := n + |client.value.pending.value.frames| + |client.value.pending.value.trailing|;
      }
    }

    method Push(frame: Frame) returns (ok: bool)
      modifies this
      ensures (Value(), ok) == Enqueue(old(Value()), frame)
    {
      var queued := QueuedLength();
      if queued >= capacity {
        aborted := true;
        return false;
      }
      outgoing := outgoing + [frame];
      ok := true;
    }

    method PushBatch(frames: seq<Frame>) returns (ok: bool)
      modifies this
      ensures (Value(), ok) == EnqueueBatch(old(Value()), frames)
    {
      var queued := QueuedLength();
      if queued + |frames| > capacity {
        aborted := true;
        return false;
      }
      outgoing := outgoing + frames;
      ok := true;
    }

    method Clear()
      modifies this
      ensures Value() == ClearConnection(old(Value()))
    {
      client, outgoing, aborted := None, [], false;
    }

    /** The previous connection is cleared before the new client is installed. */
    method Connect(cursors: map<SessionId, U64>)
      modifies this
      ensures Value() == Open(old(Value()), cursors)
    {
      Clear();
      client := Some(Client({}, {}, None, cursors));
    }

    /** The discovered sessions replace the earlier ones only when the whole batch fits. */
    method Announce(ids: set<SessionId>, frames: seq<Frame>) returns (ok: bool)
      requires client.Some?
      modifies this
      ensures (Value(), ok) == Discovered(old(Value()), ids, frames)
    {
      ok := PushBatch(frames);
      if ok {
        client := Some(client.value.(discovered := ids));
      }
    }

    method Leave(session: SessionId)
      modifies this
      ensures Value() == Forget(old(Value()), session)
    {
      if client.Some? {
        client := Some(client.value.(subscriptions := client.value.subscriptions - {session}));
      }
    }

    /** One live event or session view from the Bridge. */
    method DeliverLive(message: Handoff) returns (r: PortResult)
      requires message.EventHandoff? || message.SessionHandoff?
      modifies this
      ensures (Value(), r) == PortStep(old(Value()), message)
    {
      if client.None? {
        return Refused(NoActiveClient);
      }
      var session := if message.EventHandoff? then message.event.sessionId else message.session.id;
      var c := client.value;
      var parked := c.pending.Some? && c.pending.value.session == session;
      if !parked && session !in c.subscriptions {
        return Refused(SessionNotSubscribed);
      }
      var frame: Frame;
      if message.EventHandoff? {
        frame := LiveEvent(message.event, message.route);
      } else if parked && c.pending.value.frames == [] {
        frame := SubscriptionSession(c.pending.value.request, message.session);
      } else {
        frame := LiveSession(message.session);
      }
      if parked {
        var queued := QueuedLength();
        if queued >= capacity {
          aborted := true;
          return Refused(QueueFull);
        }
        var p := c.pending.value;
        if p.synced {
          p := p.(trailing := p.trailing + [frame]);
        } else {
          p := p.(frames := p.frames + [frame]);
        }
        client := Some(c.(pending := Some(p)));
      } else {
        var ok := Push(frame);
        if !ok {
          return Refused(QueueFull);
        }
      }
      r := Accepted;
    }

    /** One synchronisation message from the Bridge; its frames are built one by one. */
    method DeliverSession(sync: Sync) returns (r: PortResult)
      modifies this
      ensures (Value(), r) == DeliverSync(old(Value()), sync)
    {
      if client.None? || client.value.pending.None? {
        return Refused(NoActiveClient);
      }
      var p := client.value.pending.value;
      var frames: seq<Frame> := [];
      for i := 0 to |sync.events|
        invariant frames == EventFrames(sync.events[..i])
        invariant forall k :: 0 <= k < i ==> sync.events[k].event.sessionId == p.session
      {
        if sync.events[i].event.sessionId != p.session {
          return Refused(SessionNotSubscribed);
        }
        frames := frames + [LiveEvent(sync.events[i].event, sync.events[i].route)];
      }
      assert sync.events[..|sync.events|] == sync.events;
      if sync.baseline.Some? {
        var baseline := sync.baseline.value;
        frames := frames + [SubscriptionSession(p.request, baseline.session)];
        ghost var head := frames;
        for i := 0 to |baseline.pending|
          invariant frames == head + InteractionFrames(p.request, baseline.pending[..i])
        {
          frames := frames + [SubscriptionInteraction(p.request, baseline.pending[i])];
        }
        assert baseline.pending[..|baseline.pending|] == baseline.pending;
      }
      assert frames == SyncFrames(p.request, sync);
      var queued := QueuedLength();
      if queued + |frames| > capacity {
        aborted := true;
        return Refused(QueueFull);
      }
      client := Some(client.value.(pending := Some(p.(frames := p.frames + frames, synced := true))));
      r := Accepted;
    }

    method Begin(request: RequestId, session: SessionId) returns (start: SubscribeStart)
      requires client.Some?
      modifies this
      ensures (Value(), start) == BeginSubscribe(old(Value()), request, session)
    {
      var c := client.value;
      if session !in c.discovered || c.pending.Some? {
        return RejectSubscribe;
      }
      if session in c.subscriptions {
        if session !in c.cursors || c.cursors[session] == 0 {
          return RejectSubscribe;
        }
        var ok := Push(SubscriptionResult(request, session, SubscribedBefore, c.cursors[session], 0, 0, false));
        return AnswerAtOnce(ok);
      }
      client := Some(c.(pending := Some(PendingSubscription(request, session, [], [], false))));
      start := StartSync;
    }

    /** Result frame, parked frames, completion frame, raced live frames: one atomic batch. */
    method Complete(outcome: SyncOutcome) returns (ok: bool)
      requires client.Some? && client.value.pending.Some? && outcome.through > 0
      modifies this
      ensures (Value(), ok) == CompleteSubscribe(old(Value()), outcome)
    {
      var p := client.value.pending.value;
      client := Some(client.value.(pending := None));
      var status := if outcome.subscribed then SubscribedNow else CatchingUp;
      var frames := [SubscriptionResult(p.request, p.session, status, outcome.through, outcome.pendingCount,
                                        outcome.eventCount, outcome.reset)];
      frames := frames + p.frames;
      frames := frames + [SyncCompleted(p.request)];
      frames := frames + p.trailing;
      ok := PushBatch(frames);
      if !ok {
        return;
      }
      var c := client.value;
      client := Some(c.(cursors := c.cursors[p.session := outcome.through]));
      if outcome.subscribed {
        client := Some(client.value.(subscriptions := client.value.subscriptions + {p.session}));
      }
    }
  }
}
