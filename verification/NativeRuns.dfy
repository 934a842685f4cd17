/** Runs of the native channel against the Bridge: the worker's critical sections interleave with
    publications from any Provider and with the operations of every other Channel. */
module NativeRuns {
  import opened Core
  import opened Bridges
  import opened BridgeFacts
  import opened BridgeRuns
  import opened Native

  const PAGE_EVENTS: nat := 128

  /** Where the worker stands between two critical sections. */
  datatype Worker =
    | Ready
    | Answering(frame: Frame, required: bool)
    | Discovering(ids: set<SessionId>, frames: seq<Frame>)
    | Marked(request: RequestId, session: SessionId)
    | SyncFailed(request: RequestId, session: SessionId)
    | Synced(request: RequestId, session: SessionId, outcome: SyncOutcome, sync: Sync, since: nat)
    | Leaving(request: RequestId, session: SessionId, removed: bool)
    | Closing(rest: set<SessionId>)

  /** The Bridge, the shared delivery state, the worker, the frames sent on the current connection, and
      the cursors its client resumed with. */
  datatype Link = Link(world: World, queue: Queue, worker: Worker, sent: seq<Frame>, resume: map<SessionId, U64>)

  datatype Move =
    | Elsewhere(op: Op)
    | Emit(from: ProviderId, event: AgentEvent, others: Ports)
    | Accept(cursors: map<SessionId, U64>)
    | TakeSnapshot(discover: RequestId)
    | PublishDiscovery
    | AskSubscribe(request: RequestId, session: SessionId)
    | CallSync(otherPorts: Ports)
    | ReportSyncFailure
    | FinishSubscribe
    | AskUnsubscribe(request: RequestId, session: SessionId)
    | ForgetSubscription
    | AskAction(request: RequestId, handled: bool)
    | Answer
    | StartClose
    | CloseOne(closing: SessionId)
    | FinishClose
    | Drain
  {
    /** Events come from the validating constructor. */
    ghost predicate Legal() {
      && (Emit? ==> event.Constructible())
      && (Elsewhere? ==> op.Legal())
    }
  }

  // ---------- The Port inside one Bridge operation ----------

  ghost predicate Reaches(q: Queue, session: SessionId) {
    && q.client.Some?
    && (session in q.client.value.subscriptions
        || (q.client.value.pending.Some? && q.client.value.pending.value.session == session))
  }

  /** The Port's verdicts while one event is fanned out: the event first, then perhaps the view. */
  ghost function LiveVerdict(q: Queue, handoff: Handoff): bool {
    match handoff
    case EventHandoff(e, _) => Reaches(q, e.sessionId) && QueuedLen(q) < q.capacity
    case SessionHandoff(view) => Reaches(q, view.id) && QueuedLen(q) + 1 < q.capacity
    case _ => false
  }

  ghost function EmitPorts(q: Queue, n: ChannelId, others: Ports): Ports {
    (c: ChannelId, handoff: Handoff) => if c == n then LiveVerdict(q, handoff) else others(c, handoff)
  }

  ghost function SyncPorts(q: Queue, n: ChannelId, others: Ports): Ports {
    (c: ChannelId, handoff: Handoff) => if c == n then PortStep(q, handoff).1 == Accepted else others(c, handoff)
  }

  /** The handoffs of one Channel, in order. */
  ghost function Mine(notes: seq<Note>, n: ChannelId): seq<Note> {
    if notes == [] then []
    else
      var k := |notes| - 1;
      Mine(notes[..k], n) + if notes[k].Delivery? && notes[k].channel == n then [notes[k]] else []
  }

  /** The queue after the Port answered those handoffs. */
  ghost function PortRun(q: Queue, notes: seq<Note>): Queue
    requires forall i :: 0 <= i < |notes| ==> notes[i].Delivery?
  {
    if notes == [] then q
    else PortStep(PortRun(q, notes[..|notes| - 1]), notes[|notes| - 1].handoff).0
  }

  lemma {:induction false} MineAreDeliveries(notes: seq<Note>, n: ChannelId)
    ensures forall i :: 0 <= i < |Mine(notes, n)| ==> Mine(notes, n)[i].Delivery? && Mine(notes, n)[i].channel == n
  {
    if notes != [] {
      MineAreDeliveries(notes[..|notes| - 1], n);
    }
  }

  lemma {:induction false} MineConcat(a: seq<Note>, b: seq<Note>, n: ChannelId)
    ensures Mine(a + b, n) == Mine(a, n) + Mine(b, n)
    decreases |b|
  {
    if b == [] {
      assert a + b == a;
    } else {
      MineConcat(a, b[..|b| - 1], n);
      assert (a + b)[..|a + b| - 1] == a + b[..|b| - 1];
    }
  }

  lemma MineOfDeliverTo(p: PlannedRoute, e: AgentEvent, view: AgentSession, ports: Ports, n: ChannelId)
    ensures var notes := DeliverTo(p, e, view, ports).1;
            Mine(notes, n) == if p.channel == n then notes else []
  {
    var notes := DeliverTo(p, e, view, ports).1;
    assert notes[..1][..0] == [];
    if |notes| == 2 {
      assert notes[..1] == [notes[0]];
      assert Mine(notes[..1], n) == if p.channel == n then [notes[0]] else [];
    }
  }

  ghost predicate Avoids(plan: seq<PlannedRoute>, n: ChannelId) {
    forall i :: 0 <= i < |plan| ==> plan[i].channel != n
  }

  /** In a fan-out a Channel receives its own handoffs and nothing else. */
  lemma {:induction false} MineOfFanOut(plan: seq<PlannedRoute>, e: AgentEvent, view: AgentSession, ports: Ports,
                                        n: ChannelId)
    requires forall i, j :: 0 <= i < j < |plan| ==> plan[i].channel != plan[j].channel
    ensures Avoids(plan, n) ==> Mine(FanOut(plan, e, view, ports).1, n) == []
    ensures forall i :: 0 <= i < |plan| && plan[i].channel == n ==>
              Mine(FanOut(plan, e, view, ports).1, n) == DeliverTo(plan[i], e, view, ports).1
  {
    hide DeliverTo;
    if plan != [] {
      var k := |plan| - 1;
      var earlier, last := FanOut(plan[..k], e, view, ports).1, DeliverTo(plan[k], e, view, ports).1;
      MineOfFanOut(plan[..k], e, view, ports, n);
      MineConcat(earlier, last, n);
      MineOfDeliverTo(plan[k], e, view, ports, n);
      assert Avoids(plan, n) ==> Avoids(plan[..k], n);
      if plan[k].channel == n {
        assert Avoids(plan[..k], n);
      }
      forall i | 0 <= i < |plan| && plan[i].channel == n
        ensures Mine(FanOut(plan, e, view, ports).1, n) == DeliverTo(plan[i], e, view, ports).1
      {
        if i < k {
          assert plan[..k][i] == plan[i];
        }
      }
    }
  }

  // ---------- Steps ----------

  /** Operations that are neither publications nor made through the native channel. */
  ghost predicate OtherChannel(op: Op, n: ChannelId) {
    match op
    case AddProvider(_) => true
    case AddChannel(_) => true
    case Publish(_, _, _) => false
    case RequestPage(c, _, _, _, _) => c != n
    case RequestLive(c, _, _) => c != n
    case Leave(c, _) => c != n
    case LeaveAll(c) => c != n
  }

  ghost function Subs(q: Queue): set<SessionId> {
    if q.client.Some? then q.client.value.subscriptions else {}
  }

  /** A critical section that failed fatally: the worker goes on to disconnect. */
  ghost function Fatal(link: Link): Link {
    link.(worker := Closing(Subs(link.queue)))
  }

  ghost function AfterCursor(q: Queue, session: SessionId): U64 {
    if q.client.Some? && session in q.client.value.cursors then q.client.value.cursors[session] else 0
  }

  ghost function EmitNotes(link: Link, n: ChannelId, from: ProviderId, e: AgentEvent, others: Ports): seq<Note> {
    HandleProviderEvent(link.world.bridge, from, e, EmitPorts(link.queue, n, others)).notes
  }

  ghost function EmitStep(link: Link, n: ChannelId, from: ProviderId, e: AgentEvent, others: Ports): Link {
    MineAreDeliveries(EmitNotes(link, n, from, e, others), n);
    link.(world := Step(link.world, Publish(from, e, EmitPorts(link.queue, n, others))),
          queue := PortRun(link.queue, Mine(EmitNotes(link, n, from, e, others), n)))
  }

  ghost function CallSyncStep(link: Link, n: ChannelId, others: Ports): Link
    requires link.worker.Marked?
  {
    var session := link.worker.session;
    var after := AfterCursor(link.queue, session);
    var ports := SyncPorts(link.queue, n, others);
    var r := SyncSession(link.world.bridge, n, session, after, PAGE_EVENTS, ports);
    var world := Step(link.world, RequestPage(n, session, after, PAGE_EVENTS, ports));
    var handed := r.notes != [] && r.notes[0].Delivery? && r.notes[0].handoff.SyncHandoff?;
    var queue := if handed then PortStep(link.queue, r.notes[0].handoff).0 else link.queue;
    if r.result.Err? then Link(world, queue, SyncFailed(link.worker.request, session), link.sent, link.resume)
    else
      var sync := if handed then r.notes[0].handoff.sync else Sync(after, r.result.value.through, false, [], None);
      Link(world, queue, Synced(link.worker.request, session, r.result.value, sync, |world.notes|), link.sent,
           link.resume)
  }

  ghost function SubscribeStep(link: Link, request: RequestId, session: SessionId): Link
    requires link.queue.client.Some?
  {
    var r := BeginSubscribe(link.queue, request, session);
    match r.1
    case RejectSubscribe => link.(worker := Answering(ErrorFrame(request), false))
    case AnswerAtOnce(ok) => if ok then link.(queue := r.0) else Fatal(link.(queue := r.0))
    case StartSync => link.(queue := r.0, worker := Marked(request, session))
  }

  ghost predicate Overflows(link: Link) {
    link.worker.Synced? && QueuedLen(link.queue) + 2 > link.queue.capacity
  }

  ghost function Next(link: Link, n: ChannelId, move: Move): Link {
    var q := link.queue;
    match move
    case Elsewhere(op) => if OtherChannel(op, n) then link.(world := Step(link.world, op)) else link
    case Emit(from, e, others) => EmitStep(link, n, from, e, others)
    case Accept(cursors) =>
      if link.worker != Ready || q.client.Some? then link
      else link.(queue := Open(q, cursors), worker := Answering(HelloFrame, true), sent := [], resume := cursors)
    case TakeSnapshot(request) =>
      if link.worker != Ready || q.client.None? then link
      else link.(worker := Discovering(link.world.bridge.sessions.Keys, DiscoveryFrames(link.world.bridge, request)))
    case PublishDiscovery =>
      if !link.worker.Discovering? || q.client.None? then link
      else
        var r := Discovered(q, link.worker.ids, link.worker.frames);
        if r.1 then link.(queue := r.0, worker := Ready) else Fatal(link.(queue := r.0))
    case AskSubscribe(request, session) =>
      if link.worker != Ready || q.client.None? then link else SubscribeStep(link, request, session)
    case CallSync(others) => if link.worker.Marked? then CallSyncStep(link, n, others) else link
    case ReportSyncFailure =>
      if !link.worker.SyncFailed? || q.client.None? then link
      else link.(queue := q.SetPending(None), worker := Answering(ErrorFrame(link.worker.request), false))
    case FinishSubscribe =>
      if !link.worker.Synced? || q.PendingOf().None? || link.worker.outcome.through == 0 then link
      else
        var r := CompleteSubscribe(q, link.worker.outcome);
        if r.1 then link.(queue := r.0, worker := Ready) else Fatal(link.(queue := r.0))
    case AskUnsubscribe(request, session) =>
      if link.worker != Ready || q.client.None? then link
      else
        var r := Unsubscribe(link.world.bridge, n, session);
        if r.result.Err? then link.(worker := Answering(ErrorFrame(request), false))
        else link.(world := Step(link.world, Leave(n, session)), worker := Leaving(request, session, r.result.value))
    case ForgetSubscription =>
      if !link.worker.Leaving? then link
      else
        var w := link.worker;
        link.(queue := Forget(q, w.session),
              worker := Answering(UnsubscriptionResult(w.request, w.session, w.removed), true))
    case AskAction(request, handled) =>
      if link.worker != Ready || q.client.None? then link
      else link.(worker := if handled then Answering(ActionResult(request), true)
                           else Answering(ErrorFrame(request), false))
    case Answer =>
      if !link.worker.Answering? then link
      else
        var r := Enqueue(q, link.worker.frame);
        if r.1 || !link.worker.required then link.(queue := r.0, worker := Ready)
        else Fatal(link.(queue := r.0))
    case StartClose => if link.worker == Ready then Fatal(link) else link
    case CloseOne(session) =>
      if !link.worker.Closing? || session !in link.worker.rest then link
      else link.(world := Step(link.world, Leave(n, session)), worker := Closing(link.worker.rest - {session}))
    case FinishClose =>
      if link.worker != Closing({}) then link
      else link.(queue := ClearConnection(q), worker := Ready)
    case Drain =>
      if link.worker != Ready || q.outgoing == [] then link
      else link.(queue := q.(outgoing := q.outgoing[1..]), sent := link.sent + [q.outgoing[0]])
  }

  // ---------- What the client reads ----------

  /** The frames live handoffs about `session` become while its subscription synchronises. */
  ghost function RacedFrames(notes: seq<Note>, session: SessionId): seq<Frame> {
    if notes == [] then []
    else
      var k := |notes| - 1;
      var earlier := RacedFrames(notes[..k], session);
      if notes[k].SubscribedAt? || notes[k].about != session || !notes[k].accepted then earlier
      else match notes[k].handoff
        case EventHandoff(e, route) => earlier + [LiveEvent(e, route)]
        case SessionHandoff(view) => earlier + [LiveSession(view)]
        case BaselineHandoff(_) => earlier
        case SyncHandoff(_) => earlier
  }

  ghost function LiveEvents(frames: seq<Frame>): seq<AgentEvent> {
    if frames == [] then []
    else
      var k := |frames| - 1;
      LiveEvents(frames[..k]) + if frames[k].LiveEvent? then [frames[k].event] else []
  }

  /** What a client knows of one session on this connection: the cursor it would pass back, whether a
      subscription is under way, where that one started, and the events read since. */
  datatype Reading = Reading(cursor: nat, open: bool, start: nat, events: seq<AgentEvent>)

  /** The first page of a subscription starts at the client's own cursor; later pages append, unless a
      page is marked as a reset. Every page moves the cursor to its end; an unsubscription ends it. */
  ghost function Read(v: Reading, frame: Frame, session: SessionId): Reading {
    if frame.SubscriptionResult? && frame.session == session && frame.status != SubscribedBefore then
      if v.open && !frame.reset then v.(cursor := frame.baseline)
      else Reading(frame.baseline, true, if frame.reset then 0 else v.cursor, [])
    else if frame.UnsubscriptionResult? && frame.session == session then v.(open := false)
    else if frame.LiveEvent? && frame.event.sessionId == session then v.(events := v.events + [frame.event])
    else v
  }

  ghost function ReadAll(v: Reading, frames: seq<Frame>, session: SessionId): Reading {
    if frames == [] then v else Read(ReadAll(v, frames[..|frames| - 1], session), frames[|frames| - 1], session)
  }

  ghost function Resumed(resume: map<SessionId, U64>, session: SessionId): Reading {
    Reading(if session in resume then resume[session] else 0, false, 0, [])
  }

  /** The client's knowledge once it has read all frames sent or queued on the current connection. */
  ghost function ReadingOf(link: Link, session: SessionId): Reading {
    ReadAll(Resumed(link.resume, session), link.sent + link.queue.outgoing, session)
  }

  // ---------- The invariant ----------

  /** The subscriptions the Bridge should hold for the native channel. */
  ghost function Expected(link: Link): set<SessionId> {
    match link.worker
    case Synced(_, session, outcome, _, _) => Subs(link.queue) + if outcome.subscribed then {session} else {}
    case Leaving(_, session, _) => Subs(link.queue) - {session}
    case Closing(rest) => rest
    case _ => Subs(link.queue)
  }

  ghost predicate Agreement(link: Link, n: ChannelId) {
    forall s :: link.world.bridge.IsSubscribed(n, s) <==> s in Expected(link)
  }

  ghost predicate Describes(outcome: SyncOutcome, sync: Sync) {
    && outcome.through == sync.through && outcome.through > 0
    && outcome.eventCount == |sync.events| && outcome.reset == sync.reset
    && outcome.subscribed == sync.baseline.Some?
    && outcome.pendingCount == if sync.baseline.Some? then |sync.baseline.value.pending| else 0
  }

  /** The page is a slice of the session's history. */
  ghost predicate Paged(h: seq<AgentEvent>, session: SessionId, sync: Sync) {
    && sync.after + |sync.events| == sync.through <= |h|
    && EventsOf(sync.events) == h[sync.after..sync.through]
    && forall i :: 0 <= i < |sync.events| ==> sync.events[i].event.sessionId == session
  }

  /** Frames that neither begin nor end a subscription and whose events all belong to one session. */
  ghost predicate Concerns(frames: seq<Frame>, session: SessionId) {
    forall i :: 0 <= i < |frames| ==>
      !frames[i].SubscriptionResult? && !frames[i].UnsubscriptionResult?
      && (frames[i].LiveEvent? ==> frames[i].event.sessionId == session)
  }

  /** After the page was delivered the parked frames are exactly the page, and the trailing ones are
      exactly the live frames that raced it: the rest of the history. */
  ghost predicate SyncedShape(link: Link, n: ChannelId)
    requires link.worker.Synced?
  {
    var q, w, h := link.queue, link.worker, HistoryOf(link.world, link.worker.session);
    && q.client.Some? && w.session !in Subs(q)
    && Describes(w.outcome, w.sync) && Paged(h, w.session, w.sync) && SyncFrames(w.request, w.sync) != []
    && w.sync.after == (if w.sync.reset then 0 else AfterCursor(q, w.session))
    && w.since <= |link.world.notes|
    && var trailing := RacedFrames(Mine(link.world.notes[w.since..], n), w.session);
       && q.PendingOf() ==
          Some(PendingSubscription(w.request, w.session, SyncFrames(w.request, w.sync), trailing, true))
       && Concerns(trailing, w.session)
       && (if w.outcome.subscribed then q.aborted || LiveEvents(trailing) == h[w.sync.through..] else trailing == [])
  }

  ghost predicate ControlFrame(frame: Frame) {
    frame.HelloFrame? || frame.ErrorFrame? || frame.UnsubscriptionResult? || frame.ActionResult?
  }

  ghost predicate Shape(link: Link, n: ChannelId) {
    var q := link.queue;
    match link.worker
    case Ready => q.PendingOf().None?
    case Answering(frame, required) =>
      && q.PendingOf().None? && ControlFrame(frame)
      && (frame.UnsubscriptionResult? ==> required && frame.session !in Subs(q))
    case Discovering(_, frames) => q.PendingOf().None? && Silent(frames)
    case Leaving(_, _, _) => q.PendingOf().None?
    case Closing(rest) => q.PendingOf().None? && rest <= Subs(q)
    case Marked(request, session) =>
      && session !in Subs(q)
      && q.PendingOf() == Some(PendingSubscription(request, session, [], [], false))
    case SyncFailed(request, session) =>
      && session !in Subs(q)
      && q.PendingOf() == Some(PendingSubscription(request, session, [], [], false))
    case Synced(_, _, _, _, _) => SyncedShape(link, n)
  }

  /** Frames that neither begin nor end a subscription and carry no event. */
  ghost predicate Silent(frames: seq<Frame>) {
    forall i :: 0 <= i < |frames| ==>
      !frames[i].LiveEvent? && !frames[i].UnsubscriptionResult?
      && (frames[i].SubscriptionResult? ==> frames[i].status == SubscribedBefore)
  }

  /** The session is not subscribed, and the worker is neither reporting that nor disconnecting. */
  ghost predicate Settled(link: Link, session: SessionId) {
    && session !in Subs(link.queue) && !link.worker.Closing?
    && !(link.worker.Answering? && link.worker.frame.UnsubscriptionResult? && link.worker.frame.session == session)
  }

  /** The client's cursor is the one the worker stores. Between pages, all events read since the
      subscription started are the history from its start to that cursor. Once subscribed, and unless a
      frame was refused, they are the history from its start to the head: nothing missing, nothing
      twice, nothing out of order, across pages and live frames alike. */
  ghost predicate ContinuousFor(link: Link, session: SessionId) {
    var v, h := ReadingOf(link, session), HistoryOf(link.world, session);
    && v.cursor == AfterCursor(link.queue, session)
    && (Settled(link, session) && v.open ==> v.start <= v.cursor <= |h| && v.events == h[v.start..v.cursor])
    && (!link.queue.aborted && session in Expected(link) && session in Subs(link.queue) ==>
          v.open && v.start <= |h| && v.events == h[v.start..])
  }

  ghost predicate Continuous(link: Link) {
    link.queue.client.Some? ==> forall s :: ContinuousFor(link, s)
  }

  ghost predicate NativeInv(link: Link, n: ChannelId) {
    && Inv(link.world) && n in link.world.bridge.channels
    && Shape(link, n) && Agreement(link, n) && Continuous(link)
  }
}
