/** What the native channel keeps over whole runs: the Bridge and the connection agree on the
    subscriptions, every synchronisation batch is well formed, and the client's stream is continuous. */
module NativeGuarantees {
  import opened Core
  import opened Order
  import opened Routing
  import opened Aggregates
  import opened History
  import opened Bridges
  import opened BridgeFacts
  import opened BridgeRuns
  import opened Native
  import opened NativeRuns

  // ---------- Reading frames ----------

  lemma {:induction false} ReadConcat(v: Reading, a: seq<Frame>, b: seq<Frame>, s: SessionId)
    ensures ReadAll(v, a + b, s) == ReadAll(ReadAll(v, a, s), b, s)
    decreases |b|
  {
    hide Read;
    if b == [] {
      assert a + b == a;
    } else {
      ReadConcat(v, a, b[..|b| - 1], s);
      assert (a + b)[..|a + b| - 1] == a + b[..|b| - 1];
    }
  }

  lemma {:induction false} LiveEventsConcat(a: seq<Frame>, b: seq<Frame>)
    ensures LiveEvents(a + b) == LiveEvents(a) + LiveEvents(b)
    decreases |b|
  {
    if b == [] {
      assert a + b == a;
    } else {
      LiveEventsConcat(a, b[..|b| - 1]);
      assert (a + b)[..|a + b| - 1] == a + b[..|b| - 1];
    }
  }

  /** Frames about one session add their events to what is read of it, and nothing to any other. */
  lemma {:induction false} ReadConcerned(v: Reading, frames: seq<Frame>, about: SessionId, s: SessionId)
    requires Concerns(frames, about)
    ensures ReadAll(v, frames, s) == if s == about then v.(events := v.events + LiveEvents(frames)) else v
  {
    if frames != [] {
      ReadConcerned(v, frames[..|frames| - 1], about, s);
    }
  }

  lemma {:induction false} ReadSilent(v: Reading, frames: seq<Frame>, s: SessionId)
    requires Silent(frames)
    ensures ReadAll(v, frames, s) == v
  {
    if frames != [] {
      ReadSilent(v, frames[..|frames| - 1], s);
    }
  }

  lemma {:induction false} EventFramesCarryEvents(events: seq<RoutedEvent>)
    ensures LiveEvents(EventFrames(events)) == EventsOf(events)
  {
    if events == [] {
      assert EventFrames(events) == [];
    } else {
      var k := |events| - 1;
      EventFramesCarryEvents(events[..k]);
      assert EventFrames(events)[..k] == EventFrames(events[..k]);
      assert EventsOf(events) == EventsOf(events[..k]) + [events[k].event];
    }
  }

  lemma {:induction false} NoEventsInside(frames: seq<Frame>)
    requires forall i :: 0 <= i < |frames| ==> !frames[i].LiveEvent?
    ensures LiveEvents(frames) == []
  {
    if frames != [] {
      NoEventsInside(frames[..|frames| - 1]);
    }
  }

  lemma {:induction false} RacedConcat(a: seq<Note>, b: seq<Note>, s: SessionId)
    ensures RacedFrames(a + b, s) == RacedFrames(a, s) + RacedFrames(b, s)
    decreases |b|
  {
    if b == [] {
      assert a + b == a;
    } else {
      RacedConcat(a, b[..|b| - 1], s);
      assert (a + b)[..|a + b| - 1] == a + b[..|b| - 1];
    }
  }

  // ---------- One publication as the Port sees it ----------

  /** A live message about `s` finds its place: queued, or parked behind a delivered page. */
  ghost predicate LiveReady(q: Queue, s: SessionId) {
    && Reaches(q, s)
    && (q.PendingOf().Some? && q.PendingOf().value.session == s ==>
          q.PendingOf().value.synced && q.PendingOf().value.frames != [])
  }

  ghost function Grow(q: Queue, s: SessionId, frames: seq<Frame>): Queue {
    if q.PendingOf().Some? && q.PendingOf().value.session == s then
      q.SetPending(Some(q.PendingOf().value.(trailing := q.PendingOf().value.trailing + frames)))
    else q.(outgoing := q.outgoing + frames)
  }

  /** The Port's answer to a live message that finds its place. */
  lemma Offer(q: Queue, message: Handoff, s: SessionId, frame: Frame)
    requires LiveReady(q, s)
    requires match message
             case EventHandoff(e, route) => e.sessionId == s && frame == LiveEvent(e, route)
             case SessionHandoff(view) => view.id == s && frame == LiveSession(view)
             case _ => false
    ensures PortStep(q, message) == if QueuedLen(q) >= q.capacity then (q.(aborted := true), Refused(QueueFull))
                                    else (Grow(q, s, [frame]), Accepted)
    ensures QueuedLen(Grow(q, s, [frame])) == QueuedLen(q) + 1 && LiveReady(Grow(q, s, [frame]), s)
    ensures Grow(q, s, [frame]).capacity == q.capacity && Grow(q, s, [frame]).aborted == q.aborted
  {
  }

  lemma GrowTwice(q: Queue, s: SessionId, a: seq<Frame>, b: seq<Frame>)
    requires LiveReady(q, s)
    ensures Grow(Grow(q, s, a), s, b) == Grow(q, s, a + b)
    ensures Grow(q, s, []) == q
  {
    assert q.outgoing + [] == q.outgoing;
    assert (q.outgoing + a) + b == q.outgoing + (a + b);
    if q.PendingOf().Some? {
      var t := q.PendingOf().value.trailing;
      assert t + [] == t && (t + a) + b == t + (a + b);
    }
  }

  lemma OneFrame(q: Queue, note: Note)
    requires note.Delivery?
    ensures PortRun(q, [note]) == PortStep(q, note.handoff).0
    ensures RacedFrames([note], note.about) ==
            if !note.accepted then []
            else match note.handoff
              case EventHandoff(e, route) => [LiveEvent(e, route)]
              case SessionHandoff(view) => [LiveSession(view)]
              case _ => []
  {
    hide PortStep;
    assert [note][..0] == [];
  }

  ghost function ViewFrames(p: PlannedRoute, view: AgentSession): seq<Frame> {
    if p.withSession then [LiveSession(view)] else []
  }

  /** The verdicts used by the fan-out are the ones the Port gives, and the accepted frames are
      appended in order; when one is refused the connection is marked for abort. */
  lemma LiveGrowth(q: Queue, n: ChannelId, p: PlannedRoute, e: AgentEvent, view: AgentSession, others: Ports)
    requires p.channel == n && view.id == e.sessionId && LiveReady(q, e.sessionId)
    ensures var notes := DeliverTo(p, e, view, EmitPorts(q, n, others)).1;
            && (forall i :: 0 <= i < |notes| ==> notes[i].Delivery?)
            && (forall i :: 0 <= i < |notes| ==>
                  (notes[i].accepted <==> PortStep(PortRun(q, notes[..i]), notes[i].handoff).1 == Accepted))
            && var q', frames := PortRun(q, notes), RacedFrames(notes, e.sessionId);
               && q' == Grow(q, e.sessionId, frames).(aborted := q'.aborted)
               && (q.aborted ==> q'.aborted)
               && (!q'.aborted ==> frames == [LiveEvent(e, p.route)] + ViewFrames(p, view))
               && Concerns(frames, e.sessionId)
  {
    hide PortStep, Grow, QueuedLen, LiveReady;
    var ports, s := EmitPorts(q, n, others), e.sessionId;
    var notes := DeliverTo(p, e, view, ports).1;
    var first, frame := notes[0], LiveEvent(e, p.route);
    ReadyReaches(q, s);
    Verdicts(q, n, others, EventHandoff(e, p.route));
    Verdicts(q, n, others, SessionHandoff(view));
    Offer(q, first.handoff, s, frame);
    OneFrame(q, first);
    GrowTwice(q, s, [], []);
    assert notes[..0] == [];
    assert first.accepted <==> QueuedLen(q) < q.capacity;
    if first.accepted && p.withSession {
      var q1 := Grow(q, s, [frame]);
      var second := notes[1];
      assert notes == [first, second] && notes[..1] == [first];
      Offer(q1, second.handoff, s, LiveSession(view));
      OneFrame(q1, second);
      GrowTwice(q, s, [frame], [LiveSession(view)]);
      RacedConcat([first], [second], s);
      assert [first] + [second] == notes;
      assert PortRun(q, notes) == PortStep(q1, second.handoff).0;
    } else {
      assert notes == [first];
      GrowTwice(q, s, [frame], []);
    }
  }

  lemma Verdicts(q: Queue, n: ChannelId, others: Ports, handoff: Handoff)
    ensures EmitPorts(q, n, others)(n, handoff) == LiveVerdict(q, handoff)
  {
  }

  lemma ReadyReaches(q: Queue, s: SessionId)
    requires LiveReady(q, s)
    ensures Reaches(q, s)
  {
  }

  lemma {:induction false} RacedOthers(notes: seq<Note>, s: SessionId)
    requires forall i :: 0 <= i < |notes| ==> notes[i].about != s
    ensures RacedFrames(notes, s) == []
  {
    if notes != [] {
      RacedOthers(notes[..|notes| - 1], s);
    }
  }

  lemma DeliverToIsAbout(p: PlannedRoute, e: AgentEvent, view: AgentSession, ports: Ports)
    ensures forall i :: 0 <= i < |DeliverTo(p, e, view, ports).1| ==>
              DeliverTo(p, e, view, ports).1[i].about == e.sessionId
  {
  }

  /** Wherever the worker stands, a session the Bridge thinks subscribed is one the Port can place. */
  lemma SubscribedIsReady(link: Link, n: ChannelId, s: SessionId)
    requires Shape(link, n) && Agreement(link, n) && link.world.bridge.IsSubscribed(n, s)
    ensures LiveReady(link.queue, s)
  {
    hide RacedFrames, Mine, SyncFrames, LiveEvents;
    assert s in Expected(link);
  }

  ghost predicate PublishMoves(link: Link, n: ChannelId, from: ProviderId, e: AgentEvent, others: Ports) {
    Moved(HandleProviderEvent(link.world.bridge, from, e, EmitPorts(link.queue, n, others)).result)
  }

  /** The handoffs to the native channel inside one publication, and what they leave in its queue. */
  lemma EmitDelivers(link: Link, n: ChannelId, from: ProviderId, e: AgentEvent, others: Ports)
    requires NativeInv(link, n) && e.Constructible() && PublishMoves(link, n, from, e, others)
    ensures var mine := Mine(EmitNotes(link, n, from, e, others), n);
            var q, q' := link.queue, EmitStep(link, n, from, e, others).queue;
            if !link.world.bridge.IsSubscribed(n, e.sessionId) then mine == [] && q' == q
            else
              && LiveReady(q, e.sessionId)
              && var frames := RacedFrames(mine, e.sessionId);
                 && q' == Grow(q, e.sessionId, frames).(aborted := q'.aborted)
                 && (q.aborted ==> q'.aborted)
                 && Concerns(frames, e.sessionId)
                 && (!q'.aborted ==> LiveEvents(frames) == [e])
    ensures forall s :: s != e.sessionId ==> RacedFrames(Mine(EmitNotes(link, n, from, e, others), n), s) == []
  {
    hide HandleProviderEvent, PlanRoutes, FanOut, Ascending, ReduceInto, ValidateProviderEvent, RoutingSession,
         HasFailures, DeliverTo, Mine, RacedFrames, PortRun, Grow, LiveReady, Shape, Continuous, SessionInv, Concerns,
         LiveEvents, EmitPorts, Step;
    var b, s, ports := link.world.bridge, e.sessionId, EmitPorts(link.queue, n, others);
    var notes := EmitNotes(link, n, from, e, others);
    PublishShape(b, from, e, ports);
    var view := ReduceInto(b, e).value.0.session;
    var ids := Ascending(b.Subscribers(s));
    var plan := PlanRoutes(b.channels, b.providers[from], RoutingSession(b, e).value, e, ids).value;
    PlanShape(b.channels, b.providers[from], RoutingSession(b, e).value, e, ids);
    AscendingIsSorted(b.Subscribers(s));
    AscendingElements(b.Subscribers(s));
    MineOfFanOut(plan, e, view, ports, n);
    if b.IsSubscribed(n, s) {
      assert n in ids;
      var i :| 0 <= i < |ids| && ids[i] == n;
      assert plan[i].channel == n;
      SubscribedIsReady(link, n, s);
      ViewBelongs(link.world, from, e, ports);
      LiveGrowth(link.queue, n, plan[i], e, view, others);
      OneEvent(plan[i], e, view);
      DeliverToIsAbout(plan[i], e, view, ports);
      assert Mine(notes, n) == DeliverTo(plan[i], e, view, ports).1;
    } else {
      forall i | 0 <= i < |plan| ensures plan[i].channel != n {
        assert ids[i] in ids;
      }
      assert Avoids(plan, n);
      EmptyRun(link.queue);
    }
    forall s2 | s2 != s ensures RacedFrames(Mine(notes, n), s2) == [] {
      RacedOthers(Mine(notes, n), s2);
    }
  }

  lemma EmptyRun(q: Queue)
    ensures PortRun(q, []) == q
  {
  }

  lemma OneEvent(p: PlannedRoute, e: AgentEvent, view: AgentSession)
    ensures LiveEvents([LiveEvent(e, p.route)] + ViewFrames(p, view)) == [e]
  {
    var frames := [LiveEvent(e, p.route)] + ViewFrames(p, view);
    LiveEventsConcat([LiveEvent(e, p.route)], ViewFrames(p, view));
    assert LiveEvents([LiveEvent(e, p.route)][..0]) == [];
    NoEventsInside(ViewFrames(p, view));
  }

  lemma ViewBelongs(w: World, from: ProviderId, e: AgentEvent, ports: Ports)
    requires Inv(w) && e.Constructible() && Moved(HandleProviderEvent(w.bridge, from, e, ports).result)
    ensures ReduceInto(w.bridge, e).Ok? && ReduceInto(w.bridge, e).value.0.session.id == e.sessionId
  {
    hide HandleProviderEvent, PlanRoutes, FanOut, Ascending, ReduceInto, ValidateProviderEvent, RoutingSession,
         HasFailures, IsHistory, Validated;
    PublishShape(w.bridge, from, e, ports);
    PublishedSession(w, from, e, ports);
  }

  lemma EmitWorld(link: Link, n: ChannelId, from: ProviderId, e: AgentEvent, others: Ports)
    requires NativeInv(link, n) && e.Constructible()
    ensures var w, w' := link.world, EmitStep(link, n, from, e, others).world;
            && Inv(w') && w'.bridge.subscriptions == w.bridge.subscriptions && w'.bridge.channels == w.bridge.channels
            && w'.notes == w.notes + EmitNotes(link, n, from, e, others)
            && if PublishMoves(link, n, from, e, others) then
                 forall t :: HistoryOf(w', t) == HistoryOf(w, t) + if t == e.sessionId then [e] else []
               else
                 && EmitNotes(link, n, from, e, others) == [] && w'.history == w.history
  {
    hide HandleProviderEvent, PlanRoutes, FanOut, Ascending, ReduceInto, ValidateProviderEvent, RoutingSession,
         HasFailures, SessionInv, Shape, Agreement, Continuous, EmitPorts, PortRun, Mine;
    var ports := EmitPorts(link.queue, n, others);
    PublishShape(link.world.bridge, from, e, ports);
    StepKeepsInv(link.world, Publish(from, e, ports));
  }

  lemma GrowFacts(q: Queue, s: SessionId, frames: seq<Frame>)
    ensures var q' := Grow(q, s, frames);
            && Subs(q') == Subs(q) && q'.client.Some? == q.client.Some? && q'.capacity == q.capacity
            && (forall t :: AfterCursor(q', t) == AfterCursor(q, t))
            && if q.PendingOf().Some? && q.PendingOf().value.session == s then
                 && q'.outgoing == q.outgoing
                 && q'.PendingOf() == Some(q.PendingOf().value.(trailing := q.PendingOf().value.trailing + frames))
               else q'.outgoing == q.outgoing + frames && q'.PendingOf() == q.PendingOf()
  {
  }

  /** A publication that queues nothing for the client leaves it in step with what it must have read. */
  lemma UnreadContinues(link: Link, link': Link, t: SessionId, grown: seq<AgentEvent>)
    requires ContinuousFor(link, t) && link'.worker == link.worker && ReadingOf(link', t) == ReadingOf(link, t)
    requires Subs(link'.queue) == Subs(link.queue) && AfterCursor(link'.queue, t) == AfterCursor(link.queue, t)
    requires link.queue.aborted ==> link'.queue.aborted
    requires HistoryOf(link'.world, t) == HistoryOf(link.world, t) + grown
    requires grown != [] ==> t !in Expected(link) || t !in Subs(link.queue)
    ensures ContinuousFor(link', t)
  {
    hide ReadingOf, AfterCursor, Subs;
    var v, h := ReadingOf(link, t), HistoryOf(link.world, t);
    assert v.start <= v.cursor <= |h| ==> (h + grown)[v.start..v.cursor] == h[v.start..v.cursor];
    assert grown == [] ==> h + grown == h;
  }

  /** One that queues the event for a subscribed session adds it to what is read, and to the history. */
  lemma ReadContinues(link: Link, link': Link, t: SessionId, e: AgentEvent, events: seq<AgentEvent>)
    requires ContinuousFor(link, t) && link'.worker == link.worker && t in Subs(link.queue)
    requires ReadingOf(link', t) == ReadingOf(link, t).(events := ReadingOf(link, t).events + events)
    requires Subs(link'.queue) == Subs(link.queue) && AfterCursor(link'.queue, t) == AfterCursor(link.queue, t)
    requires link.queue.aborted ==> link'.queue.aborted
    requires HistoryOf(link'.world, t) == HistoryOf(link.world, t) + [e]
    requires !link'.queue.aborted ==> events == [e]
    ensures ContinuousFor(link', t)
  {
    hide ReadingOf, AfterCursor, Subs;
    var v, h := ReadingOf(link, t), HistoryOf(link.world, t);
    assert v.start <= |h| ==> (h + [e])[v.start..] == h[v.start..] + [e];
  }

  /** What a client reads of any session stays in step across a publication. */
  lemma EmitContinues(link: Link, n: ChannelId, from: ProviderId, e: AgentEvent, others: Ports, t: SessionId)
    requires NativeInv(link, n) && e.Constructible() && PublishMoves(link, n, from, e, others)
    requires link.queue.client.Some?
    ensures ContinuousFor(EmitStep(link, n, from, e, others), t)
  {
    hide HandleProviderEvent, EmitPorts, PortRun, Mine, RacedFrames, Grow, LiveReady, Concerns, LiveEvents, ReadAll,
         Step, Inv, Shape, AfterCursor, ContinuousFor, Subs;
    EmitWorld(link, n, from, e, others);
    EmitDelivers(link, n, from, e, others);
    var link' := EmitStep(link, n, from, e, others);
    var q, s := link.queue, e.sessionId;
    var grown := if t == s then [e] else [];
    assert ContinuousFor(link, t);
    if !link.world.bridge.IsSubscribed(n, s) {
      UnreadContinues(link, link', t, grown);
    } else {
      var frames := RacedFrames(Mine(EmitNotes(link, n, from, e, others), n), s);
      GrowFacts(q, s, frames);
      SameAfterGrowth(q, link'.queue, Grow(q, s, frames));
      if q.PendingOf().Some? && q.PendingOf().value.session == s {
        if t == s && s in Subs(q) {
          PendingIsElsewhere(link, n, s);
        }
        UnreadContinues(link, link', t, grown);
      } else {
        ReadMore(link, link', s, frames, t);
        PlacedIsSubscribed(link, s);
        if t == s {
          ReadContinues(link, link', t, e, LiveEvents(frames));
        } else {
          UnreadContinues(link, link', t, grown);
        }
      }
    }
  }

  lemma SameAfterGrowth(q: Queue, q': Queue, grown: Queue)
    requires q' == grown.(aborted := q'.aborted)
    ensures Subs(q') == Subs(grown) && forall t :: AfterCursor(q', t) == AfterCursor(grown, t)
  {
  }

  lemma ReadMore(link: Link, link': Link, s: SessionId, frames: seq<Frame>, t: SessionId)
    requires link'.sent == link.sent && link'.resume == link.resume && Concerns(frames, s)
    requires link'.queue.outgoing == link.queue.outgoing + frames
    ensures ReadingOf(link', t) ==
            if t == s then ReadingOf(link, t).(events := ReadingOf(link, t).events + LiveEvents(frames))
            else ReadingOf(link, t)
  {
    hide ReadAll, Concerns, LiveEvents;
    var stream := link.sent + link.queue.outgoing;
    assert link'.sent + link'.queue.outgoing == stream + frames;
    ReadConcat(Resumed(link.resume, t), stream, frames, t);
    ReadConcerned(ReadingOf(link, t), frames, s, t);
  }

  lemma PlacedIsSubscribed(link: Link, s: SessionId)
    requires LiveReady(link.queue, s)
    ensures s in Subs(link.queue) || (link.queue.PendingOf().Some? && link.queue.PendingOf().value.session == s)
  {
  }

  lemma PendingIsElsewhere(link: Link, n: ChannelId, t: SessionId)
    requires Shape(link, n) && t in Subs(link.queue)
    ensures link.queue.PendingOf().Some? ==> link.queue.PendingOf().value.session != t
  {
    hide RacedFrames, Mine, SyncFrames, LiveEvents;
  }

  /** Live frames that race a delivered page are parked behind it, in order. */
  lemma EmitParks(link: Link, n: ChannelId, from: ProviderId, e: AgentEvent, others: Ports)
    requires NativeInv(link, n) && e.Constructible() && PublishMoves(link, n, from, e, others)
    requires link.worker.Synced?
    ensures SyncedShape(EmitStep(link, n, from, e, others), n)
  {
    hide HandleProviderEvent, EmitPorts, PortRun, Mine, RacedFrames, Grow, LiveReady, LiveEvents, Step, Inv,
         Continuous, EventsOf, SyncFrames;
    EmitWorld(link, n, from, e, others);
    EmitDelivers(link, n, from, e, others);
    var link', w, notes := EmitStep(link, n, from, e, others), link.worker, EmitNotes(link, n, from, e, others);
    var h := HistoryOf(link.world, w.session);
    var h' := HistoryOf(link'.world, w.session);
    assert link'.world.notes[w.since..] == link.world.notes[w.since..] + notes;
    MineConcat(link.world.notes[w.since..], notes, n);
    RacedConcat(Mine(link.world.notes[w.since..], n), Mine(notes, n), w.session);
    var was := RacedFrames(Mine(link.world.notes[w.since..], n), w.session);
    var frames := RacedFrames(Mine(notes, n), w.session);
    assert h'[w.sync.after..w.sync.through] == h[w.sync.after..w.sync.through];
    LiveEventsConcat(was, frames);
    if e.sessionId == w.session {
      assert h'[w.sync.through..] == h[w.sync.through..] + [e];
      if !link.world.bridge.IsSubscribed(n, w.session) {
        assert !w.outcome.subscribed;
        EmptyRaced(w.session);
        assert was + [] == was;
      }
    } else {
      assert was + [] == was;
    }
    if link.world.bridge.IsSubscribed(n, e.sessionId) {
      GrowFacts(link.queue, e.sessionId, RacedFrames(Mine(notes, n), e.sessionId));
    }
  }

  lemma EmptyRaced(s: SessionId)
    ensures RacedFrames([], s) == []
  {
  }

  lemma EmitKeepsInv(link: Link, n: ChannelId, from: ProviderId, e: AgentEvent, others: Ports)
    requires NativeInv(link, n) && e.Constructible()
    ensures NativeInv(EmitStep(link, n, from, e, others), n)
  {
    hide HandleProviderEvent, EmitPorts, PortRun, Mine, RacedFrames, Grow, LiveReady, LiveEvents, Step, Inv,
         Concerns, ContinuousFor, SyncedShape;
    EmitWorld(link, n, from, e, others);
    var link' := EmitStep(link, n, from, e, others);
    if PublishMoves(link, n, from, e, others) {
      EmitDelivers(link, n, from, e, others);
      if link.world.bridge.IsSubscribed(n, e.sessionId) {
        GrowFacts(link.queue, e.sessionId, RacedFrames(Mine(EmitNotes(link, n, from, e, others), n), e.sessionId));
        SubscribedIsReady(link, n, e.sessionId);
        assert link.worker.Marked? || link.worker.SyncFailed? ==> e.sessionId in Subs(link.queue);
        PendingElsewhereOrSynced(link, n, e.sessionId);
      }
      if link.worker.Synced? {
        EmitParks(link, n, from, e, others);
      }
      if link'.queue.client.Some? {
        forall t ensures ContinuousFor(link', t) {
          EmitContinues(link, n, from, e, others, t);
        }
      }
    } else {
      EmptyRun(link.queue);
      assert link.world.notes + [] == link.world.notes;
      NothingMine(n);
      SameStory(link, link', n, []);
      assert Shape(link', n);
      AgreementCarries(link, link', n);
    }
  }

  lemma AgreementCarries(link: Link, link': Link, n: ChannelId)
    requires Agreement(link, n) && link'.world.bridge.subscriptions == link.world.bridge.subscriptions
    requires Expected(link') == Expected(link)
    ensures Agreement(link', n)
  {
    hide Expected;
    forall s ensures link'.world.bridge.IsSubscribed(n, s) <==> s in Expected(link') {
      assert link.world.bridge.IsSubscribed(n, s) <==> s in Expected(link);
    }
  }

  lemma NothingMine(n: ChannelId)
    ensures Mine([], n) == []
  {
  }

  lemma PendingElsewhereOrSynced(link: Link, n: ChannelId, s: SessionId)
    requires Shape(link, n) && Agreement(link, n) && link.world.bridge.IsSubscribed(n, s)
    ensures link.queue.PendingOf().Some? && link.queue.PendingOf().value.session == s ==> link.worker.Synced?
  {
    hide SyncedShape;
    assert s in Expected(link);
  }

  /** Nothing the native channel can see changed. */
  lemma SameStory(link: Link, link': Link, n: ChannelId, extra: seq<Note>)
    requires link'.queue == link.queue && link'.worker == link.worker && link'.sent == link.sent
    requires link'.resume == link.resume
    requires link'.world.history == link.world.history
    requires link'.world.notes == link.world.notes + extra && Mine(extra, n) == []
    ensures Shape(link, n) ==> Shape(link', n)
    ensures Continuous(link) ==> Continuous(link')
  {
    hide Mine, RacedFrames, SyncFrames, LiveEvents, Concerns, Paged, Describes;
    if link.worker.Synced? && Shape(link, n) {
      var since := link.worker.since;
      assert link'.world.notes[since..] == link.world.notes[since..] + extra;
      MineConcat(link.world.notes[since..], extra, n);
      assert Mine(link'.world.notes[since..], n) == Mine(link.world.notes[since..], n);
    }
    if Continuous(link) && link.queue.client.Some? {
      forall t ensures ContinuousFor(link', t) {
        assert ContinuousFor(link, t);
      }
    }
  }

  // ---------- The worker's own moves ----------

  /** Nothing that decides what must have been read of a session has grown. */
  ghost predicate NoNewPromises(link: Link, link': Link, s: SessionId) {
    && AfterCursor(link'.queue, s) == AfterCursor(link.queue, s)
    && (Settled(link', s) ==> Settled(link, s))
    && (!link'.queue.aborted && s in Expected(link') && s in Subs(link'.queue) ==>
          !link.queue.aborted && s in Expected(link) && s in Subs(link.queue))
  }

  /** Queueing frames that say nothing about events or subscriptions keeps every client in step. */
  lemma StaysContinuous(link: Link, link': Link, frames: seq<Frame>)
    requires Continuous(link) && Silent(frames)
    requires link'.world.history == link.world.history && link'.resume == link.resume
    requires link'.sent + link'.queue.outgoing == link.sent + link.queue.outgoing + frames
    requires link'.queue.client.Some? ==> link.queue.client.Some?
    requires forall s :: NoNewPromises(link, link', s)
    ensures Continuous(link')
  {
    hide ReadAll, Silent, Expected, Subs, Settled, AfterCursor;
    if link'.queue.client.Some? {
      forall s ensures ContinuousFor(link', s) {
        assert ContinuousFor(link, s) && NoNewPromises(link, link', s);
        ReadConcat(Resumed(link.resume, s), link.sent + link.queue.outgoing, frames, s);
        ReadSilent(ReadingOf(link, s), frames, s);
      }
    }
  }

  lemma EnqueueFacts(q: Queue, frames: seq<Frame>)
    ensures var r := EnqueueBatch(q, frames);
            && r.0.client == q.client && r.0.capacity == q.capacity
            && (r.0.outgoing == q.outgoing + if r.1 then frames else [])
            && (r.0.aborted == (q.aborted || !r.1))
    ensures |frames| == 1 ==> Enqueue(q, frames[0]) == EnqueueBatch(q, frames)
  {
    assert |frames| == 1 ==> frames == [frames[0]];
    assert q.outgoing + [] == q.outgoing;
  }

  /** A step that only queues silent frames and then rests or disconnects keeps the invariant. */
  lemma QueueingKeepsInv(link: Link, link': Link, n: ChannelId, frames: seq<Frame>)
    requires NativeInv(link, n) && Expected(link) == Subs(link.queue) && link.queue.PendingOf().None?
    requires Silent(frames) && link'.world == link.world && link'.sent == link.sent && link'.resume == link.resume
    requires Subs(link'.queue) == Subs(link.queue) && link'.queue.PendingOf().None?
    requires forall s :: AfterCursor(link'.queue, s) == AfterCursor(link.queue, s)
    requires link'.queue.client.Some? ==> link.queue.client.Some?
    requires link'.queue.outgoing == link.queue.outgoing + frames
    requires !link'.queue.aborted ==> !link.queue.aborted
    requires link'.worker == Ready || link'.worker == Closing(Subs(link'.queue))
    requires !(link.worker.Answering? && link.worker.frame.UnsubscriptionResult?) && !link.worker.Closing?
    ensures NativeInv(link', n)
  {
    hide Inv, SyncedShape, ContinuousFor, Silent, AfterCursor;
    assert link'.sent + link'.queue.outgoing == link.sent + link.queue.outgoing + frames;
    StaysContinuous(link, link', frames);
  }

  lemma DiscoveryIsSilent(b: Bridge, request: RequestId)
    ensures Silent(DiscoveryFrames(b, request))
  {
  }

  lemma SnapshotKeepsInv(link: Link, n: ChannelId, request: RequestId)
    requires NativeInv(link, n)
    ensures NativeInv(Next(link, n, TakeSnapshot(request)), n)
  {
    hide Inv, ContinuousFor, SyncedShape, DiscoveryFrames, Silent, AfterCursor;
    var link' := Next(link, n, TakeSnapshot(request));
    DiscoveryIsSilent(link.world.bridge, request);
    assert link'.sent + link'.queue.outgoing == link.sent + link.queue.outgoing + [];
    NothingIsSilent();
    StaysContinuous(link, link', []);
  }

  lemma NothingIsSilent()
    ensures Silent([])
  {
  }

  lemma DiscoverKeepsInv(link: Link, n: ChannelId)
    requires NativeInv(link, n)
    ensures NativeInv(Next(link, n, PublishDiscovery), n)
  {
    hide Inv, Continuous, Agreement, EnqueueBatch, Silent;
    var link' := Next(link, n, PublishDiscovery);
    if link.worker.Discovering? && link.queue.client.Some? {
      EnqueueFacts(link.queue, link.worker.frames);
      NothingIsSilent();
      var queued := EnqueueBatch(link.queue, link.worker.frames).1;
      QueueingKeepsInv(link, link', n, if queued then link.worker.frames else []);
    }
  }

  lemma AnswerKeepsInv(link: Link, n: ChannelId)
    requires NativeInv(link, n)
    ensures NativeInv(Next(link, n, Answer), n)
  {
    hide Inv, Continuous, Agreement, Enqueue, EnqueueBatch;
    var link' := Next(link, n, Answer);
    if link.worker.Answering? {
      var frame := link.worker.frame;
      EnqueueFacts(link.queue, [frame]);
      if frame.UnsubscriptionResult? {
        FarewellKeepsInv(link, n);
      } else {
        QueueingKeepsInv(link, link', n, if Enqueue(link.queue, frame).1 then [frame] else []);
      }
    }
  }

  /** Reporting an unsubscription ends what the client reads of that session, or the connection. */
  lemma FarewellKeepsInv(link: Link, n: ChannelId)
    requires NativeInv(link, n) && link.worker.Answering? && link.worker.frame.UnsubscriptionResult?
    ensures NativeInv(Next(link, n, Answer), n)
  {
    hide Inv, SyncedShape, ContinuousFor, Enqueue, EnqueueBatch, AfterCursor;
    var link', frame, stream := Next(link, n, Answer), link.worker.frame, link.sent + link.queue.outgoing;
    EnqueueFacts(link.queue, [frame]);
    var queued := Enqueue(link.queue, frame).1;
    assert link'.sent + link'.queue.outgoing == stream + if queued then [frame] else [];
    assert link'.queue.client == link.queue.client;
    SameCursors(link.queue, link'.queue);
    if link'.queue.client.Some? {
      forall s ensures ContinuousFor(link', s) {
        assert ContinuousFor(link, s);
        FarewellIsRead(link, link', s, frame, queued);
      }
    }
  }

  lemma SameCursors(q: Queue, q': Queue)
    requires q'.client == q.client
    ensures forall s :: AfterCursor(q', s) == AfterCursor(q, s)
  {
  }

  lemma FarewellIsRead(link: Link, link': Link, s: SessionId, frame: Frame, queued: bool)
    requires ContinuousFor(link, s) && frame.UnsubscriptionResult?
    requires link.worker.Answering? && link.worker.frame == frame && frame.session !in Subs(link.queue)
    requires link'.world == link.world && link'.resume == link.resume && link'.queue.client == link.queue.client
    requires link'.sent + link'.queue.outgoing == link.sent + link.queue.outgoing + if queued then [frame] else []
    requires AfterCursor(link'.queue, s) == AfterCursor(link.queue, s)
    requires !link'.queue.aborted ==> !link.queue.aborted
    requires if queued then link'.worker == Ready else link'.worker == Closing(Subs(link'.queue))
    ensures ContinuousFor(link', s)
  {
    hide ReadAll, AfterCursor;
    var stream := link.sent + link.queue.outgoing;
    if queued {
      ReadConcat(Resumed(link.resume, s), stream, [frame], s);
      ReadOne(ReadingOf(link, s), frame, s);
    } else {
      assert stream + [] == stream;
    }
  }

  lemma AskSubscribeKeepsInv(link: Link, n: ChannelId, request: RequestId, session: SessionId)
    requires NativeInv(link, n)
    ensures NativeInv(Next(link, n, AskSubscribe(request, session)), n)
  {
    hide Inv, ContinuousFor, Enqueue, EnqueueBatch, SyncedShape;
    var q, link' := link.queue, Next(link, n, AskSubscribe(request, session));
    if link.worker == Ready && q.client.Some? {
      var c := q.client.value;
      if session in c.discovered && session in c.subscriptions && session in c.cursors && c.cursors[session] > 0 {
        var frame := SubscriptionResult(request, session, SubscribedBefore, c.cursors[session], 0, 0, false);
        EnqueueFacts(q, [frame]);
        QueueingKeepsInv(link, link', n, if Enqueue(q, frame).1 then [frame] else []);
      } else {
        assert link'.sent + link'.queue.outgoing == link.sent + link.queue.outgoing + [];
        StaysContinuous(link, link', []);
      }
    }
  }

  lemma DrainKeepsInv(link: Link, n: ChannelId)
    requires NativeInv(link, n)
    ensures NativeInv(Next(link, n, Drain), n)
  {
    hide Inv, ContinuousFor, SyncedShape, EmitStep, CallSyncStep, SubscribeStep, Discovered, CompleteSubscribe, Enqueue,
         DiscoveryFrames, Unsubscribe, Silent;
    NothingIsSilent();
    var link' := Next(link, n, Drain);
    assert link'.sent + link'.queue.outgoing == link.sent + link.queue.outgoing + [];
    StaysContinuous(link, link', []);
  }

  lemma NewConnection(link: Link, s: SessionId)
    requires link.sent == [] && link.queue.outgoing == [] && link.queue.client.Some? && Subs(link.queue) == {}
    requires link.queue.client.value.cursors == link.resume
    ensures ContinuousFor(link, s)
  {
    assert link.sent + link.queue.outgoing == [];
  }

  /** Opening and closing a connection. */
  lemma ConnectionKeepsInv(link: Link, n: ChannelId, move: Move)
    requires NativeInv(link, n) && (move.Accept? || move.StartClose? || move.FinishClose?)
    ensures NativeInv(Next(link, n, move), n)
  {
    hide Inv, ContinuousFor, SyncedShape;
    var link' := Next(link, n, move);
    if move.Accept? && link' != link {
      forall s ensures ContinuousFor(link', s) {
        NewConnection(link', s);
      }
    }
    if move.StartClose? {
      assert link'.sent + link'.queue.outgoing == link.sent + link.queue.outgoing + [];
      StaysContinuous(link, link', []);
    }
  }

  /** Bookkeeping between two critical sections. */
  lemma BookkeepingKeepsInv(link: Link, n: ChannelId, move: Move)
    requires NativeInv(link, n) && (move.ReportSyncFailure? || move.ForgetSubscription? || move.AskAction?)
    ensures NativeInv(Next(link, n, move), n)
  {
    hide Inv, ContinuousFor, SyncedShape, EmitStep, CallSyncStep, SubscribeStep, Discovered, CompleteSubscribe, Enqueue,
         DiscoveryFrames, Unsubscribe, Silent;
    NothingIsSilent();
    var link' := Next(link, n, move);
    assert link'.sent + link'.queue.outgoing == link.sent + link.queue.outgoing + [];
    StaysContinuous(link, link', []);
  }

  /** Unsubscribing at the Bridge removes one session from what is expected of it. */
  lemma LeaveAtBridge(link: Link, link': Link, n: ChannelId, session: SessionId)
    requires NativeInv(link, n) && link'.world == Step(link.world, Leave(n, session))
    requires session in link.world.bridge.sessions
    requires link'.queue == link.queue && link'.sent == link.sent && link'.resume == link.resume && Shape(link', n)
    requires forall s :: Settled(link', s) ==> Settled(link, s)
    requires Expected(link') == Expected(link) - {session}
    ensures NativeInv(link', n)
  {
    hide Inv, ContinuousFor, Shape, DropSubscription, Expected, Subs;
    StepKeepsInv(link.world, Leave(n, session));
    OwnEdits(link.world.bridge, session, n);
    assert link'.sent + link'.queue.outgoing == link.sent + link.queue.outgoing + [];
    StaysContinuous(link, link', []);
  }

  lemma AskUnsubscribeKeepsInv(link: Link, n: ChannelId, request: RequestId, session: SessionId)
    requires NativeInv(link, n)
    ensures NativeInv(Next(link, n, AskUnsubscribe(request, session)), n)
  {
    hide Inv, ContinuousFor, SyncedShape, DropSubscription, Step;
    var link' := Next(link, n, AskUnsubscribe(request, session));
    if link'.worker.Leaving? && link' != link {
      LeaveAtBridge(link, link', n, session);
    } else {
      assert link'.sent + link'.queue.outgoing == link.sent + link.queue.outgoing + [];
      StaysContinuous(link, link', []);
    }
  }

  lemma CloseOneKeepsInv(link: Link, n: ChannelId, session: SessionId)
    requires NativeInv(link, n)
    ensures NativeInv(Next(link, n, CloseOne(session)), n)
  {
    hide Inv, ContinuousFor, SyncedShape, DropSubscription, Step;
    var link' := Next(link, n, CloseOne(session));
    if link.worker.Closing? && session in link.worker.rest {
      assert link.world.bridge.IsSubscribed(n, session);
      SubscribedIsLive(link.world, n, session);
      LeaveAtBridge(link, link', n, session);
    }
  }

  lemma SubscribedIsLive(w: World, n: ChannelId, s: SessionId)
    requires Inv(w) && w.bridge.IsSubscribed(n, s)
    ensures s in w.bridge.sessions && n in w.bridge.channels
  {
    hide SessionInv;
  }

  /** Operations of other Channels and registrations. */
  lemma ElsewhereKeepsInv(link: Link, n: ChannelId, op: Op)
    requires NativeInv(link, n) && op.Legal() && OtherChannel(op, n)
    ensures NativeInv(link.(world := Step(link.world, op)), n)
  {
    hide Inv, Shape, Continuous, Step, Mine, Expected;
    var link' := link.(world := Step(link.world, op));
    StepKeepsInv(link.world, op);
    ElsewhereEffect(link.world, n, op);
    SameStory(link, link', n, link'.world.notes[|link.world.notes|..]);
    SameExpectation(link, link');
  }

  lemma SameExpectation(link: Link, link': Link)
    requires link'.queue == link.queue && link'.worker == link.worker
    ensures Expected(link') == Expected(link)
  {
  }

  /** Another Channel's subscriptions come and go without touching those of this one. */
  lemma OthersEdits(b: Bridge, s: SessionId, c: ChannelId, n: ChannelId)
    requires c != n
    ensures forall t :: b.(subscriptions := AddSubscription(b.subscriptions, s, c)).IsSubscribed(n, t)
                        <==> b.IsSubscribed(n, t)
    ensures forall t :: b.(subscriptions := DropSubscription(b.subscriptions, s, c)).IsSubscribed(n, t)
                        <==> b.IsSubscribed(n, t)
    ensures forall t :: b.(subscriptions := WithoutChannel(b.subscriptions, c)).IsSubscribed(n, t)
                        <==> b.IsSubscribed(n, t)
  {
    hide AddSubscription, DropSubscription, WithoutChannel;
    forall t
      ensures b.(subscriptions := AddSubscription(b.subscriptions, s, c)).IsSubscribed(n, t) <==> b.IsSubscribed(n, t)
      ensures b.(subscriptions := DropSubscription(b.subscriptions, s, c)).IsSubscribed(n, t) <==> b.IsSubscribed(n, t)
      ensures b.(subscriptions := WithoutChannel(b.subscriptions, c)).IsSubscribed(n, t) <==> b.IsSubscribed(n, t)
    {
      SubscriptionEdits(b.subscriptions, s, c, t, n);
    }
  }

  /** The native channel's own subscriptions, one by one. */
  lemma OwnEdits(b: Bridge, session: SessionId, n: ChannelId)
    ensures forall t :: b.(subscriptions := AddSubscription(b.subscriptions, session, n)).IsSubscribed(n, t)
                        <==> b.IsSubscribed(n, t) || t == session
    ensures forall t :: b.(subscriptions := DropSubscription(b.subscriptions, session, n)).IsSubscribed(n, t)
                        <==> b.IsSubscribed(n, t) && t != session
  {
    hide AddSubscription, DropSubscription, WithoutChannel;
    forall t
      ensures b.(subscriptions := AddSubscription(b.subscriptions, session, n)).IsSubscribed(n, t)
              <==> b.IsSubscribed(n, t) || t == session
      ensures b.(subscriptions := DropSubscription(b.subscriptions, session, n)).IsSubscribed(n, t)
              <==> b.IsSubscribed(n, t) && t != session
    {
      SubscriptionEdits(b.subscriptions, session, n, t, n);
    }
  }

  lemma ElsewhereEffect(w: World, n: ChannelId, op: Op)
    requires OtherChannel(op, n)
    ensures var w' := Step(w, op);
            && w'.history == w.history
            && (n in w.bridge.channels ==> n in w'.bridge.channels)
            && (forall s :: w'.bridge.IsSubscribed(n, s) <==> w.bridge.IsSubscribed(n, s))
            && |w.notes| <= |w'.notes| && w'.notes == w.notes + w'.notes[|w.notes|..]
            && Mine(w'.notes[|w.notes|..], n) == []
  {
    hide AddSubscription, DropSubscription, WithoutChannel, SyncSession, Subscribe, ChoosePage, MakeSync, MakeBaseline,
         Mine;
    var b, w' := w.bridge, Step(w, op);
    NothingMine(n);
    match op
    case AddProvider(_) =>
    case AddChannel(_) =>
    case RequestPage(c, s, after, limit, ports) =>
      SyncShape(b, c, s, after, limit, ports);
      OthersEdits(b, s, c, n);
      OthersNotes(SyncSession(b, c, s, after, limit, ports).notes, n);
      assert w'.notes[|w.notes|..] == SyncSession(b, c, s, after, limit, ports).notes;
    case RequestLive(c, s, ports) =>
      SubscribeShape(b, c, s, ports);
      OthersEdits(b, s, c, n);
      OthersNotes(Subscribe(b, c, s, ports).notes, n);
      assert w'.notes[|w.notes|..] == Subscribe(b, c, s, ports).notes;
    case Leave(c, s) => OthersEdits(b, s, c, n);
    case LeaveAll(c) => OthersEdits(b, 0, c, n);
  }

  lemma {:induction false} OthersNotes(notes: seq<Note>, n: ChannelId)
    requires forall i :: 0 <= i < |notes| ==> notes[i].channel != n
    ensures Mine(notes, n) == []
  {
    if notes != [] {
      OthersNotes(notes[..|notes| - 1], n);
    }
  }

  // ---------- Synchronising ----------

  lemma SilentSyncFails(b: Bridge, n: ChannelId, session: SessionId, after: U64, limit: nat, ports: Ports)
    requires !b.IsSubscribed(n, session) && SyncSession(b, n, session, after, limit, ports).notes == []
    ensures SyncSession(b, n, session, after, limit, ports).result.Err?
  {
    hide ChoosePage, MakeSync;
  }

  /** The page handed over is a slice of the history, final exactly when it reaches the end. */
  lemma SyncIsPaged(w: World, n: ChannelId, session: SessionId, after: U64, limit: nat, ports: Ports)
    requires Inv(w) && SyncSession(w.bridge, n, session, after, limit, ports).notes != []
    ensures var r := SyncSession(w.bridge, n, session, after, limit, ports);
            && r.notes[0].Delivery? && r.notes[0].handoff.SyncHandoff?
            && var sync, h := r.notes[0].handoff.sync, HistoryOf(w, session);
               && sync.after == (if sync.reset then 0 else after)
               && sync.after + |sync.events| == sync.through <= |h| && sync.through > 0
               && EventsOf(sync.events) == h[sync.after..sync.through]
               && (sync.baseline.Some? <==> sync.through == |h|)
               && (sync.events != [] || sync.baseline.Some?)
  {
    hide IsHistory, Validated, SyncSession, ChoosePage, MakeSync, MakeBaseline, Through, EventsOf, AddSubscription;
    SyncShape(w.bridge, n, session, after, limit, ports);
    var b := w.bridge;
    var a, h := b.sessions[session], w.history[session];
    assert SessionInv(b, session, h);
    ChooseShape(h, a, after, limit);
    MakeSyncShape(b.providers[a.session.providerId], b.channels[n], a, ChoosePage(a, after, limit).value);
    Identity(h, a);
  }

  lemma SyncAnswer(q: Queue, request: RequestId, session: SessionId, sync: Sync)
    requires q.PendingOf() == Some(PendingSubscription(request, session, [], [], false))
    ensures var r := PortStep(q, SyncHandoff(sync));
            if r.1 == Accepted then
              && r.0 == q.SetPending(Some(PendingSubscription(request, session, SyncFrames(request, sync), [], true)))
              && forall i :: 0 <= i < |sync.events| ==> sync.events[i].event.sessionId == session
            else r.0 == q.(aborted := r.0.aborted) && (q.aborted ==> r.0.aborted)
  {
    hide SyncFrames;
    assert [] + SyncFrames(request, sync) == SyncFrames(request, sync);
  }

  lemma SyncFramesNonempty(request: RequestId, sync: Sync)
    requires sync.events != [] || sync.baseline.Some?
    ensures SyncFrames(request, sync) != []
  {
  }

  /** Either the worker learns of a failure and nothing is subscribed, or the page is parked. */
  ghost predicate SyncCalled(link: Link, link': Link, n: ChannelId)
    requires link.worker.Marked? && link.queue.client.Some?
  {
    var w, q, h := link.worker, link.queue, HistoryOf(link.world, link.worker.session);
    && Inv(link'.world) && link'.world.history == link.world.history && link'.sent == link.sent
    && link'.resume == link.resume && n in link'.world.bridge.channels
    && if link'.worker == SyncFailed(w.request, w.session) then
         && link'.world.bridge == link.world.bridge
         && link'.queue == q.(aborted := link'.queue.aborted) && (q.aborted ==> link'.queue.aborted)
       else
         && link'.worker.Synced?
         && var w' := link'.worker;
            && w' == Synced(w.request, w.session, w'.outcome, w'.sync, |link'.world.notes|)
            && Describes(w'.outcome, w'.sync) && Paged(h, w.session, w'.sync)
            && SyncFrames(w.request, w'.sync) != []
            && w'.sync.after == (if w'.sync.reset then 0 else AfterCursor(q, w.session))
            && (w'.outcome.subscribed <==> w'.sync.through == |h|)
            && link'.queue == q.SetPending(Some(PendingSubscription(w.request, w.session,
                                                                    SyncFrames(w.request, w'.sync), [], true)))
            && forall s :: link'.world.bridge.IsSubscribed(n, s) <==>
                           link.world.bridge.IsSubscribed(n, s) || (w'.outcome.subscribed && s == w.session)
  }

  lemma CallSyncEffect(link: Link, n: ChannelId, others: Ports)
    requires NativeInv(link, n) && link.worker.Marked?
    ensures link.queue.client.Some? && SyncCalled(link, CallSyncStep(link, n, others), n)
  {
    hide SyncSession, Inv, PortStep, Continuous, SyncFrames, EventsOf, AddSubscription, ChoosePage, MakeSync;
    var b, q, session := link.world.bridge, link.queue, link.worker.session;
    var after, ports := AfterCursor(q, session), SyncPorts(q, n, others);
    var r := SyncSession(b, n, session, after, PAGE_EVENTS, ports);
    StepKeepsInv(link.world, RequestPage(n, session, after, PAGE_EVENTS, ports));
    SyncShape(b, n, session, after, PAGE_EVENTS, ports);
    assert !b.IsSubscribed(n, session);
    if r.notes == [] {
      SilentSyncFails(b, n, session, after, PAGE_EVENTS, ports);
    } else {
      SyncIsPaged(link.world, n, session, after, PAGE_EVENTS, ports);
      var sync := r.notes[0].handoff.sync;
      SyncVerdict(q, n, others, sync);
      SyncAnswer(q, link.worker.request, session, sync);
      SyncFramesNonempty(link.worker.request, sync);
      OwnEdits(b, session, n);
    }
  }

  lemma CallSyncKeepsInv(link: Link, n: ChannelId, others: Ports)
    requires NativeInv(link, n) && link.worker.Marked?
    ensures NativeInv(CallSyncStep(link, n, others), n)
  {
    hide CallSyncStep, Inv, ContinuousFor, SyncFrames, RacedFrames, Mine, LiveEvents, Describes, Paged;
    var link' := CallSyncStep(link, n, others);
    CallSyncEffect(link, n, others);
    NothingMine(n);
    EmptyRaced(link.worker.session);
    NoEventsInside([]);
    assert link'.world.notes[|link'.world.notes|..] == [];
    assert link'.sent + link'.queue.outgoing == link.sent + link.queue.outgoing + [];
    StaysContinuous(link, link', []);
  }

  lemma SyncVerdict(q: Queue, n: ChannelId, others: Ports, sync: Sync)
    ensures SyncPorts(q, n, others)(n, SyncHandoff(sync)) <==> PortStep(q, SyncHandoff(sync)).1 == Accepted
  {
  }

  // ---------- Completing a subscription ----------

  /** The frames a subscription page becomes, spelled out. */
  ghost function Batch(w: Worker, raced: seq<Frame>): seq<Frame>
    requires w.Synced? && w.outcome.through > 0
  {
    [SubscriptionResult(w.request, w.session, if w.outcome.subscribed then SubscribedNow else CatchingUp,
                        w.outcome.through, w.outcome.pendingCount, w.outcome.eventCount, w.outcome.reset)]
    + EventFrames(w.sync.events)
    + (if w.sync.baseline.Some?
       then [SubscriptionSession(w.request, w.sync.baseline.value.session)]
            + InteractionFrames(w.request, w.sync.baseline.value.pending)
       else [])
    + [SyncCompleted(w.request)]
    + raced
  }

  ghost function Raced(link: Link, n: ChannelId): seq<Frame>
    requires link.worker.Synced? && link.worker.since <= |link.world.notes|
  {
    RacedFrames(Mine(link.world.notes[link.worker.since..], n), link.worker.session)
  }

  /** Completing a subscription queues, all at once, the result, exactly as many events as it
      announces, on the final page the session and exactly as many interactions as it announces,
      the completion, and every live frame that raced the page, in order of arrival; together the
      events are the history after the page's start. It fails exactly when two more frames do not fit. */
  lemma SyncBatchIsWellFormed(link: Link, n: ChannelId)
    requires NativeInv(link, n) && link.worker.Synced?
    ensures var w, link' := link.worker, Next(link, n, FinishSubscribe);
            var h := HistoryOf(link.world, w.session);
            && w.outcome.through > 0 && w.since <= |link.world.notes|
            && w.outcome.eventCount == |EventFrames(w.sync.events)|
            && (w.outcome.subscribed <==> w.sync.baseline.Some?)
            && w.outcome.pendingCount == (if w.outcome.subscribed then |w.sync.baseline.value.pending| else 0)
            && EventsOf(w.sync.events) == h[w.outcome.through - w.outcome.eventCount..w.outcome.through]
            && (if w.outcome.subscribed then link.queue.aborted || LiveEvents(Raced(link, n)) == h[w.outcome.through..]
                else Raced(link, n) == [])
            && link'.world == link.world && link'.sent == link.sent && link'.queue.capacity == link.queue.capacity
            && if Overflows(link) then
                 && link'.worker == Closing(Subs(link.queue)) && link'.queue.aborted
                 && link'.queue.outgoing == link.queue.outgoing && link'.queue.PendingOf().None?
                 && Subs(link'.queue) == Subs(link.queue)
               else
                 && link'.worker == Ready && link'.queue.aborted == link.queue.aborted
                 && link'.queue.outgoing == link.queue.outgoing + Batch(w, Raced(link, n))
                 && link'.queue.PendingOf().None?
                 && Subs(link'.queue) == Subs(link.queue) + if w.outcome.subscribed then {w.session} else {}
  {
    hide Inv, Continuous, Agreement, EventsOf, EventFrames, InteractionFrames, RacedFrames, Mine, LiveEvents, Concerns;
    var q, w := link.queue, link.worker;
    BatchIsBatch(w, link.queue.PendingOf().value);
    EventFramesLength(w.sync.events);
    assert QueuedLen(q.SetPending(None)) == |q.outgoing|;
    assert |SyncBatch(q.PendingOf().value, w.outcome)| ==
           |q.PendingOf().value.frames| + |q.PendingOf().value.trailing| + 2;
  }

  lemma EventFramesLength(events: seq<RoutedEvent>)
    ensures |EventFrames(events)| == |events|
  {
  }

  lemma BatchIsBatch(w: Worker, p: PendingSubscription)
    requires w.Synced? && w.outcome.through > 0 && p.request == w.request && p.session == w.session
    requires p.frames == SyncFrames(w.request, w.sync)
    ensures SyncBatch(p, w.outcome) == Batch(w, p.trailing)
  {
    hide EventFrames, InteractionFrames;
  }

  /** The batch after its result frame. */
  ghost function BatchRest(w: Worker, raced: seq<Frame>): seq<Frame>
    requires w.Synced?
  {
    var tail := if w.sync.baseline.Some?
                then [SubscriptionSession(w.request, w.sync.baseline.value.session)]
                     + InteractionFrames(w.request, w.sync.baseline.value.pending)
                else [];
    EventFrames(w.sync.events) + (tail + [SyncCompleted(w.request)]) + raced
  }

  lemma RestConcerns(w: Worker, raced: seq<Frame>)
    requires w.Synced? && Concerns(raced, w.session)
    requires forall i :: 0 <= i < |w.sync.events| ==> w.sync.events[i].event.sessionId == w.session
    ensures Concerns(BatchRest(w, raced), w.session)
    ensures LiveEvents(BatchRest(w, raced)) == EventsOf(w.sync.events) + LiveEvents(raced)
  {
    hide EventsOf, LiveEvents;
    var events := EventFrames(w.sync.events);
    var tail := if w.sync.baseline.Some?
                then [SubscriptionSession(w.request, w.sync.baseline.value.session)]
                     + InteractionFrames(w.request, w.sync.baseline.value.pending)
                else [];
    var closing := tail + [SyncCompleted(w.request)];
    LiveEventsConcat(events, closing);
    LiveEventsConcat(events + closing, raced);
    EventFramesCarryEvents(w.sync.events);
    NoEventsInside(closing);
  }

  /** Reading the batch reads its result, then the page's events, then those that raced it. */
  lemma ReadBatch(v: Reading, w: Worker, raced: seq<Frame>, s: SessionId)
    requires w.Synced? && w.outcome.through > 0 && Concerns(raced, w.session)
    requires forall i :: 0 <= i < |w.sync.events| ==> w.sync.events[i].event.sessionId == w.session
    ensures ReadAll(v, Batch(w, raced), s) ==
            if s != w.session then v
            else
              var anew := !v.open || w.outcome.reset;
              Reading(w.outcome.through, true, if !anew then v.start else if w.outcome.reset then 0 else v.cursor,
                      (if anew then [] else v.events) + (EventsOf(w.sync.events) + LiveEvents(raced)))
  {
    hide EventsOf, LiveEvents, Concerns, EventFrames, InteractionFrames;
    var b, rest := Batch(w, raced), BatchRest(w, raced);
    assert b == [b[0]] + rest;
    ReadConcat(v, [b[0]], rest, s);
    ReadOne(v, b[0], s);
    RestConcerns(w, raced);
    ReadConcerned(Read(v, b[0], s), rest, w.session, s);
  }

  lemma ReadOne(v: Reading, frame: Frame, s: SessionId)
    ensures ReadAll(v, [frame], s) == Read(v, frame, s)
  {
    assert [frame][..0] == [];
  }

  /** Completing a subscription keeps Bridge and connection in agreement exactly unless the
      final page's batch does not fit: then the Bridge keeps a subscription the connection never records. */
  lemma AgreementNeedsRoom(link: Link, n: ChannelId)
    requires NativeInv(link, n) && link.worker.Synced?
    ensures Agreement(Next(link, n, FinishSubscribe), n) <==> !(link.worker.outcome.subscribed && Overflows(link))
  {
    hide Inv, Continuous, Next, Batch, EventsOf, EventFrames, RacedFrames, Mine, LiveEvents, Concerns;
    SyncBatchIsWellFormed(link, n);
    var link' := Next(link, n, FinishSubscribe);
    if link.worker.outcome.subscribed {
      assert link.world.bridge.IsSubscribed(n, link.worker.session);
    }
    if !(link.worker.outcome.subscribed && Overflows(link)) {
      assert Expected(link') == Expected(link);
    }
  }

  lemma SlicesJoin(h: seq<AgentEvent>, start: nat, after: nat, through: nat)
    requires start <= after <= through <= |h|
    ensures h[start..after] + h[after..through] == h[start..through]
    ensures h[start..after] + (h[after..through] + h[through..]) == h[start..]
    ensures h[after..through] + h[through..] == h[after..]
  {
  }

  /** A page that starts at the client's cursor, or over, continues what it read of the session. */
  lemma PageContinues(v: Reading, w: Worker, h: seq<AgentEvent>, raced: seq<Frame>)
    requires w.Synced? && Describes(w.outcome, w.sync) && Paged(h, w.session, w.sync) && Concerns(raced, w.session)
    requires w.sync.after == if w.sync.reset then 0 else v.cursor
    requires v.open ==> v.start <= v.cursor <= |h| && v.events == h[v.start..v.cursor]
    ensures var v' := ReadAll(v, Batch(w, raced), w.session);
            && v'.open && v'.cursor == w.outcome.through && v'.start <= v'.cursor <= |h|
            && (LiveEvents(raced) == [] ==> v'.events == h[v'.start..v'.cursor])
            && (LiveEvents(raced) == h[w.outcome.through..] ==> v'.events == h[v'.start..])
  {
    hide Batch, EventsOf, LiveEvents, ReadAll, Concerns;
    ReadBatch(v, w, raced, w.session);
    var anew := !v.open || w.outcome.reset;
    SlicesJoin(h, if anew then w.sync.after else v.start, w.sync.after, w.sync.through);
    var page, late := EventsOf(w.sync.events), LiveEvents(raced);
    assert page + [] == page && [] + (page + late) == page + late;
  }

  /** The page continues what was read of its session: its first event is the one after the client's
      cursor, and the raced frames carry on from its last. */
  lemma PageExtendsReading(link: Link, n: ChannelId)
    requires NativeInv(link, n) && link.worker.Synced?
    ensures link.worker.since <= |link.world.notes| && link.worker.outcome.through > 0
    ensures var w, h := link.worker, HistoryOf(link.world, link.worker.session);
            var v := ReadAll(ReadingOf(link, w.session), Batch(w, Raced(link, n)), w.session);
            && v.open && v.cursor == w.outcome.through && v.start <= v.cursor <= |h|
            && (!w.outcome.subscribed ==> v.events == h[v.start..v.cursor])
            && (w.outcome.subscribed && !link.queue.aborted ==> v.events == h[v.start..])
  {
    hide Inv, Batch, EventsOf, RacedFrames, Mine, LiveEvents, ReadAll, SyncFrames, Agreement, Concerns, Paged,
         Describes, AfterCursor;
    var w, h := link.worker, HistoryOf(link.world, link.worker.session);
    assert ContinuousFor(link, w.session);
    DescribedIsPositive(w.outcome, w.sync);
    NoEventsInside([]);
    PageContinues(ReadingOf(link, w.session), w, h, Raced(link, n));
  }

  lemma DescribedIsPositive(outcome: SyncOutcome, sync: Sync)
    requires Describes(outcome, sync)
    ensures outcome.through > 0 && outcome.through == sync.through && outcome.reset == sync.reset
  {
  }

  lemma FinishKeepsInv(link: Link, n: ChannelId)
    requires NativeInv(link, n) && link.worker.Synced? && !(link.worker.outcome.subscribed && Overflows(link))
    ensures NativeInv(Next(link, n, FinishSubscribe), n)
  {
    hide Inv, Next, Batch, EventsOf, EventFrames, RacedFrames, Mine, LiveEvents, ReadAll, SyncFrames, AfterCursor;
    SyncBatchIsWellFormed(link, n);
    AgreementNeedsRoom(link, n);
    FinishCursors(link, n);
    var link', w := Next(link, n, FinishSubscribe), link.worker;
    var raced, stream := Raced(link, n), link.sent + link.queue.outgoing;
    if Overflows(link) {
      assert link'.sent + link'.queue.outgoing == stream + [];
      NothingIsSilent();
      StaysContinuous(link, link', []);
    } else {
      assert link'.sent + link'.queue.outgoing == stream + Batch(w, raced);
      forall s ensures ContinuousFor(link', s) {
        assert ContinuousFor(link, s);
        ReadConcat(Resumed(link.resume, s), stream, Batch(w, raced), s);
        if s == w.session {
          PageExtendsReading(link, n);
        } else {
          ReadBatch(ReadingOf(link, s), w, raced, s);
        }
      }
    }
  }

  /** Completing moves the stored cursor of its own session to the end of the page, and no other. */
  lemma FinishCursors(link: Link, n: ChannelId)
    requires NativeInv(link, n) && link.worker.Synced?
    ensures var q' := Next(link, n, FinishSubscribe).queue;
            forall s :: AfterCursor(q', s) ==
              if s == link.worker.session && !Overflows(link) then link.worker.outcome.through
              else AfterCursor(link.queue, s)
    ensures Next(link, n, FinishSubscribe).resume == link.resume
    ensures Next(link, n, FinishSubscribe).queue.client.Some?
  {
    hide Inv, Continuous, Agreement, EventsOf, EventFrames, InteractionFrames, RacedFrames, Mine, LiveEvents, Concerns,
         SyncFrames;
    var q, w := link.queue, link.worker;
    assert QueuedLen(q.SetPending(None)) == |q.outgoing|;
    assert |SyncBatch(q.PendingOf().value, w.outcome)| ==
           |q.PendingOf().value.frames| + |q.PendingOf().value.trailing| + 2;
  }

  // ---------- Whole runs ----------

  ghost predicate LosesSubscription(link: Link, move: Move) {
    move.FinishSubscribe? && link.worker.Synced? && link.worker.outcome.subscribed && Overflows(link)
  }

  /** Every move keeps the invariant, except completing a final page that does not fit. */
  lemma MoveKeepsInv(link: Link, n: ChannelId, move: Move)
    requires NativeInv(link, n) && move.Legal() && !LosesSubscription(link, move)
    ensures NativeInv(Next(link, n, move), n)
  {
    hide NativeInv, EmitStep, CallSyncStep, SubscribeStep;
    match move
    case Elsewhere(op) =>
      if OtherChannel(op, n) { ElsewhereKeepsInv(link, n, op); }
    case Emit(from, e, others) => EmitKeepsInv(link, n, from, e, others);
    case Accept(_) => ConnectionKeepsInv(link, n, move);
    case TakeSnapshot(request) => SnapshotKeepsInv(link, n, request);
    case PublishDiscovery => DiscoverKeepsInv(link, n);
    case AskSubscribe(request, session) => AskSubscribeKeepsInv(link, n, request, session);
    case CallSync(others) =>
      if link.worker.Marked? { CallSyncKeepsInv(link, n, others); }
    case ReportSyncFailure => BookkeepingKeepsInv(link, n, move);
    case FinishSubscribe =>
      if link.worker.Synced? { FinishKeepsInv(link, n); }
    case AskUnsubscribe(request, session) => AskUnsubscribeKeepsInv(link, n, request, session);
    case ForgetSubscription => BookkeepingKeepsInv(link, n, move);
    case AskAction(_, _) => BookkeepingKeepsInv(link, n, move);
    case Answer => AnswerKeepsInv(link, n);
    case StartClose => ConnectionKeepsInv(link, n, move);
    case CloseOne(session) => CloseOneKeepsInv(link, n, session);
    case FinishClose => ConnectionKeepsInv(link, n, move);
    case Drain => DrainKeepsInv(link, n);
  }

  ghost function RunLink(link: Link, n: ChannelId, moves: seq<Move>): Link {
    if moves == [] then link
    else Next(RunLink(link, n, moves[..|moves| - 1]), n, moves[|moves| - 1])
  }

  /** A Bridge with one registered Channel and no connection yet. */
  ghost function Unconnected(config: Config, channel: ChannelDescriptor, capacity: nat): Link {
    Link(Step(Fresh(config), AddChannel(channel)), Queue(None, [], false, capacity), Ready, [], map[])
  }

  ghost predicate RoomyRun(link: Link, n: ChannelId, moves: seq<Move>) {
    forall i :: 0 <= i < |moves| ==> moves[i].Legal() && !LosesSubscription(RunLink(link, n, moves[..i]), moves[i])
  }

  lemma UnconnectedInv(config: Config, channel: ChannelDescriptor, capacity: nat)
    ensures NativeInv(Unconnected(config, channel, capacity), channel.id)
  {
  }

  /** In every run in which no final page overflows, after every move the Bridge's subscriptions for
      the native channel are those of the connection (plus the session whose final page was handed
      over and minus the one being left). For each session, the client's cursor is the stored one; all
      events read since its subscription's first page are, between pages, the history from the cursor
      it started at to that cursor, and once subscribed the history from there to the head, unless a
      frame was refused. */
  lemma {:induction false} SubscriptionsAgreeAndStreamsContinue(config: Config, channel: ChannelDescriptor,
                                                                capacity: nat, moves: seq<Move>)
    requires RoomyRun(Unconnected(config, channel, capacity), channel.id, moves)
    ensures var link := RunLink(Unconnected(config, channel, capacity), channel.id, moves);
            && NativeInv(link, channel.id)
            && (forall s :: link.world.bridge.IsSubscribed(channel.id, s) <==> s in Expected(link))
            && (link.queue.client.Some? ==> forall s :: ContinuousFor(link, s))
  {
    hide Next, Inv, Shape, ContinuousFor, LosesSubscription, Unconnected, Expected, Subs;
    var start := Unconnected(config, channel, capacity);
    UnconnectedInv(config, channel, capacity);
    if moves != [] {
      var k := |moves| - 1;
      forall i | 0 <= i < k
        ensures moves[..k][i].Legal() && !LosesSubscription(RunLink(start, channel.id, moves[..k][..i]), moves[..k][i])
      {
        assert moves[..k][..i] == moves[..i];
      }
      SubscriptionsAgreeAndStreamsContinue(config, channel, capacity, moves[..k]);
      MoveKeepsInv(RunLink(start, channel.id, moves[..k]), channel.id, moves[k]);
    }
  }
}
