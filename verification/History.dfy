/** What the reducer means over whole streams: an aggregate is exactly a function of its history,
    told here without the reducer's own steps. */
module History {
  import opened Core
  import opened Aggregates

  /** Sequences 1, 2, 3, ... with no gap and no repeat. */
  ghost predicate Strict(h: seq<AgentEvent>) {
    forall i :: 0 <= i < |h| ==> h[i].sequence == i + 1
  }

  /** Every event the program can hold went through its constructor. */
  ghost predicate Built(h: seq<AgentEvent>) {
    forall i :: 0 <= i < |h| ==> h[i].Constructible()
  }

  /** `h` is the stream of applied events that built `a`. */
  ghost predicate IsHistory(h: seq<AgentEvent>, a: Aggregate) {
    Strict(h) && Built(h) && Replay(h, a.config) == Ok(a)
  }

  // ---------- Building and unbuilding a history ----------

  ghost function Before(h: seq<AgentEvent>, a: Aggregate): (prev: Aggregate)
    requires IsHistory(h, a) && |h| > 1
    ensures IsHistory(h[..|h| - 1], prev)
    ensures prev.config == a.config
    ensures ApplyEvent(prev, h[|h| - 1]) == (a, Ok(Applied))
    ensures Reduce(prev, h[|h| - 1]) == Ok(a.(lastEvent := prev.lastEvent, recent := prev.recent))
    ensures a.lastEvent == h[|h| - 1] && a.recent == Retain(a.config, prev.recent, h[|h| - 1])
    ensures h[|h| - 1].sessionId == prev.session.id
  {
    hide Reduce;
    var n := |h| - 1;
    var prev := Replay(h[..n], a.config).value;
    LastIsLast(h[..n], prev, a.config);
    prev
  }

  lemma {:induction false} LastIsLast(h: seq<AgentEvent>, a: Aggregate, config: Config)
    requires Replay(h, config) == Ok(a)
    ensures h != [] && a.lastEvent == h[|h| - 1] && a.config == config
  {
    hide Reduce;
    if |h| > 1 {
      LastIsLast(h[..|h| - 1], Replay(h[..|h| - 1], config).value, config);
    }
  }

  lemma Extend(h: seq<AgentEvent>, a: Aggregate, e: AgentEvent)
    requires IsHistory(h, a) && e.Constructible() && ApplyEvent(a, e).1 == Ok(Applied)
    ensures IsHistory(h + [e], ApplyEvent(a, e).0)
    ensures e.sequence == |h| + 1 && e.sessionId == a.session.id
  {
    hide Reduce;
    LastIsLast(h, a, a.config);
    assert (h + [e])[..|h|] == h;
  }

  lemma Start(e: AgentEvent, config: Config)
    requires e.Constructible() && Initial(e, config).Ok?
    ensures IsHistory([e], Initial(e, config).value)
  {
  }

  /** All events of a history belong to its session; only the first one starts it, and the
      identity of the session never changes. */
  lemma {:induction false} Identity(h: seq<AgentEvent>, a: Aggregate)
    requires IsHistory(h, a)
    ensures |h| >= 1 && a.lastEvent == h[|h| - 1] && a.LastSequence() == |h|
    ensures forall i :: 0 <= i < |h| ==> h[i].sessionId == a.session.id
    ensures forall i :: 0 <= i < |h| ==> (h[i].payload.SessionStarted? <==> i == 0)
    ensures a.session.id == h[0].payload.session.id
    ensures a.session.providerId == h[0].payload.session.providerId
    ensures a.session.createdAt == h[0].payload.session.createdAt
    ensures a.session.externalId == h[0].payload.session.externalId
    ensures a.session.title == h[0].payload.session.title
    ensures a.session.workspace == h[0].payload.session.workspace
    decreases |h|
  {
    hide Reduce, ApplyEvent;
    LastIsLast(h, a, a.config);
    if |h| > 1 {
      var prev := Before(h, a);
      Identity(h[..|h| - 1], prev);
      SessionStep(prev, h[|h| - 1], a.(lastEvent := prev.lastEvent, recent := prev.recent));
    }
  }

  // ---------- One reduction step, one aspect at a time ----------

  lemma SessionStep(a: Aggregate, e: AgentEvent, b: Aggregate)
    requires Reduce(a, e) == Ok(b)
    ensures b.session == a.session.(state := b.session.state, connection := b.session.connection,
                                    revision := b.session.revision, updatedAt := b.session.updatedAt)
    ensures b.session.revision == a.session.revision + if e.payload.UpdatesSession() then 1 else 0
    ensures b.session.updatedAt ==
            if e.payload.UpdatesSession() then Later(a.session.updatedAt, e.occurredAt) else a.session.updatedAt
  {
  }

  lemma SlotStep(a: Aggregate, e: AgentEvent, b: Aggregate)
    requires Reduce(a, e) == Ok(b)
    ensures b.session.state == if Sets(e, StateSlot) then StateOf(e) else a.session.state
    ensures b.session.connection == if Sets(e, ConnectionSlot) then ConnectionOf(e) else a.session.connection
    ensures b.plan == if Sets(e, PlanSlot) then Some(e.payload.plan) else a.plan
    ensures b.progress == if Sets(e, ProgressSlot) then Some(e.payload.progress) else a.progress
    ensures b.outcome == if Sets(e, OutcomeSlot) then Some(e.payload.outcome) else a.outcome
    ensures Sets(e, PlanSlot) && a.plan.Some? ==> a.plan.value.revision < e.payload.plan.revision
    ensures Sets(e, ProgressSlot) && a.progress.Some? ==> a.progress.value.revision < e.payload.progress.revision
  {
  }

  lemma PendingStep(a: Aggregate, e: AgentEvent, b: Aggregate, id: InteractionId)
    requires Reduce(a, e) == Ok(b)
    ensures if e.payload.InteractionRequested? && e.payload.request.id == id then
              id !in a.pending && id in b.pending && b.pending[id] == e.payload.request
            else
              && (id in b.pending <==> id in a.pending && !Settles(e, id))
              && (id in b.pending ==> b.pending[id] == a.pending[id])
  {
  }

  lemma ToolStep(a: Aggregate, e: AgentEvent, b: Aggregate, call: ToolCallId)
    requires Reduce(a, e) == Ok(b)
    ensures if e.payload.ToolStarted? && e.payload.startedCall == call then
              call !in a.tools && call in b.tools
              && b.tools[call] == ActiveToolCall(call, e.payload.name, e.payload.startSummary, e.occurredAt)
            else
              && (call in b.tools <==> call in a.tools && !Finishes(e, call))
              && (call in b.tools ==> b.tools[call] == a.tools[call])
  {
  }

  lemma RetentionStep(a: Aggregate, e: AgentEvent, config: Config, recent: seq<AgentEvent>)
    ensures var r, r' := Reduce(a, e), Reduce(a.(config := config, recent := recent), e);
            if r.Err? then r' == r else r' == Ok(r.value.(config := config, recent := recent))
  {
  }

  // ---------- The session snapshot as a summary of the stream ----------

  ghost function SessionUpdates(h: seq<AgentEvent>): nat {
    if h == [] then 0
    else SessionUpdates(h[..|h| - 1]) + if h[|h| - 1].payload.UpdatesSession() then 1 else 0
  }

  ghost predicate IsUpdateTime(h: seq<AgentEvent>, t: Timestamp) {
    || (h != [] && h[0].payload.SessionStarted? && t == h[0].payload.session.updatedAt)
    || (exists i :: 0 < i < |h| && h[i].payload.UpdatesSession() && h[i].occurredAt == t)
  }

  /** The revision counts the updates, `updatedAt` is the latest update time, and a constructible
      first snapshot keeps `createdAt <= updatedAt` for ever. */
  lemma {:induction false} SessionSummary(h: seq<AgentEvent>, a: Aggregate)
    requires IsHistory(h, a)
    ensures h[0].payload.SessionStarted?
    ensures a.session.revision == h[0].payload.session.revision + SessionUpdates(h)
    ensures IsUpdateTime(h, a.session.updatedAt)
    ensures forall t :: IsUpdateTime(h, t) ==> t <= a.session.updatedAt
    ensures a.session.Constructible()
    decreases |h|
  {
    hide Reduce, ApplyEvent;
    Identity(h, a);
    if |h| == 1 {
      assert SessionUpdates(h[..0]) == 0;
    } else {
      var n := |h| - 1;
      var earlier := h[..n];
      var prev := Before(h, a);
      Identity(earlier, prev);
      SessionSummary(earlier, prev);
      SessionStep(prev, h[n], a.(lastEvent := prev.lastEvent, recent := prev.recent));
      forall t ensures IsUpdateTime(h, t) <==>
                       IsUpdateTime(earlier, t) || (h[n].payload.UpdatesSession() && h[n].occurredAt == t)
      {
        if IsUpdateTime(earlier, t) && t != h[0].payload.session.updatedAt {
          var i :| 0 < i < n && earlier[i].payload.UpdatesSession() && earlier[i].occurredAt == t;
          assert h[i] == earlier[i];
        }
        if IsUpdateTime(h, t) && t != h[0].payload.session.updatedAt {
          var i :| 0 < i < |h| && h[i].payload.UpdatesSession() && h[i].occurredAt == t;
          assert i < n ==> h[i] == earlier[i];
        }
      }
    }
  }

  /** The parts of the projection that one event replaces as a whole. */
  datatype Slot = StateSlot | ConnectionSlot | PlanSlot | ProgressSlot | OutcomeSlot

  ghost predicate Sets(e: AgentEvent, slot: Slot) {
    match slot
    case StateSlot => e.payload.SessionStarted? || e.payload.StateChanged? || e.payload.SessionEnded?
    case ConnectionSlot => e.payload.SessionStarted? || e.payload.ConnectionChanged?
    case PlanSlot => e.payload.PlanUpdated?
    case ProgressSlot => e.payload.ProgressUpdated?
    case OutcomeSlot => e.payload.SessionEnded?
  }

  /** The position of the newest event that sets `slot`, or -1. */
  ghost function Newest(h: seq<AgentEvent>, slot: Slot): (k: int)
    ensures -1 <= k < |h|
    ensures k >= 0 ==> Sets(h[k], slot)
    ensures forall i :: k < i < |h| ==> !Sets(h[i], slot)
  {
    if h == [] then -1
    else if Sets(h[|h| - 1], slot) then |h| - 1
    else Newest(h[..|h| - 1], slot)
  }

  ghost function StateOf(e: AgentEvent): AgentState
    requires e.payload.SessionStarted? || e.payload.StateChanged? || e.payload.SessionEnded?
  {
    match e.payload
    case SessionStarted(session) => session.state
    case StateChanged(state) => state
    case SessionEnded(RunCompleted(_)) => Completed
    case SessionEnded(RunFailed(_)) => Failed
    case SessionEnded(RunCancelled(_)) => Cancelled
  }

  ghost function ConnectionOf(e: AgentEvent): ConnectionState
    requires e.payload.SessionStarted? || e.payload.ConnectionChanged?
  {
    if e.payload.SessionStarted? then e.payload.session.connection else e.payload.connection
  }

  /** Each scalar of the projection is the content of the newest event that sets it. */
  lemma {:induction false} NewestWins(h: seq<AgentEvent>, a: Aggregate)
    requires IsHistory(h, a)
    ensures var k := Newest(h, StateSlot); k >= 0 && a.session.state == StateOf(h[k])
    ensures var k := Newest(h, ConnectionSlot); k >= 0 && a.session.connection == ConnectionOf(h[k])
    ensures var k := Newest(h, PlanSlot); a.plan == if k < 0 then None else Some(h[k].payload.plan)
    ensures var k := Newest(h, ProgressSlot); a.progress == if k < 0 then None else Some(h[k].payload.progress)
    ensures var k := Newest(h, OutcomeSlot); a.outcome == if k < 0 then None else Some(h[k].payload.outcome)
    decreases |h|
  {
    hide Reduce, ApplyEvent;
    Identity(h, a);
    if |h| == 1 {
      assert Newest(h[..0], PlanSlot) == -1;
      assert Newest(h[..0], ProgressSlot) == -1;
      assert Newest(h[..0], OutcomeSlot) == -1;
    } else {
      var prev := Before(h, a);
      NewestWins(h[..|h| - 1], prev);
      SlotStep(prev, h[|h| - 1], a.(lastEvent := prev.lastEvent, recent := prev.recent));
    }
  }

  /** Along a history the plan revisions strictly increase. */
  lemma {:induction false} PlanRevisionsIncrease(h: seq<AgentEvent>, a: Aggregate, i: nat, j: nat)
    requires IsHistory(h, a) && i < j < |h| && h[i].payload.PlanUpdated? && h[j].payload.PlanUpdated?
    ensures h[i].payload.plan.revision < h[j].payload.plan.revision
    decreases |h|
  {
    hide Reduce, ApplyEvent, Replay;
    var n := |h| - 1;
    var earlier := h[..n];
    var prev := Before(h, a);
    if j < n {
      PlanRevisionsIncrease(earlier, prev, i, j);
    } else {
      NewestWins(earlier, prev);
      SlotStep(prev, h[n], a.(lastEvent := prev.lastEvent, recent := prev.recent));
      assert Sets(earlier[i], PlanSlot);
      var k := Newest(earlier, PlanSlot);
      if i < k {
        PlanRevisionsIncrease(earlier, prev, i, k);
      }
    }
  }

  /** Along a history the progress revisions strictly increase. */
  lemma {:induction false} ProgressRevisionsIncrease(h: seq<AgentEvent>, a: Aggregate, i: nat, j: nat)
    requires IsHistory(h, a) && i < j < |h| && h[i].payload.ProgressUpdated? && h[j].payload.ProgressUpdated?
    ensures h[i].payload.progress.revision < h[j].payload.progress.revision
    decreases |h|
  {
    hide Reduce, ApplyEvent, Replay;
    var n := |h| - 1;
    var earlier := h[..n];
    var prev := Before(h, a);
    if j < n {
      ProgressRevisionsIncrease(earlier, prev, i, j);
    } else {
      NewestWins(earlier, prev);
      SlotStep(prev, h[n], a.(lastEvent := prev.lastEvent, recent := prev.recent));
      assert Sets(earlier[i], ProgressSlot);
      var k := Newest(earlier, ProgressSlot);
      if i < k {
        ProgressRevisionsIncrease(earlier, prev, i, k);
      }
    }
  }

  // ---------- Pending interactions and active tools as open brackets ----------

  ghost predicate Settles(e: AgentEvent, id: InteractionId) {
    match e.payload
    case InteractionResponded(response) => response.requestId == id
    case InteractionClosed(closed, _, _) => closed == id
    case SessionEnded(_) => true
    case _ => false
  }

  /** `request` was asked at position `i` and nothing has settled it since. */
  ghost predicate OpenAt(h: seq<AgentEvent>, i: int, request: InteractionRequest) {
    && 0 <= i < |h|
    && h[i].payload == InteractionRequested(request)
    && forall j :: i < j < |h| ==> !Settles(h[j], request.id)
  }

  ghost predicate IsOpen(h: seq<AgentEvent>, request: InteractionRequest) {
    exists i :: OpenAt(h, i, request)
  }

  lemma OpenStep(h: seq<AgentEvent>, request: InteractionRequest)
    requires h != []
    ensures var n := |h| - 1;
            IsOpen(h, request) <==>
              || h[n].payload == InteractionRequested(request)
              || (IsOpen(h[..n], request) && !Settles(h[n], request.id))
  {
    var n := |h| - 1;
    var earlier := h[..n];
    if IsOpen(h, request) && h[n].payload != InteractionRequested(request) {
      var i :| OpenAt(h, i, request);
      assert OpenAt(earlier, i, request);
    }
    if h[n].payload == InteractionRequested(request) {
      assert OpenAt(h, n, request);
    } else if IsOpen(earlier, request) && !Settles(h[n], request.id) {
      var i :| OpenAt(earlier, i, request);
      assert OpenAt(h, i, request);
    }
  }

  /** A request is pending exactly when it was asked and no later response, closure or end of the
      run settled it. */
  lemma {:induction false} PendingIsOpen(h: seq<AgentEvent>, a: Aggregate, request: InteractionRequest)
    requires IsHistory(h, a)
    ensures (request.id in a.pending && a.pending[request.id] == request) <==> IsOpen(h, request)
    ensures request.id in a.pending ==> IsOpen(h, a.pending[request.id]) && a.pending[request.id].id == request.id
    decreases |h|
  {
    hide Reduce, ApplyEvent;
    Identity(h, a);
    OpenStep(h, request);
    if |h| == 1 {
      assert !IsOpen(h[..0], request);
    } else {
      var n := |h| - 1;
      var prev := Before(h, a);
      PendingIsOpen(h[..n], prev, request);
      PendingStep(prev, h[n], a.(lastEvent := prev.lastEvent, recent := prev.recent), request.id);
      if request.id in a.pending {
        OpenStep(h, a.pending[request.id]);
        if request.id in prev.pending {
          OpenStep(h, prev.pending[request.id]);
        }
      }
    }
  }

  ghost predicate Finishes(e: AgentEvent, call: ToolCallId) {
    e.payload.SessionEnded? || (e.payload.ToolFinished? && e.payload.finishedCall == call)
  }

  ghost predicate RunsAt(h: seq<AgentEvent>, i: int, tool: ActiveToolCall) {
    && 0 <= i < |h|
    && h[i].payload == ToolStarted(tool.id, tool.name, tool.summary)
    && h[i].occurredAt == tool.startedAt
    && forall j :: i < j < |h| ==> !Finishes(h[j], tool.id)
  }

  ghost predicate Runs(h: seq<AgentEvent>, tool: ActiveToolCall) {
    exists i :: RunsAt(h, i, tool)
  }

  ghost predicate StartsNow(e: AgentEvent, tool: ActiveToolCall) {
    e.payload == ToolStarted(tool.id, tool.name, tool.summary) && e.occurredAt == tool.startedAt
  }

  lemma RunsStep(h: seq<AgentEvent>, tool: ActiveToolCall)
    requires h != []
    ensures var n := |h| - 1;
            Runs(h, tool) <==> StartsNow(h[n], tool) || (Runs(h[..n], tool) && !Finishes(h[n], tool.id))
  {
    var n := |h| - 1;
    var earlier := h[..n];
    if Runs(h, tool) && !StartsNow(h[n], tool) {
      var i :| RunsAt(h, i, tool);
      assert RunsAt(earlier, i, tool);
    }
    if StartsNow(h[n], tool) {
      assert RunsAt(h, n, tool);
    } else if Runs(earlier, tool) && !Finishes(h[n], tool.id) {
      var i :| RunsAt(earlier, i, tool);
      assert RunsAt(h, i, tool);
    }
  }

  /** A tool call is active, with the name, summary and start time it was announced with, exactly
      when it started and neither finished nor was cut short by the end of the run. */
  lemma {:induction false} ActiveIsRunning(h: seq<AgentEvent>, a: Aggregate, tool: ActiveToolCall)
    requires IsHistory(h, a)
    ensures (tool.id in a.tools && a.tools[tool.id] == tool) <==> Runs(h, tool)
    ensures tool.id in a.tools ==> Runs(h, a.tools[tool.id]) && a.tools[tool.id].id == tool.id
    decreases |h|
  {
    hide Reduce, ApplyEvent;
    Identity(h, a);
    RunsStep(h, tool);
    if |h| == 1 {
      assert !Runs(h[..0], tool);
    } else {
      var n := |h| - 1;
      var prev := Before(h, a);
      ActiveIsRunning(h[..n], prev, tool);
      ToolStep(prev, h[n], a.(lastEvent := prev.lastEvent, recent := prev.recent), tool.id);
      if tool.id in a.tools {
        RunsStep(h, a.tools[tool.id]);
        if tool.id in prev.tools {
          RunsStep(h, prev.tools[tool.id]);
        }
      }
    }
  }

  // ---------- The retained window ----------

  /** The window is the whole history, or its last `capacity` events. */
  lemma {:induction false} WindowIsSuffix(h: seq<AgentEvent>, a: Aggregate)
    requires IsHistory(h, a)
    ensures a.recent == if a.config.retainAll then h else h[|h| - Min(a.config.capacity, |h|)..]
    decreases |h|
  {
    hide Reduce, ApplyEvent, Replay, Retain;
    if |h| > 1 {
      var n := |h| - 1;
      var prev := Before(h, a);
      WindowIsSuffix(h[..n], prev);
      assert h == h[..n] + [h[n]];
      RetainSuffix(a.config, h[..n], h[n]);
    } else {
      FirstWindow(h, a);
    }
  }

  /** Appending to a suffix window keeps it a suffix window. */
  lemma RetainSuffix(config: Config, h: seq<AgentEvent>, e: AgentEvent)
    ensures var recent := if config.retainAll then h else h[|h| - Min(config.capacity, |h|)..];
            Retain(config, recent, e) ==
            if config.retainAll then h + [e] else (h + [e])[|h| + 1 - Min(config.capacity, |h| + 1)..]
  {
  }

  lemma FirstWindow(h: seq<AgentEvent>, a: Aggregate)
    requires IsHistory(h, a) && |h| <= 1
    ensures a.recent == if a.config.retainAll then h else h[|h| - Min(a.config.capacity, |h|)..]
  {
  }

  lemma {:induction false} EventsAfterIsSlice(h: seq<AgentEvent>, from: nat, after: nat)
    requires Strict(h) && from <= after + 1 && from <= |h| && after <= |h|
    ensures EventsAfter(h[from..], after) == if from <= after then h[after..] else h[from..]
    decreases |h| - from
  {
    if from < |h| {
      assert h[from..][0] == h[from] && h[from..][1..] == h[from + 1..];
      if from < after {
        EventsAfterIsSlice(h, from + 1, after);
      } else {
        EventsAfterAll(h[from + 1..], after, from + 1, h);
      }
    }
  }

  lemma {:induction false} EventsAfterAll(tail: seq<AgentEvent>, after: nat, from: nat, h: seq<AgentEvent>)
    requires Strict(h) && from <= |h| && tail == h[from..] && after <= from
    ensures EventsAfter(tail, after) == tail
    decreases |tail|
  {
    if tail != [] {
      assert tail[1..] == h[from + 1..];
      EventsAfterAll(tail[1..], after, from + 1, h);
    }
  }

  ghost function Min(a: nat, b: nat): nat {
    if a < b then a else b
  }

  /** The cursor can be served: it is at the head, or the event after it is still retained. */
  ghost predicate Covered(a: Aggregate, h: seq<AgentEvent>, after: nat) {
    || after == |h|
    || (after < |h| && (a.config.retainAll || |h| - after <= a.config.capacity))
  }

  lemma WindowSlice(h: seq<AgentEvent>, from: nat, after: nat, limit: nat)
    requires Strict(h) && from <= after < |h|
    ensures var events := EventsAfter(h[from..], after);
            (if |events| > limit then events[..limit] else events) == h[after..after + Min(limit, |h| - after)]
  {
    EventsAfterIsSlice(h, from, after);
    var events := h[after..];
    assert |events| > limit ==> events[..limit] == h[after..after + limit];
    assert |events| <= limit ==> events == h[after..after + (|h| - after)];
  }

  /** A page exists exactly for covered cursors, and is then the slice of the history after the
      cursor, cut at the limit. */
  lemma PageIsSlice(h: seq<AgentEvent>, a: Aggregate, after: U64, limit: nat)
    requires IsHistory(h, a)
    ensures Page(a, after, limit).Some? <==> Covered(a, h, after)
    ensures Page(a, after, limit).Some? ==>
              Page(a, after, limit).value == h[after..after + Min(limit, |h| - after)]
  {
    hide Replay;
    Identity(h, a);
    WindowIsSuffix(h, a);
    var from := if a.config.retainAll || |h| <= a.config.capacity then 0 else |h| - a.config.capacity;
    assert a.recent == h[from..];
    if from <= after < |h| {
      WindowSlice(h, from, after, limit);
    }
  }

  /** The number of page requests a client needs to reach the head when nothing new arrives. */
  ghost function CatchUpRequests(a: Aggregate, h: seq<AgentEvent>, after: U64, limit: nat): (requests: nat)
    requires IsHistory(h, a) && a.config.retainAll && after <= |h| && limit > 0
    decreases |h| - after
  {
    PageIsSlice(h, a, after, limit);
    Identity(h, a);
    var through := after + |Page(a, after, limit).value|;
    if through == |h| then 1 else 1 + CatchUpRequests(a, h, through, limit)
  }

  /** Catch-up takes exactly `max(1, ceil((last - after) / limit))` requests. */
  lemma {:induction false} CatchUpIsCeiling(a: Aggregate, h: seq<AgentEvent>, after: U64, limit: nat)
    requires IsHistory(h, a) && a.config.retainAll && after <= |h| && limit > 0
    ensures var requests := CatchUpRequests(a, h, after, limit);
            requests >= 1 && (requests - 1) * limit <= |h| - after <= requests * limit
            && (after < |h| ==> (requests - 1) * limit < |h| - after)
            && (after == |h| ==> requests == 1)
    decreases |h| - after
  {
    hide IsHistory, Page;
    PageIsSlice(h, a, after, limit);
    Identity(h, a);
    var through := after + |Page(a, after, limit).value|;
    if through < |h| {
      CatchUpIsCeiling(a, h, through, limit);
      OneMorePage(CatchUpRequests(a, h, through, limit), limit);
    }
  }

  lemma OneMorePage(pages: nat, limit: nat)
    ensures (pages + 1) * limit == pages * limit + limit
    ensures pages * limit == (pages - 1) * limit + limit
  {
  }

  // ---------- Replay ----------

  /** Drops every event equal to the one before it. */
  ghost function Dedup(s: seq<AgentEvent>): seq<AgentEvent> {
    if |s| <= 1 then s
    else
      var n := |s| - 1;
      if s[n] == s[n - 1] then Dedup(s[..n]) else Dedup(s[..n]) + [s[n]]
  }

  lemma RetryIsIdle(h: seq<AgentEvent>, a: Aggregate)
    requires IsHistory(h, a)
    ensures ApplyEvent(a, h[|h| - 1]) == (a, Ok(AlreadyApplied))
  {
    hide Reduce, Replay;
    Identity(h, a);
  }

  lemma ReplayOneMore(s: seq<AgentEvent>, config: Config, e: AgentEvent)
    requires s != []
    ensures Replay(s + [e], config) ==
            match Replay(s, config) {
              case Err(error) => Err(error)
              case Ok(a) =>
                var step := ApplyEvent(a, e);
                if step.1.Err? then Err(step.1.error) else Ok(step.0)
            }
  {
    hide Reduce, CheckCursor;
    assert (s + [e])[..|s|] == s;
  }

  /** Immediate retries never change what a replay returns, errors included; and a replay that
      succeeds has consumed a strict history. */
  lemma {:induction false} RetriesAreInvisible(s: seq<AgentEvent>, config: Config)
    requires Built(s)
    ensures Replay(s, config) == Replay(Dedup(s), config)
    ensures Replay(s, config).Ok? ==> IsHistory(Dedup(s), Replay(s, config).value)
    ensures s != [] ==> Dedup(s) != [] && Dedup(s)[|Dedup(s)| - 1] == s[|s| - 1]
    decreases |s|
  {
    hide ApplyEvent, Replay;
    if |s| > 1 {
      var n := |s| - 1;
      RetriesAreInvisible(s[..n], config);
      var d := Dedup(s[..n]);
      assert s == s[..n] + [s[n]];
      ReplayOneMore(s[..n], config, s[n]);
      ReplayOneMore(d, config, s[n]);
      if Replay(s[..n], config).Ok? {
        var a := Replay(s[..n], config).value;
        LastIsLast(d, a, config);
        if s[n] == s[n - 1] {
          RetryIsIdle(d, a);
        } else {
          FreshIsApplied(d, a, s[n]);
        }
      }
    } else if s == [] {
      ReplayNothing(config);
    } else {
      ReplayFirst(s[0], config);
      assert s == [s[0]];
      if Replay(s, config).Ok? {
        Start(s[0], config);
      }
    }
  }

  lemma ReplayNothing(config: Config)
    ensures Replay([], config) == Err(EmptyReplay)
  {
  }

  lemma ReplayFirst(e: AgentEvent, config: Config)
    ensures Replay([e], config) == Initial(e, config)
  {
  }

  /** An accepted event that is not the last one again extends the history. */
  lemma FreshIsApplied(h: seq<AgentEvent>, a: Aggregate, e: AgentEvent)
    requires IsHistory(h, a) && e.Constructible() && e != h[|h| - 1]
    ensures ApplyEvent(a, e).1.Ok? ==> IsHistory(h + [e], ApplyEvent(a, e).0)
  {
    hide Reduce, Replay;
    Identity(h, a);
    if ApplyEvent(a, e).1.Ok? {
      Extend(h, a, e);
    }
  }

  /** Everything but the retention settings and the window. */
  ghost function Projection(a: Aggregate): Aggregate {
    a.(config := RETAIN_ALL, recent := [])
  }

  /** Retention does not affect meaning: two configurations fed the same stream fail alike, or
      reach the same projection. */
  lemma {:induction false} RetentionIsInvisible(s: seq<AgentEvent>, c1: Config, c2: Config)
    ensures var r1, r2 := Replay(s, c1), Replay(s, c2);
            || (r1.Err? && r2.Err? && r1.error == r2.error)
            || (r1.Ok? && r2.Ok? && Projection(r1.value) == Projection(r2.value))
    decreases |s|
  {
    hide Reduce;
    if |s| > 1 {
      var n := |s| - 1;
      RetentionIsInvisible(s[..n], c1, c2);
      if Replay(s[..n], c1).Ok? {
        var a1, a2 := Replay(s[..n], c1).value, Replay(s[..n], c2).value;
        assert a2 == a1.(config := a2.config, recent := a2.recent);
        RetentionStep(a1, s[n], a2.config, a2.recent);
      }
    }
  }

  /** With complete retention, an aggregate's own window rebuilds the aggregate. */
  lemma WindowRebuildsAggregate(s: seq<AgentEvent>, a: Aggregate)
    requires Built(s) && Replay(s, RETAIN_ALL) == Ok(a)
    ensures Replay(a.recent, RETAIN_ALL) == Ok(a)
  {
    hide Reduce;
    RetriesAreInvisible(s, RETAIN_ALL);
    LastIsLast(s, a, RETAIN_ALL);
    WindowIsSuffix(Dedup(s), a);
  }
}
