/** Which events the reducer accepts, said of the stream alone. */
module Acceptance {
  import opened Core
  import opened Interaction
  import opened Aggregates
  import opened History

  ghost predicate OpenUnder(h: seq<AgentEvent>, id: InteractionId, request: InteractionRequest) {
    request.id == id && IsOpen(h, request)
  }

  ghost predicate RunsUnder(h: seq<AgentEvent>, call: ToolCallId, tool: ActiveToolCall) {
    tool.id == call && Runs(h, tool)
  }

  ghost predicate NewerPlan(h: seq<AgentEvent>, revision: Counter) {
    forall i :: 0 <= i < |h| && h[i].payload.PlanUpdated? ==> h[i].payload.plan.revision < revision
  }

  ghost predicate NewerProgress(h: seq<AgentEvent>, revision: Counter) {
    forall i :: 0 <= i < |h| && h[i].payload.ProgressUpdated? ==> h[i].payload.progress.revision < revision
  }

  /** What the stream so far must say for an event to be applied next. */
  ghost predicate Admissible(h: seq<AgentEvent>, e: AgentEvent)
    requires h != [] && h[0].payload.SessionStarted?
  {
    match e.payload
    case SessionStarted(_) => false
    case StateChanged(_) => h[0].payload.session.revision + SessionUpdates(h) < MAX_U64
    case ConnectionChanged(_) => h[0].payload.session.revision + SessionUpdates(h) < MAX_U64
    case SessionEnded(_) => h[0].payload.session.revision + SessionUpdates(h) < MAX_U64
    case Message(_, _, _) => true
    case CommandIssued(_) => true
    case ToolStarted(call, _, _) => forall tool :: !RunsUnder(h, call, tool)
    case ToolFinished(call, _, _) => exists tool :: RunsUnder(h, call, tool)
    case PlanUpdated(plan) => NewerPlan(h, plan.revision)
    case ProgressUpdated(progress) => NewerProgress(h, progress.revision)
    case InteractionRequested(request) => forall other :: !OpenUnder(h, request.id, other)
    case InteractionClosed(id, _, _) => exists request :: OpenUnder(h, id, request)
    case InteractionResponded(r) =>
      exists request :: OpenUnder(h, r.requestId, request) && request.sessionId == r.sessionId
        && Timely(request, r.respondedAt) && Answers(request.payload, r.payload)
  }

  /** A pending entry is the one open request under its identifier. */
  lemma PendingById(h: seq<AgentEvent>, a: Aggregate, id: InteractionId)
    requires IsHistory(h, a)
    ensures id in a.pending <==> exists request :: OpenUnder(h, id, request)
    ensures forall request :: OpenUnder(h, id, request) ==> id in a.pending && a.pending[id] == request
    ensures id in a.pending ==> OpenUnder(h, id, a.pending[id])
  {
    hide IsHistory, IsOpen;
    PendingIsOpen(h, a, InteractionRequest(id, 0, 0, None, SAMPLE_TEXT, TextRequest(None, false)));
    if id in a.pending {
      assert OpenUnder(h, id, a.pending[id]);
    }
    forall request | OpenUnder(h, id, request) ensures id in a.pending && a.pending[id] == request {
      PendingIsOpen(h, a, request);
    }
  }

  lemma ToolById(h: seq<AgentEvent>, a: Aggregate, call: ToolCallId)
    requires IsHistory(h, a)
    ensures call in a.tools <==> exists tool :: RunsUnder(h, call, tool)
  {
    hide IsHistory, Runs;
    ActiveIsRunning(h, a, ActiveToolCall(call, SAMPLE_TEXT, None, 0));
    if call in a.tools {
      assert RunsUnder(h, call, a.tools[call]);
    }
    forall tool | RunsUnder(h, call, tool) ensures call in a.tools {
      ActiveIsRunning(h, a, tool);
    }
  }

  /** The stored plan is the newest, so being newer than it is being newer than all. */
  lemma PlanIsNewest(h: seq<AgentEvent>, a: Aggregate, revision: Counter)
    requires IsHistory(h, a)
    ensures NewerPlan(h, revision) <==> a.plan.None? || a.plan.value.revision < revision
  {
    hide IsHistory;
    NewestWins(h, a);
    var k := Newest(h, PlanSlot);
    forall i | 0 <= i < |h| && h[i].payload.PlanUpdated?
      ensures k >= 0 && h[i].payload.plan.revision <= h[k].payload.plan.revision
    {
      assert Sets(h[i], PlanSlot);
      if i < k {
        PlanRevisionsIncrease(h, a, i, k);
      }
    }
  }

  lemma ProgressIsNewest(h: seq<AgentEvent>, a: Aggregate, revision: Counter)
    requires IsHistory(h, a)
    ensures NewerProgress(h, revision) <==> a.progress.None? || a.progress.value.revision < revision
  {
    hide IsHistory;
    NewestWins(h, a);
    var k := Newest(h, ProgressSlot);
    forall i | 0 <= i < |h| && h[i].payload.ProgressUpdated?
      ensures k >= 0 && h[i].payload.progress.revision <= h[k].payload.progress.revision
    {
      assert Sets(h[i], ProgressSlot);
      if i < k {
        ProgressRevisionsIncrease(h, a, i, k);
      }
    }
  }

  /** The payload is acceptable exactly when the stream so far admits it. */
  lemma ReductionIsExact(h: seq<AgentEvent>, a: Aggregate, e: AgentEvent)
    requires IsHistory(h, a) && e.Constructible()
    ensures h != [] && h[0].payload.SessionStarted?
    ensures Reduce(a, e).Ok? <==> Admissible(h, e)
  {
    hide IsHistory, OpenUnder, RunsUnder, NewerPlan, NewerProgress, ValidateResponse, Answers, Timely;
    Identity(h, a);
    match e.payload
    case ToolStarted(call, _, _) => ToolById(h, a, call);
    case ToolFinished(call, _, _) => ToolById(h, a, call);
    case PlanUpdated(plan) => PlanIsNewest(h, a, plan.revision);
    case ProgressUpdated(progress) => ProgressIsNewest(h, a, progress.revision);
    case InteractionRequested(request) => PendingById(h, a, request.id);
    case InteractionClosed(id, _, _) => PendingById(h, a, id);
    case InteractionResponded(r) => ResponseIsExact(h, a, e, r);
    case Message(_, _, _) =>
    case CommandIssued(_) =>
    case SessionStarted(_) =>
    case StateChanged(_) => SessionSummary(h, a);
    case ConnectionChanged(_) => SessionSummary(h, a);
    case SessionEnded(_) => SessionSummary(h, a);
  }

  lemma ResponseIsExact(h: seq<AgentEvent>, a: Aggregate, e: AgentEvent, r: InteractionResponse)
    requires IsHistory(h, a) && e.Constructible() && e.payload == InteractionResponded(r)
    requires h != [] && h[0].payload.SessionStarted?
    ensures Reduce(a, e).Ok? <==> Admissible(h, e)
  {
    hide IsHistory, IsOpen, ValidateResponse, Answers, Timely;
    PendingById(h, a, r.requestId);
    if r.requestId in a.pending {
      var request := a.pending[r.requestId];
      ValidationIsExact(request, r);
      if Reduce(a, e).Ok? {
        assert OpenUnder(h, r.requestId, request) && request.sessionId == r.sessionId
               && Timely(request, r.respondedAt) && Answers(request.payload, r.payload);
      }
    }
  }

  /** The reducer applies an event exactly when it is the session's next one and the stream so far
      admits it: an update while the revision can advance, a tool start that is not running, a finish
      of one that is, a newer plan or progress, a request not open, or an answer or closure of one that is. */
  lemma AcceptanceIsExact(h: seq<AgentEvent>, a: Aggregate, e: AgentEvent)
    requires IsHistory(h, a) && e.Constructible()
    ensures h != [] && h[0].payload.SessionStarted?
    ensures ApplyEvent(a, e).1 == Ok(Applied) <==>
            e.sessionId == h[0].sessionId && e.sequence == |h| + 1 && Admissible(h, e)
  {
    hide IsHistory, Reduce, Admissible;
    Identity(h, a);
    ReductionIsExact(h, a, e);
  }

  // ---------- Which error is answered ----------

  /** A stream starts exactly with a SessionStarted event under sequence one. */
  lemma StreamStarts(e: AgentEvent, config: Config)
    ensures Initial(e, config).Ok? <==> e.sequence == 1 && e.payload.SessionStarted?
    ensures e.sequence != 1 ==> Initial(e, config) == Err(InvalidInitialSequence(e.sequence))
    ensures e.sequence == 1 && !e.payload.SessionStarted? ==> Initial(e, config) == Err(InitialEventNotSessionStarted)
  {
  }

  /** The cursor's answer, from the history alone: a retry only of the last event itself, a conflict for
      another event under its sequence, a stale or a gapped sequence otherwise. */
  lemma CursorAnswers(h: seq<AgentEvent>, a: Aggregate, e: AgentEvent)
    requires IsHistory(h, a)
    ensures 0 < |h| <= MAX_U64
    ensures ApplyEvent(a, e).1 == Ok(AlreadyApplied) <==> e.sessionId == h[0].sessionId && e == h[|h| - 1]
    ensures e.sessionId != h[0].sessionId ==>
              ApplyEvent(a, e) == (a, Err(EventSessionMismatch(h[0].sessionId, e.sessionId)))
    ensures e.sessionId == h[0].sessionId ==>
              && (e.sequence < |h| ==> ApplyEvent(a, e) == (a, Err(StaleSequence(|h|, e.sequence))))
              && (e.sequence == |h| && e != h[|h| - 1] ==>
                    ApplyEvent(a, e) == (a, Err(SequenceConflict(|h|, h[|h| - 1].id, e.id))))
              && (e == h[|h| - 1] ==> ApplyEvent(a, e) == (a, Ok(AlreadyApplied)))
              && (e.sequence > |h| + 1 ==> ApplyEvent(a, e) == (a, Err(SequenceGap(|h| + 1, e.sequence))))
  {
    hide IsHistory, Reduce;
    Identity(h, a);
    SequenceOfLast(h, a);
  }

  lemma SequenceOfLast(h: seq<AgentEvent>, a: Aggregate)
    requires IsHistory(h, a)
    ensures h != [] && h[|h| - 1].sequence == |h|
  {
  }

  /** The newest revision a stream has set for its plan or progress. */
  ghost predicate NewestPlan(h: seq<AgentEvent>, revision: Counter) {
    exists i :: 0 <= i < |h| && h[i].payload.PlanUpdated? && h[i].payload.plan.revision == revision
      && forall j :: 0 <= j < |h| && h[j].payload.PlanUpdated? ==> h[j].payload.plan.revision <= revision
  }

  ghost predicate NewestProgress(h: seq<AgentEvent>, revision: Counter) {
    exists i :: 0 <= i < |h| && h[i].payload.ProgressUpdated? && h[i].payload.progress.revision == revision
      && forall j :: 0 <= j < |h| && h[j].payload.ProgressUpdated? ==> h[j].payload.progress.revision <= revision
  }

  /** The error that names why the stream does not admit the event. */
  ghost predicate Explains(h: seq<AgentEvent>, e: AgentEvent, error: ReduceError) {
    match e.payload
    case SessionStarted(_) => error == UnexpectedSessionStarted
    case StateChanged(_) => error == SessionRevisionExhausted
    case ConnectionChanged(_) => error == SessionRevisionExhausted
    case SessionEnded(_) => error == SessionRevisionExhausted
    case Message(_, _, _) => false
    case CommandIssued(_) => false
    case ToolStarted(call, _, _) => error == ToolAlreadyActive(call)
    case ToolFinished(call, _, _) => error == ToolNotActive(call)
    case PlanUpdated(plan) =>
      error.StalePlanRevision? && error.incomingPlan == plan.revision && NewestPlan(h, error.currentPlan)
    case ProgressUpdated(progress) =>
      error.StaleProgressRevision? && error.incomingProgress == progress.revision
      && NewestProgress(h, error.currentProgress)
    case InteractionRequested(request) => error == InteractionAlreadyPending(request.id)
    case InteractionClosed(id, _, _) => error == InteractionNotPending(id)
    case InteractionResponded(r) =>
      if forall request :: !OpenUnder(h, r.requestId, request) then error == InteractionNotPending(r.requestId)
      else error.InvalidResponse? && error.interaction == r.requestId
           && exists request :: OpenUnder(h, r.requestId, request) && ValidateResponse(request, r) == Fail(error.source)
  }

  lemma PlanIsTheNewest(h: seq<AgentEvent>, a: Aggregate)
    requires IsHistory(h, a) && a.plan.Some?
    ensures NewestPlan(h, a.plan.value.revision)
  {
    hide IsHistory;
    NewestWins(h, a);
    var k := Newest(h, PlanSlot);
    forall j | 0 <= j < |h| && h[j].payload.PlanUpdated?
      ensures h[j].payload.plan.revision <= h[k].payload.plan.revision
    {
      assert Sets(h[j], PlanSlot);
      if j < k {
        PlanRevisionsIncrease(h, a, j, k);
      }
    }
  }

  lemma ProgressIsTheNewest(h: seq<AgentEvent>, a: Aggregate)
    requires IsHistory(h, a) && a.progress.Some?
    ensures NewestProgress(h, a.progress.value.revision)
  {
    hide IsHistory;
    NewestWins(h, a);
    var k := Newest(h, ProgressSlot);
    forall j | 0 <= j < |h| && h[j].payload.ProgressUpdated?
      ensures h[j].payload.progress.revision <= h[k].payload.progress.revision
    {
      assert Sets(h[j], ProgressSlot);
      if j < k {
        ProgressRevisionsIncrease(h, a, j, k);
      }
    }
  }

  /** The session's next event is rejected, without change, exactly when the stream does not admit it,
      and the error says why in the stream's own terms. */
  lemma RejectionIsExplained(h: seq<AgentEvent>, a: Aggregate, e: AgentEvent)
    requires IsHistory(h, a) && e.Constructible() && e.sessionId == a.session.id && e.sequence == |h| + 1
    ensures h != [] && h[0].payload.SessionStarted?
    ensures ApplyEvent(a, e).1.Err? <==> !Admissible(h, e)
    ensures ApplyEvent(a, e).1.Err? ==> ApplyEvent(a, e).0 == a && Explains(h, e, ApplyEvent(a, e).1.error)
  {
    hide IsHistory, Reduce, Admissible, Explains;
    Identity(h, a);
    ReductionIsExact(h, a, e);
    if Reduce(a, e).Err? {
      ErrorExplains(h, a, e);
    }
  }

  lemma ErrorExplains(h: seq<AgentEvent>, a: Aggregate, e: AgentEvent)
    requires IsHistory(h, a) && Reduce(a, e).Err?
    ensures Explains(h, e, Reduce(a, e).error)
  {
    hide IsHistory, OpenUnder, NewestPlan, NewestProgress, ValidateResponse;
    if e.payload.PlanUpdated? {
      PlanIsTheNewest(h, a);
    } else if e.payload.ProgressUpdated? {
      ProgressIsTheNewest(h, a);
    } else if e.payload.InteractionResponded? {
      PendingById(h, a, e.payload.response.requestId);
    }
  }
}
