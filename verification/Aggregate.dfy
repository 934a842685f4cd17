/** Deterministic reduction of a session's events into its current state, and the retained window
    that serves catch-up pages. */
module Aggregates {
  import opened Core
  import opened Interaction

  datatype Config = Config(capacity: nat, retainAll: bool)

  const RETAIN_ALL := Config(0, true)

  datatype ReduceError =
    | EmptyReplay
    | InvalidInitialSequence(first: Counter)
    | InitialEventNotSessionStarted
    | EventSessionMismatch(expectedSession: SessionId, actualSession: SessionId)
    | StaleSequence(last: Counter, stale: Counter)
    | SequenceConflict(sequence: Counter, expectedEvent: EventId, actualEvent: EventId)
    | SequenceGap(expected: Counter, actual: Counter)
    | SequenceExhausted
    | UnexpectedSessionStarted
    | StalePlanRevision(currentPlan: Counter, incomingPlan: Counter)
    | StaleProgressRevision(currentProgress: Counter, incomingProgress: Counter)
    | SessionRevisionExhausted
    | ToolAlreadyActive(activeCall: ToolCallId)
    | ToolNotActive(inactiveCall: ToolCallId)
    | InteractionAlreadyPending(duplicateInteraction: InteractionId)
    | InteractionNotPending(missingInteraction: InteractionId)
    | InvalidResponse(interaction: InteractionId, source: DomainError)

  datatype ApplyOutcome = Applied | AlreadyApplied

  datatype ActiveToolCall = ActiveToolCall(id: ToolCallId, name: Text, summary: Option<Text>, startedAt: Timestamp)

  datatype Aggregate = Aggregate(
    config: Config,
    session: AgentSession,
    plan: Option<PlanSnapshot>,
    progress: Option<ProgressSnapshot>,
    tools: map<ToolCallId, ActiveToolCall>,
    pending: map<InteractionId, InteractionRequest>,
    outcome: Option<SessionOutcome>,
    lastEvent: AgentEvent,
    recent: seq<AgentEvent>)
  {
    function LastSequence(): Counter {
      lastEvent.sequence
    }
  }

  // ---------- Specification of the reducer ----------

  function Initial(e: AgentEvent, config: Config): Result<Aggregate, ReduceError> {
    if e.sequence != 1 then Err(InvalidInitialSequence(e.sequence))
    else if !e.payload.SessionStarted? then Err(InitialEventNotSessionStarted)
    else
      var recent := if config.retainAll || config.capacity > 0 then [e] else [];
      Ok(Aggregate(config, e.payload.session, None, None, map[], map[], None, e, recent))
  }

  /** `Ok(true)` for an exact retry, `Ok(false)` for the next event. */
  function CheckCursor(a: Aggregate, e: AgentEvent): Result<bool, ReduceError> {
    var last := a.LastSequence();
    if e.sessionId != a.session.id then Err(EventSessionMismatch(a.session.id, e.sessionId))
    else if e.sequence < last then Err(StaleSequence(last, e.sequence))
    else if e.sequence == last then
      if e == a.lastEvent then Ok(true) else Err(SequenceConflict(last, a.lastEvent.id, e.id))
    else match CheckedNext(last)
      case None => Err(SequenceExhausted)
      case Some(next) => if e.sequence != next then Err(SequenceGap(next, e.sequence)) else Ok(false)
  }

  function Later(a: Timestamp, b: Timestamp): Timestamp {
    if b > a then b else a
  }

  function OutcomeState(outcome: SessionOutcome): AgentState {
    match outcome
    case RunCompleted(_) => Completed
    case RunFailed(_) => Failed
    case RunCancelled(_) => Cancelled
  }

  /** The effect of the next event on everything but the cursor and the retained window. */
  function Reduce(a: Aggregate, e: AgentEvent): (r: Result<Aggregate, ReduceError>)
    ensures r.Ok? ==>
              && r.value.config == a.config && r.value.lastEvent == a.lastEvent && r.value.recent == a.recent
              && r.value.session.id == a.session.id && r.value.session.providerId == a.session.providerId
              && !e.payload.SessionStarted?
              && (!e.payload.UpdatesSession() ==> r.value.session == a.session)
  {
    match e.payload
    case SessionStarted(_) => Err(UnexpectedSessionStarted)
    case StateChanged(state) =>
      (match CheckedNext(a.session.revision)
       case None => Err(SessionRevisionExhausted)
       case Some(revision) =>
         Ok(a.(session := a.session.(state := state, revision := revision,
                                     updatedAt := Later(a.session.updatedAt, e.occurredAt)))))
    case ConnectionChanged(connection) =>
      (match CheckedNext(a.session.revision)
       case None => Err(SessionRevisionExhausted)
       case Some(revision) =>
         Ok(a.(session := a.session.(connection := connection, revision := revision,
                                     updatedAt := Later(a.session.updatedAt, e.occurredAt)))))
    case Message(_, _, _) => Ok(a)
    case CommandIssued(_) => Ok(a)
    case ToolStarted(call, name, summary) =>
      if call in a.tools then Err(ToolAlreadyActive(call))
      else Ok(a.(tools := a.tools[call := ActiveToolCall(call, name, summary, e.occurredAt)]))
    case ToolFinished(call, _, _) =>
      if call !in a.tools then Err(ToolNotActive(call)) else Ok(a.(tools := a.tools - {call}))
    case PlanUpdated(plan) =>
      if a.plan.Some? && plan.revision <= a.plan.value.revision then
        Err(StalePlanRevision(a.plan.value.revision, plan.revision))
      else Ok(a.(plan := Some(plan)))
    case ProgressUpdated(progress) =>
      if a.progress.Some? && progress.revision <= a.progress.value.revision then
        Err(StaleProgressRevision(a.progress.value.revision, progress.revision))
      else Ok(a.(progress := Some(progress)))
    case InteractionRequested(request) =>
      if request.id in a.pending then Err(InteractionAlreadyPending(request.id))
      else Ok(a.(pending := a.pending[request.id := request]))
    case InteractionResponded(response) =>
      if response.requestId !in a.pending then Err(InteractionNotPending(response.requestId))
      else
        var checked := ValidateResponse(a.pending[response.requestId], response);
        if checked.Fail? then Err(InvalidResponse(response.requestId, checked.error))
        else Ok(a.(pending := a.pending - {response.requestId}))
    case InteractionClosed(id, _, _) =>
      if id !in a.pending then Err(InteractionNotPending(id)) else Ok(a.(pending := a.pending - {id}))
    case SessionEnded(outcome) =>
      (match CheckedNext(a.session.revision)
       case None => Err(SessionRevisionExhausted)
       case Some(revision) =>
         Ok(a.(session := a.session.(state := OutcomeState(outcome), revision := revision,
                                     updatedAt := Later(a.session.updatedAt, e.occurredAt)),
               outcome := Some(outcome), tools := map[], pending := map[])))
  }

  /** The last `n` elements, or all of them when there are fewer. */
  function Last<T>(s: seq<T>, n: nat): seq<T> {
    if |s| > n then s[|s| - n..] else s
  }

  function Retain(config: Config, recent: seq<AgentEvent>, e: AgentEvent): seq<AgentEvent> {
    if config.retainAll then recent + [e]
    else if config.capacity == 0 then recent
    else Last(recent + [e], config.capacity)
  }

  /** `SessionAggregate::apply` as a function from the old value to the new one and the reply. */
  function ApplyEvent(a: Aggregate, e: AgentEvent): (Aggregate, Result<ApplyOutcome, ReduceError>) {
    match CheckCursor(a, e)
    case Err(error) => (a, Err(error))
    case Ok(true) => (a, Ok(AlreadyApplied))
    case Ok(false) =>
      match Reduce(a, e)
      case Err(error) => (a, Err(error))
      case Ok(reduced) =>
        (reduced.(lastEvent := e, recent := Retain(a.config, a.recent, e)), Ok(Applied))
  }

  function Replay(events: seq<AgentEvent>, config: Config): Result<Aggregate, ReduceError> {
    if events == [] then Err(EmptyReplay)
    else if |events| == 1 then Initial(events[0], config)
    else match Replay(events[..|events| - 1], config)
      case Err(error) => Err(error)
      case Ok(a) =>
        var step := ApplyEvent(a, events[|events| - 1]);
        if step.1.Err? then Err(step.1.error) else Ok(step.0)
  }

  function EventsAfter(events: seq<AgentEvent>, after: nat): seq<AgentEvent> {
    if events == [] then []
    else if events[0].sequence > after then [events[0]] + EventsAfter(events[1..], after)
    else EventsAfter(events[1..], after)
  }

  /** `SessionAggregate::retained_event_page_after`. */
  function Page(a: Aggregate, after: U64, limit: nat): Option<seq<AgentEvent>> {
    if after > a.LastSequence() then None
    else if after == a.LastSequence() then Some([])
    else if a.recent == [] || a.recent[0].sequence > after + 1 then None
    else
      var events := EventsAfter(a.recent, after);
      Some(if |events| > limit then events[..limit] else events)
  }

  // ---------- The stateful object ----------

  /** `SessionAggregate`: the fields are updated in place, step by step. */
  class SessionAggregate {
    var config: Config
    var session: AgentSession
    var plan: Option<PlanSnapshot>
    var progress: Option<ProgressSnapshot>
    var tools: map<ToolCallId, ActiveToolCall>
    var pending: map<InteractionId, InteractionRequest>
    var outcome: Option<SessionOutcome>
    var lastEvent: AgentEvent
    var recent: seq<AgentEvent>

    ghost function Value(): Aggregate
      reads this
    {
      Aggregate(config, session, plan, progress, tools, pending, outcome, lastEvent, recent)
    }

    /** The struct literal at the end of `from_initial_event_with_config`. */
    constructor Started(config: Config, initialEvent: AgentEvent)
      requires initialEvent.sequence == 1 && initialEvent.payload.SessionStarted?
      ensures Initial(initialEvent, config) == Ok(Value())
    {
      this.config := config;
      session := initialEvent.payload.session;
      plan, progress, tools, pending, outcome := None, None, map[], map[], None;
      lastEvent := initialEvent;
      recent := if config.retainAll || config.capacity > 0 then [initialEvent] else [];
    }

    static method FromInitialEvent(initialEvent: AgentEvent, config: Config)
      returns (r: Result<SessionAggregate, ReduceError>)
      ensures r.Ok? ==> fresh(r.value) && Initial(initialEvent, config) == Ok(r.value.Value())
      ensures r.Err? ==> Initial(initialEvent, config) == Err(r.error)
    {
      if initialEvent.sequence != 1 {
        return Err(InvalidInitialSequence(initialEvent.sequence));
      }
      if !initialEvent.payload.SessionStarted? {
        return Err(InitialEventNotSessionStarted);
      }
      var aggregate := new SessionAggregate.Started(config, initialEvent);
      r := Ok(aggregate);
    }

    static method ReplayStream(events: seq<AgentEvent>, config: Config)
      returns (r: Result<SessionAggregate, ReduceError>)
      ensures r.Ok? ==> fresh(r.value) && Replay(events, config) == Ok(r.value.Value())
      ensures r.Err? ==> Replay(events, config) == Err(r.error)
    {
      if events == [] {
        return Err(EmptyReplay);
      }
      assert events[..1] == [events[0]];
      r := FromInitialEvent(events[0], config);
      if r.Err? {
        ReplayStopsAtError(events, 1, config);
        return;
      }
      var aggregate := r.value;
      for k := 1 to |events|
        invariant fresh(aggregate)
        invariant Replay(events[..k], config) == Ok(aggregate.Value())
      {
        assert events[..k + 1][..k] == events[..k];
        var step := aggregate.Apply(events[k]);
        if step.Err? {
          ReplayStopsAtError(events, k + 1, config);
          return Err(step.error);
        }
      }
      assert events[..|events|] == events;
      r := Ok(aggregate);
    }

    /** Applies one event in place; on an error no field has changed. */
    method Apply(e: AgentEvent) returns (r: Result<ApplyOutcome, ReduceError>)
      modifies this
      ensures (Value(), r) == ApplyEvent(old(Value()), e)
    {
      var cursor := ValidateCursor(e);
      match cursor {
        case Err(error) => return Err(error);
        case Ok(true) => return Ok(AlreadyApplied);
        case Ok(false) =>
      }
      var reduced := Observe(e);
      if reduced.Fail? {
        return Err(reduced.error);
      }
      RecordEvent(e);
      r := Ok(Applied);
    }

    /** The payload match of `apply`: every check comes before the first assignment. */
    method Observe(e: AgentEvent) returns (r: Outcome<ReduceError>)
      modifies this
      ensures r.Fail? ==> Reduce(old(Value()), e) == Err(r.error) && Value() == old(Value())
      ensures r.Pass? ==> Reduce(old(Value()), e) == Ok(Value())
    {
      r := Pass;
      match e.payload {
        case SessionStarted(_) => return Fail(UnexpectedSessionStarted);
        case StateChanged(state) =>
          var next := CheckedNext(session.revision);
          if next.None? {
            return Fail(SessionRevisionExhausted);
          }
          ObserveState(state, next.value, e.occurredAt);
        case ConnectionChanged(connection) =>
          var next := CheckedNext(session.revision);
          if next.None? {
            return Fail(SessionRevisionExhausted);
          }
          session := session.(connection := connection, revision := next.value);
          if e.occurredAt > session.updatedAt {
            session := session.(updatedAt := e.occurredAt);
          }
        case Message(_, _, _) =>
        case CommandIssued(_) =>
        case ToolStarted(_, _, _) => r := ApplyToolActivity(e.payload, e.occurredAt);
        case ToolFinished(_, _, _) => r := ApplyToolActivity(e.payload, e.occurredAt);
        case PlanUpdated(update) =>
          if plan.Some? && update.revision <= plan.value.revision {
            return Fail(StalePlanRevision(plan.value.revision, update.revision));
          }
          plan := Some(update);
        case ProgressUpdated(update) =>
          if progress.Some? && update.revision <= progress.value.revision {
            return Fail(StaleProgressRevision(progress.value.revision, update.revision));
          }
          progress := Some(update);
        case InteractionRequested(request) =>
          if request.id in pending {
            return Fail(InteractionAlreadyPending(request.id));
          }
          pending := pending[request.id := request];
        case InteractionResponded(response) =>
          if response.requestId !in pending {
            return Fail(InteractionNotPending(response.requestId));
          }
          var checked := ValidateResponse(pending[response.requestId], response);
          if checked.Fail? {
            return Fail(InvalidResponse(response.requestId, checked.error));
          }
          pending := pending - {response.requestId};
        case InteractionClosed(id, _, _) =>
          if id !in pending {
            return Fail(InteractionNotPending(id));
          }
          pending := pending - {id};
        case SessionEnded(ended) =>
          var next := CheckedNext(session.revision);
          if next.None? {
            return Fail(SessionRevisionExhausted);
          }
          ObserveState(OutcomeState(ended), next.value, e.occurredAt);
          outcome := Some(ended);
          tools := map[];
          pending := map[];
      }
    }

    method ApplyToolActivity(activity: EventPayload, occurredAt: Timestamp) returns (r: Outcome<ReduceError>)
      requires activity.ToolStarted? || activity.ToolFinished?
      modifies this`tools
      ensures activity.ToolStarted? ==>
                var call := activity.startedCall;
                if call in old(tools) then r == Fail(ToolAlreadyActive(call)) && tools == old(tools)
                else r == Pass && tools == old(tools)[call := ActiveToolCall(call, activity.name,
                                                                             activity.startSummary, occurredAt)]
      ensures activity.ToolFinished? ==>
                var call := activity.finishedCall;
                if call in old(tools) then r == Pass && tools == old(tools) - {call}
                else r == Fail(ToolNotActive(call)) && tools == old(tools)
    {
      match activity
      case ToolStarted(call, name, summary) =>
        if call in tools {
          return Fail(ToolAlreadyActive(call));
        }
        tools := tools[call := ActiveToolCall(call, name, summary, occurredAt)];
        r := Pass;
      case ToolFinished(call, _, _) =>
        if call !in tools {
          return Fail(ToolNotActive(call));
        }
        tools := tools - {call};
        r := Pass;
    }

    method ValidateCursor(e: AgentEvent) returns (r: Result<bool, ReduceError>)
      ensures r == CheckCursor(Value(), e)
    {
      if e.sessionId != session.id {
        return Err(EventSessionMismatch(session.id, e.sessionId));
      }
      if e.sequence < lastEvent.sequence {
        return Err(StaleSequence(lastEvent.sequence, e.sequence));
      }
      if e.sequence == lastEvent.sequence {
        if e == lastEvent {
          return Ok(true);
        }
        return Err(SequenceConflict(e.sequence, lastEvent.id, e.id));
      }
      var next := CheckedNext(lastEvent.sequence);
      if next.None? {
        return Err(SequenceExhausted);
      }
      if e.sequence != next.value {
        return Err(SequenceGap(next.value, e.sequence));
      }
      r := Ok(false);
    }

    method ObserveState(state: AgentState, revision: Counter, observedAt: Timestamp)
      modifies this`session
      ensures session == old(session).(state := state, revision := revision,
                                       updatedAt := Later(old(session.updatedAt), observedAt))
    {
      session := session.(state := state, revision := revision);
      if observedAt > session.updatedAt {
        session := session.(updatedAt := observedAt);
      }
    }

    /** Moves the cursor and appends to the window, dropping its oldest events past the capacity. */
    method RecordEvent(e: AgentEvent)
      modifies this`lastEvent, this`recent
      ensures lastEvent == e && recent == Retain(config, old(recent), e)
    {
      lastEvent := e;
      if !config.retainAll && config.capacity == 0 {
        return;
      }
      recent := recent + [e];
      if !config.retainAll {
        ghost var full := recent;
        while |recent| > config.capacity
          modifies this`recent
          invariant |recent| <= |full| && recent == full[|full| - |recent|..]
          invariant |recent| < |full| ==> |recent| >= config.capacity
        {
          recent := recent[1..];
        }
      }
    }
  }

  lemma {:induction false} ReplayStopsAtError(events: seq<AgentEvent>, k: nat, config: Config)
    requires 0 < k <= |events| && Replay(events[..k], config).Err?
    ensures Replay(events, config) == Replay(events[..k], config)
    decreases |events|
  {
    if k < |events| {
      assert events[..|events| - 1][..k] == events[..k];
      ReplayStopsAtError(events[..|events| - 1], k, config);
    } else {
      assert events[..k] == events;
    }
  }
}
