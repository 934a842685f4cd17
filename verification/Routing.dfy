/** The centralized, stateless capability and correlation policy between Providers and Channels. */
module Routing {
  import opened Core
  import opened Interaction

  datatype InteractionRoute = ReadOnly | Interactive

  datatype ChannelEventRoute = ObserveOnly | InteractionEvent(mode: InteractionRoute)

  datatype RouteError =
    | ProviderMismatch
    | ChannelMismatch
    | SessionMismatch
    | MissingProviderCapabilities(providerNeeds: set<ProviderCapability>)
    | MissingChannelCapabilities(channelNeeds: set<ChannelCapability>)
    | InvalidInteractionResponse(source: DomainError)

  function CheckProviderSession(provider: ProviderDescriptor, session: AgentSession): Outcome<RouteError> {
    if provider.id != session.providerId then Fail(ProviderMismatch) else Pass
  }

  function CheckSessionId(expected: SessionId, actual: SessionId): Outcome<RouteError> {
    if expected != actual then Fail(RouteError.SessionMismatch) else Pass
  }

  function CheckProviderNeeds(provider: ProviderDescriptor, needs: set<ProviderCapability>): Outcome<RouteError> {
    if needs <= provider.capabilities then Pass else Fail(MissingProviderCapabilities(needs))
  }

  function CheckChannelNeeds(channel: ChannelDescriptor, needs: set<ChannelCapability>): Outcome<RouteError> {
    if needs <= channel.capabilities then Pass else Fail(MissingChannelCapabilities(needs))
  }

  /** The first failure wins. */
  function Then<E>(first: Outcome<E>, second: Outcome<E>): Outcome<E> {
    if first.Fail? then first else second
  }

  /** `CapabilityRouter::validate_provider_event`. */
  function ValidateProviderEvent(provider: ProviderDescriptor, session: AgentSession, event: AgentEvent)
    : Outcome<RouteError>
  {
    Then(CheckProviderSession(provider, session),
    Then(CheckSessionId(session.id, event.sessionId),
    Then(if event.payload.SessionStarted? then CheckProviderSession(provider, event.payload.session) else Pass,
         CheckProviderNeeds(provider, event.payload.RequiredCapabilities()))))
  }

  /** `CapabilityRouter::interaction_route`. */
  function RouteInteraction(provider: ProviderDescriptor, channel: ChannelDescriptor, session: AgentSession,
                            request: InteractionRequest): Result<InteractionRoute, RouteError> {
    var checks :=
      Then(CheckProviderSession(provider, session),
      Then(CheckSessionId(session.id, request.sessionId),
           CheckProviderNeeds(provider, {request.payload.RequestCapability()})));
    if checks.Fail? then Err(checks.error)
    else if && request.payload.Actionable()
            && request.payload.ResponseCapability() in provider.capabilities
            && request.payload.CollectCapability() in channel.capabilities
    then Ok(Interactive)
    else Ok(ReadOnly)
  }

  /** `CapabilityRouter::channel_event_route`. */
  function RouteEvent(provider: ProviderDescriptor, channel: ChannelDescriptor, session: AgentSession,
                      event: AgentEvent): Result<ChannelEventRoute, RouteError> {
    var valid := ValidateProviderEvent(provider, session, event);
    if valid.Fail? then Err(valid.error)
    else if event.payload.InteractionRequested? then
      match RouteInteraction(provider, channel, session, event.payload.request)
      case Err(error) => Err(error)
      case Ok(mode) => Ok(InteractionEvent(mode))
    else Ok(ObserveOnly)
  }

  /** `CapabilityRouter::validate_interaction_response`. */
  function ValidateInteractionResponse(provider: ProviderDescriptor, channel: ChannelDescriptor,
                                       session: AgentSession, request: InteractionRequest,
                                       response: InteractionResponse): Outcome<RouteError> {
    var content := ValidateResponse(request, response);
    Then(CheckProviderSession(provider, session),
    Then(CheckSessionId(session.id, request.sessionId),
    Then(CheckSessionId(session.id, response.sessionId),
    Then(if channel.id != response.channelId then Fail(ChannelMismatch) else Pass,
    Then(if content.Fail? then Fail(InvalidInteractionResponse(content.error)) else Pass,
    Then(CheckProviderNeeds(provider, {request.payload.RequestCapability()}),
    Then(CheckProviderNeeds(provider, {request.payload.ResponseCapability()}),
         CheckChannelNeeds(channel, {request.payload.CollectCapability()}))))))))
  }

  /** `CapabilityRouter::validate_command`. */
  function ValidateCommand(provider: ProviderDescriptor, channel: ChannelDescriptor, session: AgentSession,
                           command: AgentCommand): Outcome<RouteError> {
    Then(CheckProviderSession(provider, session),
    Then(CheckSessionId(session.id, command.sessionId),
    Then(if channel.id != command.channelId then Fail(ChannelMismatch) else Pass,
    Then(CheckProviderNeeds(provider, {command.payload.ProviderNeeds()}),
         CheckChannelNeeds(channel, command.payload.ChannelNeeds())))))
  }

  // ---------- Interactive means satisfiable ----------

  /** Some constructible response passes the check a Channel's answer goes through. */
  ghost predicate Satisfiable(provider: ProviderDescriptor, channel: ChannelDescriptor, session: AgentSession,
                              request: InteractionRequest) {
    exists response: InteractionResponse ::
      && response.payload.Constructible()
      && ValidateInteractionResponse(provider, channel, session, request, response).Pass?
  }

  /** A route is announced as Interactive exactly when an answer from that Channel can be accepted,
      for every request the constructors can build. */
  lemma InteractiveIffSatisfiable(provider: ProviderDescriptor, channel: ChannelDescriptor, session: AgentSession,
                                  request: InteractionRequest)
    requires request.Constructible()
    ensures RouteInteraction(provider, channel, session, request) == Ok(Interactive)
            <==> Satisfiable(provider, channel, session, request)
  {
    if RouteInteraction(provider, channel, session, request) == Ok(Interactive) {
      var response := InteractionResponse(
        request.id, request.sessionId, channel.id, request.requestedAt, SampleResponse(request.payload));
      SampleAnswers(request.payload);
      ValidationIsExact(request, response);
      assert ValidateInteractionResponse(provider, channel, session, request, response).Pass?;
    }
    if Satisfiable(provider, channel, session, request) {
      var response: InteractionResponse :|
        && response.payload.Constructible()
        && ValidateInteractionResponse(provider, channel, session, request, response).Pass?;
      ValidationIsExact(request, response);
    }
  }

  /** A read-only or unroutable interaction rejects every response. */
  lemma ReadOnlyRejectsEverything(provider: ProviderDescriptor, channel: ChannelDescriptor, session: AgentSession,
                                  request: InteractionRequest, response: InteractionResponse)
    requires request.Constructible() && response.payload.Constructible()
    requires RouteInteraction(provider, channel, session, request) != Ok(Interactive)
    ensures ValidateInteractionResponse(provider, channel, session, request, response).Fail?
  {
    InteractiveIffSatisfiable(provider, channel, session, request);
  }

  /** Routing reads only the identity of the session snapshot, so a later snapshot of the same
      session gives an old event the same verdict and the same route. */
  lemma RoutesIgnoreSnapshotDetails(provider: ProviderDescriptor, channel: ChannelDescriptor,
                                    earlier: AgentSession, later: AgentSession, event: AgentEvent)
    requires earlier.id == later.id && earlier.providerId == later.providerId
    ensures ValidateProviderEvent(provider, earlier, event) == ValidateProviderEvent(provider, later, event)
    ensures RouteEvent(provider, channel, earlier, event) == RouteEvent(provider, channel, later, event)
  {
  }

  /** An event that passed validation always routes, to every Channel. */
  lemma ValidatedEventsRoute(provider: ProviderDescriptor, channel: ChannelDescriptor, session: AgentSession,
                             event: AgentEvent)
    requires event.Constructible() && ValidateProviderEvent(provider, session, event).Pass?
    ensures RouteEvent(provider, channel, session, event).Ok?
    ensures event.payload.InteractionRequested? ==>
              RouteInteraction(provider, channel, session, event.payload.request).Ok?
  {
  }

  // ---------- Which capability each kind of message needs ----------

  /** The Provider may publish the request. */
  ghost predicate MayAsk(provider: set<ProviderCapability>, request: RequestPayload) {
    match request
    case ApprovalRequest(_, _, _) => ApprovalRequests in provider
    case ChoiceRequest(_, _) => UserInputRequests in provider
    case TextRequest(_, _) => UserInputRequests in provider
    case FormRequest(_, _) => UserInputRequests in provider
  }

  /** The request offers an answer, the Provider takes answers of its kind, and the Channel can collect them. */
  ghost predicate MayAnswer(provider: set<ProviderCapability>, channel: set<ChannelCapability>,
                            request: RequestPayload) {
    match request
    case ApprovalRequest(_, options, _) => options != [] && ApprovalResponses in provider && ApprovalInput in channel
    case ChoiceRequest(_, _) => UserInputResponses in provider && ChoiceInput in channel
    case TextRequest(_, _) => UserInputResponses in provider && TextInput in channel
    case FormRequest(_, _) => UserInputResponses in provider && FormInput in channel
  }

  /** An interaction's route, capability by capability. */
  lemma RouteByName(provider: ProviderDescriptor, channel: ChannelDescriptor, session: AgentSession,
                    request: InteractionRequest)
    ensures var owns := provider.id == session.providerId && session.id == request.sessionId;
            var asks := MayAsk(provider.capabilities, request.payload);
            var answers := MayAnswer(provider.capabilities, channel.capabilities, request.payload);
            var route := RouteInteraction(provider, channel, session, request);
            && (route == Ok(Interactive) <==> owns && asks && answers)
            && (route == Ok(ReadOnly) <==> owns && asks && !answers)
            && (route == Err(ProviderMismatch) <==> provider.id != session.providerId)
            && (route == Err(RouteError.SessionMismatch) <==>
                  provider.id == session.providerId && session.id != request.sessionId)
            && (owns && !asks ==> route.Err? && route.error.MissingProviderCapabilities?)
  {
    var need := request.payload.RequestCapability();
    assert {need} <= provider.capabilities <==> need in provider.capabilities;
  }

  /** A correlated response is accepted exactly when its kind is interactive by name and it answers in time. */
  lemma ResponseByName(provider: ProviderDescriptor, channel: ChannelDescriptor, session: AgentSession,
                       request: InteractionRequest, response: InteractionResponse)
    requires response.payload.Constructible()
    ensures ValidateInteractionResponse(provider, channel, session, request, response).Pass? <==>
            && provider.id == session.providerId && session.id == request.sessionId
            && session.id == response.sessionId && channel.id == response.channelId
            && request.id == response.requestId
            && MayAsk(provider.capabilities, request.payload)
            && MayAnswer(provider.capabilities, channel.capabilities, request.payload)
            && Timely(request, response.respondedAt) && Answers(request.payload, response.payload)
  {
    hide ValidateResponse;
    ValidationIsExact(request, response);
    var ask, take := request.payload.RequestCapability(), request.payload.ResponseCapability();
    assert {ask} <= provider.capabilities <==> ask in provider.capabilities;
    assert {take} <= provider.capabilities <==> take in provider.capabilities;
    var collect := request.payload.CollectCapability();
    assert {collect} <= channel.capabilities <==> collect in channel.capabilities;
    AnswersMeanActionable(request.payload, response.payload);
  }

  lemma AnswersMeanActionable(request: RequestPayload, response: ResponsePayload)
    ensures Answers(request, response) && request.ApprovalRequest? ==> request.approvalOptions != []
  {
  }

  ghost predicate MayCommand(provider: set<ProviderCapability>, command: CommandPayload) {
    match command
    case SubmitPrompt(_, _) => PromptSubmit in provider
    case CancelSession(_) => Cancel in provider
    case ListModels => Control in provider
    case SelectModel(_, _) => Control in provider
    case SetPlanMode(_) => Control in provider
    case ListThreads(_) => Control in provider
    case ResumeThread(_) => Control in provider
    case StartThread(_) => Control in provider
    case Compact => Control in provider
    case Review(_) => Control in provider
    case Rename(_) => Control in provider
    case Fork => Control in provider
    case Status => Control in provider
    case ListPermissionProfiles => Control in provider
    case SelectPermissionProfile(_) => Control in provider
    case QueueControl(_) => Control in provider
  }

  ghost predicate MayIssue(channel: set<ChannelCapability>, command: CommandPayload) {
    && RemoteCommand in channel
    && match command
       case SubmitPrompt(_, _) => TextInput in channel
       case SelectModel(_, _) => TextInput in channel
       case ListThreads(_) => TextInput in channel
       case ResumeThread(_) => TextInput in channel
       case StartThread(_) => TextInput in channel
       case Review(_) => TextInput in channel
       case Rename(_) => TextInput in channel
       case SelectPermissionProfile(_) => TextInput in channel
       case CancelSession(_) => true
       case ListModels => true
       case SetPlanMode(_) => true
       case Compact => true
       case Fork => true
       case Status => true
       case ListPermissionProfiles => true
       case QueueControl(_) => true
  }

  /** A command is accepted exactly when it is correlated and both ends have the named capabilities. */
  lemma CommandByName(provider: ProviderDescriptor, channel: ChannelDescriptor, session: AgentSession,
                      command: AgentCommand)
    ensures var result := ValidateCommand(provider, channel, session, command);
            && (result.Pass? <==>
                  && provider.id == session.providerId && session.id == command.sessionId
                  && channel.id == command.channelId
                  && MayCommand(provider.capabilities, command.payload)
                  && MayIssue(channel.capabilities, command.payload))
            && (result == Fail(ProviderMismatch) <==> provider.id != session.providerId)
            && (result == Fail(RouteError.SessionMismatch) <==>
                  provider.id == session.providerId && session.id != command.sessionId)
            && (result == Fail(ChannelMismatch) <==>
                  provider.id == session.providerId && session.id == command.sessionId
                  && channel.id != command.channelId)
  {
    var need := command.payload.ProviderNeeds();
    assert {need} <= provider.capabilities <==> need in provider.capabilities;
    assert {RemoteCommand} <= channel.capabilities <==> RemoteCommand in channel.capabilities;
    assert {RemoteCommand, TextInput} <= channel.capabilities <==>
           RemoteCommand in channel.capabilities && TextInput in channel.capabilities;
  }

  ghost predicate MayPublish(provider: set<ProviderCapability>, payload: EventPayload) {
    match payload
    case SessionStarted(_) => SessionState in provider
    case StateChanged(_) => SessionState in provider
    case ConnectionChanged(_) => SessionState in provider
    case SessionEnded(_) => SessionState in provider
    case Message(_, _, _) => true
    case ToolStarted(_, _, _) => ToolEvents in provider
    case ToolFinished(_, _, _) => ToolEvents in provider
    case PlanUpdated(_) => ProviderCapability.Plan in provider
    case ProgressUpdated(_) => ProviderCapability.Progress in provider
    case InteractionRequested(request) => MayAsk(provider, request.payload)
    case InteractionResponded(response) =>
      if response.payload.ApprovalResponse? then ApprovalResponses in provider else UserInputResponses in provider
    case InteractionClosed(_, _, _) => ApprovalRequests in provider
    case CommandIssued(command) => MayCommand(provider, command.payload)
  }

  /** A Provider's event is valid exactly when the session is its own, the event belongs to it, and the
      Provider has the capability named for its kind. */
  lemma EventByName(provider: ProviderDescriptor, session: AgentSession, event: AgentEvent)
    ensures var result := ValidateProviderEvent(provider, session, event);
            && (result.Pass? <==>
                  && provider.id == session.providerId && session.id == event.sessionId
                  && (event.payload.SessionStarted? ==> event.payload.session.providerId == provider.id)
                  && MayPublish(provider.capabilities, event.payload))
            && (result == Fail(RouteError.SessionMismatch) <==>
                  provider.id == session.providerId && session.id != event.sessionId)
  {
    var needs := event.payload.RequiredCapabilities();
    assert needs == {} || exists need :: needs == {need};
    if need :| needs == {need} {
      assert needs <= provider.capabilities <==> need in provider.capabilities;
    }
  }

  /** A valid event is shown for observation only, except a request, which is shown with its own route. */
  lemma EventRouteByName(provider: ProviderDescriptor, channel: ChannelDescriptor, session: AgentSession,
                         event: AgentEvent)
    requires event.Constructible() && ValidateProviderEvent(provider, session, event).Pass?
    ensures RouteEvent(provider, channel, session, event) ==
            Ok(if !event.payload.InteractionRequested? then ObserveOnly
               else if MayAnswer(provider.capabilities, channel.capabilities, event.payload.request.payload)
               then InteractionEvent(Interactive)
               else InteractionEvent(ReadOnly))
  {
    hide RouteInteraction, ValidateProviderEvent, MayAnswer, MayAsk;
    if event.payload.InteractionRequested? {
      EventByName(provider, session, event);
      RouteByName(provider, channel, session, event.payload.request);
    }
  }
}
