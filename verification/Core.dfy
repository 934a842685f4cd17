/** The domain values of `agentpulse-core`: identifiers, counters, text, capabilities, sessions,
    interactions, commands, events and endpoint descriptors. */
module Core {
  datatype Option<+T> = None | Some(value: T)

  datatype Result<+T, +E> = Ok(value: T) | Err(error: E)

  // ---------- Scalars ----------

  /** The largest 64-bit counter value; sequences and revisions cannot advance past it. */
  const MAX_U64: nat := 0xFFFF_FFFF_FFFF_FFFF

  type U64 = n: nat | n <= MAX_U64

  /** A positive 64-bit counter: `Revision` and `EventSequence`. */
  type Counter = n: nat | 1 <= n <= MAX_U64 witness 1

  function CheckedNext(n: Counter): Option<Counter> {
    if n < MAX_U64 then Some(n + 1) else None
  }

  /** Identifiers are opaque and totally ordered; only equality and order are used. */
  type ProviderId = nat
  type ChannelId = nat
  type SessionId = nat
  type EventId = nat
  type InteractionId = nat
  type ToolCallId = nat
  type CommandId = nat
  type PlanItemId = nat
  type OptionId = nat
  type FieldId = nat

  /** A point in time; only order matters. */
  type Timestamp = int

  /** The characters `str::trim` removes (the Unicode White_Space property). */
  predicate IsWhitespace(c: char) {
    || '\t' <= c <= '\r'
    || c == ' '
    || c == '\U{85}'
    || c == '\U{A0}'
    || c == '\U{1680}'
    || '\U{2000}' <= c <= '\U{200A}'
    || c == '\U{2028}'
    || c == '\U{2029}'
    || c == '\U{202F}'
    || c == '\U{205F}'
    || c == '\U{3000}'
  }

  predicate Blank(s: string) {
    forall i :: 0 <= i < |s| ==> IsWhitespace(s[i])
  }

  /** `NonEmptyText`: text holding at least one character that is not whitespace. */
  type Text = s: string | !Blank(s) witness (assert !IsWhitespace("x"[0]); "x")

  const SAMPLE_TEXT: Text := (assert !IsWhitespace("ok"[0]); "ok")

  // ---------- Capabilities ----------

  datatype ProviderCapability =
    | SessionState | ToolEvents | Plan | Progress | ApprovalRequests | ApprovalResponses
    | UserInputRequests | UserInputResponses | PromptSubmit | Cancel | Control

  datatype ChannelCapability =
    | Notification | SessionView | ToolView | PlanView | ProgressView | RichMessage | ApprovalInput
    | ChoiceInput | TextInput | FormInput | RealtimeSync | RemoteCommand

  // ---------- Sessions ----------

  datatype AgentState = Initializing | Idle | Running | WaitingForInteraction | Completed | Failed | Cancelled

  datatype ConnectionState = Connected | Reconnecting | Disconnected

  datatype WorkspaceRef = WorkspaceRef(path: Text, displayName: Option<Text>)

  datatype AgentSession = AgentSession(
    id: SessionId,
    providerId: ProviderId,
    externalId: Option<Text>,
    title: Option<Text>,
    workspace: Option<WorkspaceRef>,
    state: AgentState,
    connection: ConnectionState,
    revision: Counter,
    createdAt: Timestamp,
    updatedAt: Timestamp)
  {
    /** What `AgentSessionBuilder::build` enforces. */
    predicate Constructible() {
      createdAt <= updatedAt
    }
  }

  // ---------- Plans and progress ----------

  datatype PlanItemStatus = Pending | InProgress | Done | Blocked | Skipped

  datatype PlanItem = PlanItem(id: PlanItemId, content: Text, status: PlanItemStatus)

  datatype PlanSnapshot = PlanSnapshot(revision: Counter, explanation: Option<Text>, items: seq<PlanItem>)
  {
    predicate Constructible() {
      forall i, j :: 0 <= i < j < |items| ==> items[i].id != items[j].id
    }
  }

  datatype ProgressValue = Indeterminate | Determinate(completed: U64, total: U64)
  {
    predicate Constructible() {
      Determinate? ==> 0 < total && completed <= total
    }
  }

  datatype ProgressSnapshot = ProgressSnapshot(revision: Counter, value: ProgressValue, message: Option<Text>)

  // ---------- Interactions ----------

  datatype ApprovalDisposition = Approve | Reject | CancelRun

  datatype ApprovalCommandKind = NewCommand | WriteStdin

  datatype ApprovalNetworkContext = ApprovalNetworkContext(host: Text, protocol: Text)

  datatype ApprovalFileChangeKind = Add | Delete | Update

  datatype ApprovalFileChange = ApprovalFileChange(path: Text, kind: ApprovalFileChangeKind, diff: string)

  datatype ApprovalSubject =
    | CommandSubject(kind: ApprovalCommandKind, command: Option<Text>, cwd: Option<Text>,
                     commandReason: Option<Text>, network: Option<ApprovalNetworkContext>)
    | FileChangeSubject(changes: seq<ApprovalFileChange>, grantRoot: Option<Text>, changeReason: Option<Text>)

  datatype ApprovalOption =
    ApprovalOption(id: OptionId, disposition: ApprovalDisposition, labelText: Text, description: Option<Text>)

  datatype ChoiceOption = ChoiceOption(id: OptionId, labelText: Text, description: Option<Text>)

  predicate UniqueApprovalIds(options: seq<ApprovalOption>) {
    forall i, j :: 0 <= i < j < |options| ==> options[i].id != options[j].id
  }

  predicate UniqueChoiceIds(options: seq<ChoiceOption>) {
    forall i, j :: 0 <= i < j < |options| ==> options[i].id != options[j].id
  }

  predicate UniqueIds(ids: seq<nat>) {
    forall i, j :: 0 <= i < j < |ids| ==> ids[i] != ids[j]
  }

  datatype FormField = FormField(
    id: FieldId, header: Text, prompt: Text, options: seq<ChoiceOption>, allowsOther: bool, sensitive: bool)
  {
    /** What `FormField::new` enforces: an answer always exists. */
    predicate Constructible() {
      UniqueChoiceIds(options) && (options == [] ==> allowsOther)
    }

    predicate Offers(option: OptionId) {
      exists i :: 0 <= i < |options| && options[i].id == option
    }
  }

  datatype RequestPayload =
    | ApprovalRequest(subject: ApprovalSubject, approvalOptions: seq<ApprovalOption>, unavailableReason: Option<Text>)
    | ChoiceRequest(choiceOptions: seq<ChoiceOption>, multiple: bool)
    | TextRequest(placeholder: Option<Text>, multiline: bool)
    | FormRequest(fields: seq<FormField>, blocking: bool)
  {
    /** What the four request constructors enforce. */
    predicate Constructible() {
      match this
      case ApprovalRequest(_, options, reason) =>
        if options == [] then reason.Some? else UniqueApprovalIds(options) && reason.None?
      case ChoiceRequest(options, _) => options != [] && UniqueChoiceIds(options)
      case TextRequest(_, _) => true
      case FormRequest(fields, _) =>
        && fields != []
        && (forall i, j :: 0 <= i < j < |fields| ==> fields[i].id != fields[j].id)
        && (forall i :: 0 <= i < |fields| ==> fields[i].Constructible())
    }

    predicate Actionable() {
      ApprovalRequest? ==> approvalOptions != []
    }

    predicate OffersApproval(option: OptionId)
      requires ApprovalRequest?
    {
      exists i :: 0 <= i < |approvalOptions| && approvalOptions[i].id == option
    }

    predicate OffersChoice(option: OptionId)
      requires ChoiceRequest?
    {
      exists i :: 0 <= i < |choiceOptions| && choiceOptions[i].id == option
    }

    function RequestCapability(): ProviderCapability {
      if ApprovalRequest? then ApprovalRequests else UserInputRequests
    }

    function ResponseCapability(): ProviderCapability {
      if ApprovalRequest? then ApprovalResponses else UserInputResponses
    }

    function CollectCapability(): ChannelCapability {
      match this
      case ApprovalRequest(_, _, _) => ApprovalInput
      case ChoiceRequest(_, _) => ChoiceInput
      case TextRequest(_, _) => TextInput
      case FormRequest(_, _) => FormInput
    }
  }

  datatype InteractionRequest = InteractionRequest(
    id: InteractionId,
    sessionId: SessionId,
    requestedAt: Timestamp,
    expiresAt: Option<Timestamp>,
    prompt: Text,
    payload: RequestPayload)
  {
    predicate Constructible() {
      && (expiresAt.Some? ==> requestedAt < expiresAt.value)
      && payload.Constructible()
    }
  }

  datatype FormAnswerValue = ChoiceAnswer(option: OptionId) | TextAnswer(text: Text)

  datatype FormAnswer = FormAnswer(fieldId: FieldId, value: FormAnswerValue)

  datatype ResponsePayload =
    | ApprovalResponse(selected: OptionId)
    | ChoiceResponse(selection: seq<OptionId>)
    | TextResponse(text: Text)
    | FormResponse(answers: seq<FormAnswer>)
  {
    /** What `ChoiceSelection::new` and `FormResponse::new` enforce. */
    predicate Constructible() {
      match this
      case ChoiceResponse(ids) => ids != [] && UniqueIds(ids)
      case FormResponse(answers) =>
        answers != [] && forall i, j :: 0 <= i < j < |answers| ==> answers[i].fieldId != answers[j].fieldId
      case _ => true
    }

    function RequiredCapability(): ProviderCapability {
      if ApprovalResponse? then ApprovalResponses else UserInputResponses
    }
  }

  datatype InteractionResponse = InteractionResponse(
    requestId: InteractionId,
    sessionId: SessionId,
    channelId: ChannelId,
    respondedAt: Timestamp,
    payload: ResponsePayload)

  datatype CloseReason = ResolvedElsewhere | ProviderCancelled

  // ---------- Commands ----------

  datatype PromptDelivery = QueuePrompt | SteerPrompt

  datatype QueueAction = PauseQueue | ResumeQueue | ClearQueue

  datatype CommandPayload =
    | SubmitPrompt(promptText: Text, delivery: PromptDelivery)
    | CancelSession(cancelReason: Option<Text>)
    | ListModels
    | SelectModel(model: Text, effort: Option<Text>)
    | SetPlanMode(enabled: bool)
    | ListThreads(cursor: Option<Text>)
    | ResumeThread(threadId: Text)
    | StartThread(cwd: Text)
    | Compact
    | Review(instructions: Option<Text>)
    | Rename(name: Text)
    | Fork
    | Status
    | ListPermissionProfiles
    | SelectPermissionProfile(profile: Text)
    | QueueControl(action: QueueAction)
  {
    function ProviderNeeds(): ProviderCapability {
      match this
      case SubmitPrompt(_, _) => PromptSubmit
      case CancelSession(_) => Cancel
      case _ => Control
    }

    function ChannelNeeds(): set<ChannelCapability> {
      match this
      case CancelSession(_) => {RemoteCommand}
      case ListModels => {RemoteCommand}
      case SetPlanMode(_) => {RemoteCommand}
      case Compact => {RemoteCommand}
      case Fork => {RemoteCommand}
      case Status => {RemoteCommand}
      case ListPermissionProfiles => {RemoteCommand}
      case QueueControl(_) => {RemoteCommand}
      case _ => {RemoteCommand, TextInput}
    }
  }

  datatype AgentCommand = AgentCommand(
    id: CommandId, sessionId: SessionId, channelId: ChannelId, issuedAt: Timestamp, payload: CommandPayload)

  // ---------- Events ----------

  datatype MessageRole = User | Assistant | System

  datatype MessageLevel = Info | Warning | Error

  datatype ToolOutcome = ToolSucceeded | ToolFailed | ToolCancelled

  datatype SessionOutcome =
    | RunCompleted(summary: Option<Text>)
    | RunFailed(failure: Text)
    | RunCancelled(reason: Option<Text>)

  datatype EventPayload =
    | SessionStarted(session: AgentSession)
    | StateChanged(state: AgentState)
    | ConnectionChanged(connection: ConnectionState)
    | Message(role: MessageRole, level: MessageLevel, content: Text)
    | ToolStarted(startedCall: ToolCallId, name: Text, startSummary: Option<Text>)
    | ToolFinished(finishedCall: ToolCallId, toolOutcome: ToolOutcome, finishSummary: Option<Text>)
    | PlanUpdated(plan: PlanSnapshot)
    | ProgressUpdated(progress: ProgressSnapshot)
    | InteractionRequested(request: InteractionRequest)
    | InteractionResponded(response: InteractionResponse)
    | InteractionClosed(closedRequest: InteractionId, closedSession: SessionId, closeReason: CloseReason)
    | CommandIssued(command: AgentCommand)
    | SessionEnded(outcome: SessionOutcome)
  {
    /** The capabilities a Provider must declare to publish this payload. */
    function RequiredCapabilities(): set<ProviderCapability> {
      match this
      case SessionStarted(_) => {SessionState}
      case StateChanged(_) => {SessionState}
      case ConnectionChanged(_) => {SessionState}
      case SessionEnded(_) => {SessionState}
      case Message(_, _, _) => {}
      case ToolStarted(_, _, _) => {ToolEvents}
      case ToolFinished(_, _, _) => {ToolEvents}
      case PlanUpdated(_) => {ProviderCapability.Plan}
      case ProgressUpdated(_) => {ProviderCapability.Progress}
      case InteractionRequested(request) => {request.payload.RequestCapability()}
      case InteractionResponded(response) => {response.payload.RequiredCapability()}
      case InteractionClosed(_, _, _) => {ApprovalRequests}
      case CommandIssued(command) => {command.payload.ProviderNeeds()}
    }

    /** The payloads that change the session snapshot after the stream has started. */
    predicate UpdatesSession() {
      StateChanged? || ConnectionChanged? || SessionEnded?
    }
  }

  datatype AgentEvent = AgentEvent(
    id: EventId, sessionId: SessionId, sequence: Counter, occurredAt: Timestamp, payload: EventPayload)
  {
    /** What `AgentEvent::new` and the payload constructors enforce. */
    predicate Constructible() {
      match payload
      case SessionStarted(session) => session.id == sessionId && session.Constructible()
      case InteractionRequested(request) => request.sessionId == sessionId && request.Constructible()
      case InteractionResponded(response) => response.sessionId == sessionId && response.payload.Constructible()
      case InteractionClosed(_, closedSession, _) => closedSession == sessionId
      case CommandIssued(command) => command.sessionId == sessionId
      case PlanUpdated(plan) => plan.Constructible()
      case ProgressUpdated(progress) => progress.value.Constructible()
      case _ => true
    }
  }

  // ---------- Endpoints ----------

  datatype ProviderDescriptor = ProviderDescriptor(id: ProviderId, capabilities: set<ProviderCapability>)

  datatype ChannelDescriptor = ChannelDescriptor(id: ChannelId, capabilities: set<ChannelCapability>)
}
