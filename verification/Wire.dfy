/** The JSON v2 transfer objects of interactions, plans, progress and capability lists, and their
    conversion to and from domain values. Identifier and timestamp texts are taken as given
    inverses; every other check of the decoders is modelled. */
module Wire {
  import opened Core
  import opened Interaction

  datatype WireError =
    | Invalid(source: DomainError)
    | MissingUnavailableReason
    | UnexpectedUnavailableReason

  // ---------- Lists ----------

  /** `into_iter().map(decode).collect::<Result<Vec<_>, _>>()`: the first failure wins. */
  function DecodeAll<A, B>(xs: seq<A>, decode: A -> Result<B, WireError>): Result<seq<B>, WireError> {
    if xs == [] then Ok([])
    else
      var n := |xs| - 1;
      match DecodeAll(xs[..n], decode)
      case Err(error) => Err(error)
      case Ok(earlier) =>
        match decode(xs[n])
        case Err(error) => Err(error)
        case Ok(last) => Ok(earlier + [last])
  }

  function EncodeAll<A, B>(ys: seq<B>, encode: B -> A): seq<A> {
    seq(|ys|, i requires 0 <= i < |ys| => encode(ys[i]))
  }

  lemma {:induction false} DecodeAllPointwise<A, B>(xs: seq<A>, decode: A -> Result<B, WireError>, ys: seq<B>)
    ensures DecodeAll(xs, decode) == Ok(ys) <==>
            |xs| == |ys| && forall i :: 0 <= i < |xs| ==> decode(xs[i]) == Ok(ys[i])
  {
    if xs != [] && ys != [] {
      var n := |xs| - 1;
      var earlier := ys[..|ys| - 1];
      DecodeAllPointwise(xs[..n], decode, earlier);
      assert ys == earlier + [ys[|ys| - 1]];
      var all := DecodeAll(xs, decode);
      if all == Ok(ys) {
        assert all.value[..n] == DecodeAll(xs[..n], decode).value;
      }
    }
  }

  /** A list decodes to `ys` exactly when it is the encoding of `ys` and each element may be built,
      provided the same is true of single elements. */
  lemma ListIsExact<A, B>(xs: seq<A>, decode: A -> Result<B, WireError>, ys: seq<B>, encode: B -> A,
                          buildable: B -> bool)
    requires forall x, y :: decode(x) == Ok(y) <==> buildable(y) && x == encode(y)
    ensures DecodeAll(xs, decode) == Ok(ys) <==>
            xs == EncodeAll(ys, encode) && forall i :: 0 <= i < |ys| ==> buildable(ys[i])
  {
    DecodeAllPointwise(xs, decode, ys);
    if |xs| == |ys| && forall i :: 0 <= i < |xs| ==> decode(xs[i]) == Ok(ys[i]) {
      assert forall i :: 0 <= i < |xs| ==> xs[i] == encode(ys[i]) && buildable(ys[i]);
    }
    if xs == EncodeAll(ys, encode) && forall i :: 0 <= i < |ys| ==> buildable(ys[i]) {
      assert forall i :: 0 <= i < |xs| ==> xs[i] == encode(ys[i]);
    }
  }

  // ---------- Text ----------

  function DecodeText(s: string): Result<Text, WireError> {
    match NewText(s)
    case Ok(text) => Ok(text)
    case Err(error) => Err(Invalid(error))
  }

  function DecodeOptional(s: Option<string>): Result<Option<Text>, WireError> {
    match s
    case None => Ok(None)
    case Some(text) =>
      match DecodeText(text)
      case Err(error) => Err(error)
      case Ok(t) => Ok(Some(t))
  }

  function EncodeOptional(t: Option<Text>): Option<string> {
    match t
    case None => None
    case Some(text) => Some(text)
  }

  lemma TextIsExact(s: string, t: Text)
    ensures DecodeText(s) == Ok(t) <==> s == t
  {
  }

  lemma OptionalIsExact(s: Option<string>, t: Option<Text>)
    ensures DecodeOptional(s) == Ok(t) <==> s == EncodeOptional(t)
  {
  }

  // ---------- Options ----------

  datatype ChoiceOptionDto = ChoiceOptionDto(id: OptionId, labelText: string, description: Option<string>)

  function EncodeChoiceOption(o: ChoiceOption): ChoiceOptionDto {
    ChoiceOptionDto(o.id, o.labelText, EncodeOptional(o.description))
  }

  function DecodeChoiceOption(d: ChoiceOptionDto): Result<ChoiceOption, WireError> {
    match DecodeText(d.labelText)
    case Err(error) => Err(error)
    case Ok(labelText) =>
      match DecodeOptional(d.description)
      case Err(error) => Err(error)
      case Ok(description) => Ok(ChoiceOption(d.id, labelText, description))
  }

  lemma ChoiceOptionIsExact(d: ChoiceOptionDto, o: ChoiceOption)
    ensures DecodeChoiceOption(d) == Ok(o) <==> d == EncodeChoiceOption(o)
  {
    TextIsExact(d.labelText, o.labelText);
    OptionalIsExact(d.description, o.description);
  }

  datatype ApprovalOptionDto =
    ApprovalOptionDto(id: OptionId, disposition: ApprovalDisposition, labelText: string, description: Option<string>)

  function EncodeApprovalOption(o: ApprovalOption): ApprovalOptionDto {
    ApprovalOptionDto(o.id, o.disposition, o.labelText, EncodeOptional(o.description))
  }

  function DecodeApprovalOption(d: ApprovalOptionDto): Result<ApprovalOption, WireError> {
    match DecodeText(d.labelText)
    case Err(error) => Err(error)
    case Ok(labelText) =>
      match DecodeOptional(d.description)
      case Err(error) => Err(error)
      case Ok(description) => Ok(ApprovalOption(d.id, d.disposition, labelText, description))
  }

  lemma ApprovalOptionIsExact(d: ApprovalOptionDto, o: ApprovalOption)
    ensures DecodeApprovalOption(d) == Ok(o) <==> d == EncodeApprovalOption(o)
  {
    TextIsExact(d.labelText, o.labelText);
    OptionalIsExact(d.description, o.description);
  }

  lemma ChoiceOptionsAreExact(ds: seq<ChoiceOptionDto>, os: seq<ChoiceOption>)
    ensures DecodeAll(ds, DecodeChoiceOption) == Ok(os) <==> ds == EncodeAll(os, EncodeChoiceOption)
  {
    forall d, o ensures DecodeChoiceOption(d) == Ok(o) <==> d == EncodeChoiceOption(o) {
      ChoiceOptionIsExact(d, o);
    }
    ListIsExact(ds, DecodeChoiceOption, os, EncodeChoiceOption, _ => true);
  }

  lemma ApprovalOptionsAreExact(ds: seq<ApprovalOptionDto>, os: seq<ApprovalOption>)
    ensures DecodeAll(ds, DecodeApprovalOption) == Ok(os) <==> ds == EncodeAll(os, EncodeApprovalOption)
  {
    forall d, o ensures DecodeApprovalOption(d) == Ok(o) <==> d == EncodeApprovalOption(o) {
      ApprovalOptionIsExact(d, o);
    }
    ListIsExact(ds, DecodeApprovalOption, os, EncodeApprovalOption, _ => true);
  }

  // ---------- Approval subjects ----------

  datatype NetworkDto = NetworkDto(host: string, protocol: string)

  datatype FileChangeDto = FileChangeDto(path: string, kind: ApprovalFileChangeKind, diff: string)

  datatype SubjectDto =
    | CommandDto(kind: ApprovalCommandKind, command: Option<string>, cwd: Option<string>, commandReason: Option<string>,
                 network: Option<NetworkDto>)
    | FileChangesDto(changes: seq<FileChangeDto>, grantRoot: Option<string>, changeReason: Option<string>)

  function EncodeFileChange(c: ApprovalFileChange): FileChangeDto {
    FileChangeDto(c.path, c.kind, c.diff)
  }

  function DecodeFileChange(d: FileChangeDto): Result<ApprovalFileChange, WireError> {
    match DecodeText(d.path)
    case Err(error) => Err(error)
    case Ok(path) => Ok(ApprovalFileChange(path, d.kind, d.diff))
  }

  function EncodeNetwork(n: Option<ApprovalNetworkContext>): Option<NetworkDto> {
    match n
    case None => None
    case Some(context) => Some(NetworkDto(context.host, context.protocol))
  }

  function DecodeNetwork(d: Option<NetworkDto>): Result<Option<ApprovalNetworkContext>, WireError> {
    match d
    case None => Ok(None)
    case Some(context) =>
      match DecodeText(context.host)
      case Err(error) => Err(error)
      case Ok(host) =>
        match DecodeText(context.protocol)
        case Err(error) => Err(error)
        case Ok(protocol) => Ok(Some(ApprovalNetworkContext(host, protocol)))
  }

  function EncodeSubject(s: ApprovalSubject): SubjectDto {
    match s
    case CommandSubject(kind, command, cwd, reason, network) =>
      CommandDto(kind, EncodeOptional(command), EncodeOptional(cwd), EncodeOptional(reason), EncodeNetwork(network))
    case FileChangeSubject(changes, root, reason) =>
      FileChangesDto(EncodeAll(changes, EncodeFileChange), EncodeOptional(root), EncodeOptional(reason))
  }

  function DecodeSubject(d: SubjectDto): Result<ApprovalSubject, WireError> {
    match d
    case CommandDto(kind, command, cwd, reason, network) =>
      var c, w, r, n := DecodeOptional(command), DecodeOptional(cwd), DecodeOptional(reason), DecodeNetwork(network);
      if c.Err? then Err(c.error) else if w.Err? then Err(w.error) else if r.Err? then Err(r.error)
      else if n.Err? then Err(n.error)
      else Ok(CommandSubject(kind, c.value, w.value, r.value, n.value))
    case FileChangesDto(changes, root, reason) =>
      var c, g, r := DecodeAll(changes, DecodeFileChange), DecodeOptional(root), DecodeOptional(reason);
      if c.Err? then Err(c.error) else if g.Err? then Err(g.error) else if r.Err? then Err(r.error)
      else Ok(FileChangeSubject(c.value, g.value, r.value))
  }

  lemma NetworkIsExact(d: Option<NetworkDto>, n: Option<ApprovalNetworkContext>)
    ensures DecodeNetwork(d) == Ok(n) <==> d == EncodeNetwork(n)
  {
  }

  lemma FileChangesAreExact(ds: seq<FileChangeDto>, cs: seq<ApprovalFileChange>)
    ensures DecodeAll(ds, DecodeFileChange) == Ok(cs) <==> ds == EncodeAll(cs, EncodeFileChange)
  {
    forall d, c ensures DecodeFileChange(d) == Ok(c) <==> d == EncodeFileChange(c) {
      TextIsExact(d.path, c.path);
    }
    ListIsExact(ds, DecodeFileChange, cs, EncodeFileChange, _ => true);
  }

  lemma SubjectIsExact(d: SubjectDto, s: ApprovalSubject)
    ensures DecodeSubject(d) == Ok(s) <==> d == EncodeSubject(s)
  {
    hide DecodeOptional, EncodeOptional, DecodeNetwork, EncodeNetwork, DecodeAll, EncodeAll;
    match (d, s)
    case (CommandDto(_, command, cwd, reason, network), CommandSubject(_, c, w, r, n)) =>
      OptionalIsExact(command, c);
      OptionalIsExact(cwd, w);
      OptionalIsExact(reason, r);
      NetworkIsExact(network, n);
    case (FileChangesDto(changes, root, reason), FileChangeSubject(c, g, r)) =>
      FileChangesAreExact(changes, c);
      OptionalIsExact(root, g);
      OptionalIsExact(reason, r);
    case _ =>
  }

  // ---------- Requests ----------

  datatype FormFieldDto = FormFieldDto(id: FieldId, header: string, prompt: string, options: seq<ChoiceOptionDto>,
                                       allowsOther: bool, sensitive: bool)

  datatype RequestPayloadDto =
    | ApprovalDto(subject: SubjectDto, approvalOptions: seq<ApprovalOptionDto>, unavailableReason: Option<string>)
    | ChoiceDto(choiceOptions: seq<ChoiceOptionDto>, multiple: bool)
    | TextDto(placeholder: Option<string>, multiline: bool)
    | FormDto(fields: seq<FormFieldDto>, blocking: bool)

  datatype RequestDto = RequestDto(id: InteractionId, sessionId: SessionId, requestedAt: Timestamp,
                                   expiresAt: Option<Timestamp>, prompt: string, payload: RequestPayloadDto)

  function Lift<T>(r: Result<T, DomainError>): Result<T, WireError> {
    match r
    case Ok(value) => Ok(value)
    case Err(error) => Err(Invalid(error))
  }

  function EncodeField(f: FormField): FormFieldDto {
    FormFieldDto(f.id, f.header, f.prompt, EncodeAll(f.options, EncodeChoiceOption), f.allowsOther, f.sensitive)
  }

  function DecodeField(d: FormFieldDto): Result<FormField, WireError> {
    var header, prompt, options := DecodeText(d.header), DecodeText(d.prompt), DecodeAll(d.options, DecodeChoiceOption);
    if header.Err? then Err(header.error)
    else if prompt.Err? then Err(prompt.error)
    else if options.Err? then Err(options.error)
    else Lift(NewFormField(d.id, header.value, prompt.value, options.value, d.allowsOther, d.sensitive))
  }

  lemma FieldIsExact(d: FormFieldDto, f: FormField)
    ensures DecodeField(d) == Ok(f) <==> f.Constructible() && d == EncodeField(f)
  {
    hide DecodeText, DecodeAll, EncodeAll;
    TextIsExact(d.header, f.header);
    TextIsExact(d.prompt, f.prompt);
    ChoiceOptionsAreExact(d.options, f.options);
    FormFieldIsExact(f);
  }

  lemma FieldsAreExact(ds: seq<FormFieldDto>, fs: seq<FormField>)
    ensures DecodeAll(ds, DecodeField) == Ok(fs) <==>
            ds == EncodeAll(fs, EncodeField) && forall i :: 0 <= i < |fs| ==> fs[i].Constructible()
  {
    hide DecodeField, EncodeField;
    forall d, f ensures DecodeField(d) == Ok(f) <==> f.Constructible() && d == EncodeField(f) {
      FieldIsExact(d, f);
    }
    ListIsExact(ds, DecodeField, fs, EncodeField, (f: FormField) => f.Constructible());
  }

  function EncodeRequestPayload(p: RequestPayload): RequestPayloadDto {
    match p
    case ApprovalRequest(subject, options, reason) =>
      ApprovalDto(EncodeSubject(subject), EncodeAll(options, EncodeApprovalOption), EncodeOptional(reason))
    case ChoiceRequest(options, multiple) => ChoiceDto(EncodeAll(options, EncodeChoiceOption), multiple)
    case TextRequest(placeholder, multiline) => TextDto(EncodeOptional(placeholder), multiline)
    case FormRequest(fields, blocking) => FormDto(EncodeAll(fields, EncodeField), blocking)
  }

  function DecodeApproval(d: RequestPayloadDto): Result<RequestPayload, WireError>
    requires d.ApprovalDto?
  {
    var subject, options := DecodeSubject(d.subject), DecodeAll(d.approvalOptions, DecodeApprovalOption);
    if subject.Err? then Err(subject.error)
    else if options.Err? then Err(options.error)
    else if options.value != [] && d.unavailableReason.None? then
      Lift(NewActionableApproval(subject.value, options.value))
    else if options.value != [] then Err(UnexpectedUnavailableReason)
    else if d.unavailableReason.None? then Err(MissingUnavailableReason)
    else match DecodeText(d.unavailableReason.value)
      case Err(error) => Err(error)
      case Ok(reason) => Ok(ApprovalRequest(subject.value, [], Some(reason)))
  }

  function DecodeRequestPayload(d: RequestPayloadDto): Result<RequestPayload, WireError> {
    match d
    case ApprovalDto(_, _, _) => DecodeApproval(d)
    case ChoiceDto(options, multiple) =>
      var decoded := DecodeAll(options, DecodeChoiceOption);
      if decoded.Err? then Err(decoded.error) else Lift(NewChoice(decoded.value, multiple))
    case TextDto(placeholder, multiline) =>
      var decoded := DecodeOptional(placeholder);
      if decoded.Err? then Err(decoded.error) else Ok(TextRequest(decoded.value, multiline))
    case FormDto(fields, blocking) =>
      var decoded := DecodeAll(fields, DecodeField);
      if decoded.Err? then Err(decoded.error) else Lift(NewForm(decoded.value, blocking))
  }

  lemma ApprovalIsExact(d: RequestPayloadDto, p: RequestPayload)
    requires d.ApprovalDto?
    ensures DecodeApproval(d) == Ok(p) <==> p.Constructible() && d == EncodeRequestPayload(p)
  {
    hide DecodeSubject, EncodeSubject, DecodeAll, EncodeAll, DecodeText;
    if p.ApprovalRequest? {
      SubjectIsExact(d.subject, p.subject);
      ApprovalOptionsAreExact(d.approvalOptions, p.approvalOptions);
      OptionalIsExact(d.unavailableReason, p.unavailableReason);
      ConstructorsAreExact(p);
    }
  }

  /** An approval needs options or a reason why there are none, and never both. */
  lemma ApprovalErrors(d: RequestPayloadDto)
    requires d.ApprovalDto? && DecodeSubject(d.subject).Ok?
    requires DecodeAll(d.approvalOptions, DecodeApprovalOption).Ok?
    ensures DecodeApproval(d) == Err(MissingUnavailableReason) <==>
            d.approvalOptions == [] && d.unavailableReason.None?
    ensures DecodeApproval(d) == Err(UnexpectedUnavailableReason) <==>
            d.approvalOptions != [] && d.unavailableReason.Some?
  {
    hide DecodeSubject, DecodeAll;
    DecodeAllPointwise(d.approvalOptions, DecodeApprovalOption, DecodeAll(d.approvalOptions, DecodeApprovalOption).value);
  }

  lemma RequestPayloadIsExact(d: RequestPayloadDto, p: RequestPayload)
    ensures DecodeRequestPayload(d) == Ok(p) <==> p.Constructible() && d == EncodeRequestPayload(p)
  {
    hide DecodeApproval, DecodeAll, EncodeAll, DecodeOptional, EncodeOptional, EncodeSubject;
    if d.ApprovalDto? {
      ApprovalIsExact(d, p);
    } else {
      match p
      case ApprovalRequest(_, _, _) =>
      case ChoiceRequest(options, _) =>
        if d.ChoiceDto? { ChoiceOptionsAreExact(d.choiceOptions, options); }
        ConstructorsAreExact(p);
      case TextRequest(placeholder, _) =>
        if d.TextDto? { OptionalIsExact(d.placeholder, placeholder); }
      case FormRequest(fields, _) =>
        if d.FormDto? { FieldsAreExact(d.fields, fields); }
        ConstructorsAreExact(p);
    }
  }

  function EncodeRequest(r: InteractionRequest): RequestDto {
    RequestDto(r.id, r.sessionId, r.requestedAt, r.expiresAt, r.prompt, EncodeRequestPayload(r.payload))
  }

  function DecodeRequest(d: RequestDto): Result<InteractionRequest, WireError> {
    var prompt, payload := DecodeText(d.prompt), DecodeRequestPayload(d.payload);
    if prompt.Err? then Err(prompt.error)
    else if payload.Err? then Err(payload.error)
    else Lift(NewRequest(d.id, d.sessionId, d.requestedAt, d.expiresAt, prompt.value, payload.value))
  }

  /** A request transfer object decodes to `r` exactly when it is the encoding of `r` and `r` could
      have been built by the domain constructors. */
  lemma RequestIsExact(d: RequestDto, r: InteractionRequest)
    ensures DecodeRequest(d) == Ok(r) <==> r.Constructible() && d == EncodeRequest(r)
  {
    hide DecodeText, DecodeRequestPayload, EncodeRequestPayload;
    TextIsExact(d.prompt, r.prompt);
    RequestPayloadIsExact(d.payload, r.payload);
  }

  // ---------- Responses ----------

  datatype AnswerValueDto = ChoiceAnswerDto(option: OptionId) | TextAnswerDto(text: string)

  datatype AnswerDto = AnswerDto(fieldId: FieldId, value: AnswerValueDto)

  datatype ResponsePayloadDto =
    | ApprovalResponseDto(selected: OptionId)
    | ChoiceResponseDto(selection: seq<OptionId>)
    | TextResponseDto(text: string)
    | FormResponseDto(answers: seq<AnswerDto>)

  datatype ResponseDto = ResponseDto(requestId: InteractionId, sessionId: SessionId, channelId: ChannelId,
                                     respondedAt: Timestamp, payload: ResponsePayloadDto)

  function EncodeAnswer(a: FormAnswer): AnswerDto {
    AnswerDto(a.fieldId, match a.value
                         case ChoiceAnswer(option) => ChoiceAnswerDto(option)
                         case TextAnswer(text) => TextAnswerDto(text))
  }

  function DecodeAnswer(d: AnswerDto): Result<FormAnswer, WireError> {
    match d.value
    case ChoiceAnswerDto(option) => Ok(FormAnswer(d.fieldId, ChoiceAnswer(option)))
    case TextAnswerDto(text) =>
      match DecodeText(text)
      case Err(error) => Err(error)
      case Ok(t) => Ok(FormAnswer(d.fieldId, TextAnswer(t)))
  }

  lemma AnswersAreExact(ds: seq<AnswerDto>, answers: seq<FormAnswer>)
    ensures DecodeAll(ds, DecodeAnswer) == Ok(answers) <==> ds == EncodeAll(answers, EncodeAnswer)
  {
    forall d, a ensures DecodeAnswer(d) == Ok(a) <==> d == EncodeAnswer(a) {
      if d.value.TextAnswerDto? && a.value.TextAnswer? {
        TextIsExact(d.value.text, a.value.text);
      }
    }
    ListIsExact(ds, DecodeAnswer, answers, EncodeAnswer, _ => true);
  }

  function EncodeResponsePayload(p: ResponsePayload): ResponsePayloadDto {
    match p
    case ApprovalResponse(option) => ApprovalResponseDto(option)
    case ChoiceResponse(ids) => ChoiceResponseDto(ids)
    case TextResponse(text) => TextResponseDto(text)
    case FormResponse(answers) => FormResponseDto(EncodeAll(answers, EncodeAnswer))
  }

  function DecodeResponsePayload(d: ResponsePayloadDto): Result<ResponsePayload, WireError> {
    match d
    case ApprovalResponseDto(option) => Ok(ApprovalResponse(option))
    case ChoiceResponseDto(ids) => Lift(NewSelection(ids))
    case TextResponseDto(text) =>
      (match DecodeText(text)
       case Err(error) => Err(error)
       case Ok(t) => Ok(TextResponse(t)))
    case FormResponseDto(answers) =>
      var decoded := DecodeAll(answers, DecodeAnswer);
      if decoded.Err? then Err(decoded.error) else Lift(NewFormResponse(decoded.value))
  }

  function EncodeResponse(r: InteractionResponse): ResponseDto {
    ResponseDto(r.requestId, r.sessionId, r.channelId, r.respondedAt, EncodeResponsePayload(r.payload))
  }

  function DecodeResponse(d: ResponseDto): Result<InteractionResponse, WireError> {
    match DecodeResponsePayload(d.payload)
    case Err(error) => Err(error)
    case Ok(payload) => Ok(InteractionResponse(d.requestId, d.sessionId, d.channelId, d.respondedAt, payload))
  }

  /** The same for responses. */
  lemma ResponseIsExact(d: ResponseDto, r: InteractionResponse)
    ensures DecodeResponse(d) == Ok(r) <==> r.payload.Constructible() && d == EncodeResponse(r)
  {
    hide DecodeAll, EncodeAll;
    ResponsesAreExact(r.payload);
    match r.payload
    case FormResponse(answers) =>
      if d.payload.FormResponseDto? { AnswersAreExact(d.payload.answers, answers); }
    case TextResponse(text) =>
      if d.payload.TextResponseDto? { TextIsExact(d.payload.text, text); }
    case _ =>
  }

  // ---------- Plans and progress ----------

  datatype PlanItemDto = PlanItemDto(id: PlanItemId, content: string, status: PlanItemStatus)

  datatype PlanDto = PlanDto(revision: U64, explanation: Option<string>, items: seq<PlanItemDto>)

  datatype ProgressValueDto = IndeterminateDto | DeterminateDto(completed: U64, total: U64)

  datatype ProgressDto = ProgressDto(revision: U64, value: ProgressValueDto, message: Option<string>)

  function DecodeRevision(n: U64): Result<Counter, WireError> {
    if n == 0 then Err(Invalid(ZeroValue)) else Ok(n)
  }

  function EncodePlanItem(i: PlanItem): PlanItemDto {
    PlanItemDto(i.id, i.content, i.status)
  }

  function DecodePlanItem(d: PlanItemDto): Result<PlanItem, WireError> {
    match DecodeText(d.content)
    case Err(error) => Err(error)
    case Ok(content) => Ok(PlanItem(d.id, content, d.status))
  }

  function EncodePlan(p: PlanSnapshot): PlanDto {
    PlanDto(p.revision, EncodeOptional(p.explanation), EncodeAll(p.items, EncodePlanItem))
  }

  function DecodePlan(d: PlanDto): Result<PlanSnapshot, WireError> {
    var items, revision := DecodeAll(d.items, DecodePlanItem), DecodeRevision(d.revision);
    if items.Err? then Err(items.error)
    else if revision.Err? then Err(revision.error)
    else match NewPlan(revision.value, None, items.value)
      case Err(error) => Err(Invalid(error))
      case Ok(plan) =>
        match DecodeOptional(d.explanation)
        case Err(error) => Err(error)
        case Ok(explanation) => Ok(plan.(explanation := explanation))
  }

  lemma PlanIsExact(d: PlanDto, p: PlanSnapshot)
    ensures DecodePlan(d) == Ok(p) <==> p.Constructible() && d == EncodePlan(p)
  {
    hide DecodeAll, EncodeAll, DecodeOptional, EncodeOptional;
    forall i, item ensures DecodePlanItem(i) == Ok(item) <==> i == EncodePlanItem(item) {
      TextIsExact(i.content, item.content);
    }
    ListIsExact(d.items, DecodePlanItem, p.items, EncodePlanItem, _ => true);
    OptionalIsExact(d.explanation, p.explanation);
    var ids := PlanIds(p.items);
    NoDuplicateIffUnique(ids);
    assert forall i :: 0 <= i < |ids| ==> ids[i] == p.items[i].id;
  }

  function EncodeProgressValue(v: ProgressValue): ProgressValueDto {
    match v
    case Indeterminate => IndeterminateDto
    case Determinate(completed, total) => DeterminateDto(completed, total)
  }

  function DecodeProgressValue(d: ProgressValueDto): Result<ProgressValue, WireError> {
    match d
    case IndeterminateDto => Ok(Indeterminate)
    case DeterminateDto(completed, total) => Lift(NewDeterminate(completed, total))
  }

  function EncodeProgress(p: ProgressSnapshot): ProgressDto {
    ProgressDto(p.revision, EncodeProgressValue(p.value), EncodeOptional(p.message))
  }

  function DecodeProgress(d: ProgressDto): Result<ProgressSnapshot, WireError> {
    var revision, value, message := DecodeRevision(d.revision), DecodeProgressValue(d.value), DecodeOptional(d.message);
    if revision.Err? then Err(revision.error)
    else if value.Err? then Err(value.error)
    else if message.Err? then Err(message.error)
    else Ok(ProgressSnapshot(revision.value, value.value, message.value))
  }

  lemma ProgressIsExact(d: ProgressDto, p: ProgressSnapshot)
    ensures DecodeProgress(d) == Ok(p) <==> p.value.Constructible() && d == EncodeProgress(p)
  {
    OptionalIsExact(d.message, p.message);
  }

  // ---------- Field by field ----------

  /** The same text, or its absence. */
  ghost predicate SameText(text: Option<Text>, wire: Option<string>) {
    if text.None? then wire.None? else wire.Some? && wire.value == text.value
  }

  ghost predicate ShowsChoice(o: ChoiceOption, d: ChoiceOptionDto) {
    d.id == o.id && d.labelText == o.labelText && SameText(o.description, d.description)
  }

  ghost predicate ShowsApproval(o: ApprovalOption, d: ApprovalOptionDto) {
    d.id == o.id && d.disposition == o.disposition && d.labelText == o.labelText && SameText(o.description, d.description)
  }

  ghost predicate ShowsChoices(os: seq<ChoiceOption>, ds: seq<ChoiceOptionDto>) {
    |ds| == |os| && forall i :: 0 <= i < |os| ==> ShowsChoice(os[i], ds[i])
  }

  ghost predicate ShowsSubject(s: ApprovalSubject, d: SubjectDto) {
    match s
    case CommandSubject(kind, command, cwd, reason, network) =>
      && d.CommandDto? && d.kind == kind && SameText(command, d.command) && SameText(cwd, d.cwd)
      && SameText(reason, d.commandReason)
      && (if network.None? then d.network.None?
          else d.network.Some? && d.network.value.host == network.value.host
               && d.network.value.protocol == network.value.protocol)
    case FileChangeSubject(changes, root, reason) =>
      && d.FileChangesDto? && SameText(root, d.grantRoot) && SameText(reason, d.changeReason)
      && |d.changes| == |changes|
      && forall i :: 0 <= i < |changes| ==>
           d.changes[i].path == changes[i].path && d.changes[i].kind == changes[i].kind
           && d.changes[i].diff == changes[i].diff
  }

  ghost predicate ShowsField(f: FormField, d: FormFieldDto) {
    && d.id == f.id && d.header == f.header && d.prompt == f.prompt && ShowsChoices(f.options, d.options)
    && d.allowsOther == f.allowsOther && d.sensitive == f.sensitive
  }

  ghost predicate ShowsRequestPayload(p: RequestPayload, d: RequestPayloadDto) {
    match p
    case ApprovalRequest(subject, options, reason) =>
      && d.ApprovalDto? && ShowsSubject(subject, d.subject) && SameText(reason, d.unavailableReason)
      && |d.approvalOptions| == |options|
      && forall i :: 0 <= i < |options| ==> ShowsApproval(options[i], d.approvalOptions[i])
    case ChoiceRequest(options, multiple) =>
      d.ChoiceDto? && ShowsChoices(options, d.choiceOptions) && d.multiple == multiple
    case TextRequest(placeholder, multiline) =>
      d.TextDto? && SameText(placeholder, d.placeholder) && d.multiline == multiline
    case FormRequest(fields, blocking) =>
      && d.FormDto? && d.blocking == blocking && |d.fields| == |fields|
      && forall i :: 0 <= i < |fields| ==> ShowsField(fields[i], d.fields[i])
  }

  lemma ChoicesAreShown(os: seq<ChoiceOption>)
    ensures ShowsChoices(os, EncodeAll(os, EncodeChoiceOption))
  {
    forall i | 0 <= i < |os| ensures ShowsChoice(os[i], EncodeAll(os, EncodeChoiceOption)[i]) {
      assert EncodeAll(os, EncodeChoiceOption)[i] == EncodeChoiceOption(os[i]);
    }
  }

  lemma SubjectIsShown(s: ApprovalSubject)
    ensures ShowsSubject(s, EncodeSubject(s))
  {
    if s.FileChangeSubject? {
      forall i | 0 <= i < |s.changes|
        ensures EncodeAll(s.changes, EncodeFileChange)[i] == EncodeFileChange(s.changes[i])
      {
      }
    }
  }

  lemma FieldIsShown(f: FormField)
    ensures ShowsField(f, EncodeField(f))
  {
    ChoicesAreShown(f.options);
  }

  /** Each field of a request's transfer object is the field of the same name of the request. */
  lemma RequestFields(r: InteractionRequest)
    ensures var d := EncodeRequest(r);
            && d.id == r.id && d.sessionId == r.sessionId && d.requestedAt == r.requestedAt
            && d.expiresAt == r.expiresAt && d.prompt == r.prompt && ShowsRequestPayload(r.payload, d.payload)
  {
    hide EncodeSubject, ShowsSubject, EncodeField, ShowsField, ShowsChoices;
    match r.payload
    case ApprovalRequest(subject, options, _) =>
      SubjectIsShown(subject);
      forall i | 0 <= i < |options| ensures ShowsApproval(options[i], EncodeAll(options, EncodeApprovalOption)[i]) {
        assert EncodeAll(options, EncodeApprovalOption)[i] == EncodeApprovalOption(options[i]);
      }
    case ChoiceRequest(options, _) => ChoicesAreShown(options);
    case TextRequest(_, _) =>
    case FormRequest(fields, _) =>
      forall i | 0 <= i < |fields| ensures ShowsField(fields[i], EncodeAll(fields, EncodeField)[i]) {
        assert EncodeAll(fields, EncodeField)[i] == EncodeField(fields[i]);
        FieldIsShown(fields[i]);
      }
  }

  ghost predicate ShowsResponsePayload(p: ResponsePayload, d: ResponsePayloadDto) {
    match p
    case ApprovalResponse(option) => d.ApprovalResponseDto? && d.selected == option
    case ChoiceResponse(ids) => d.ChoiceResponseDto? && d.selection == ids
    case TextResponse(text) => d.TextResponseDto? && d.text == text
    case FormResponse(answers) =>
      && d.FormResponseDto? && |d.answers| == |answers|
      && forall i :: 0 <= i < |answers| ==>
           && d.answers[i].fieldId == answers[i].fieldId
           && match answers[i].value
              case ChoiceAnswer(option) => d.answers[i].value == ChoiceAnswerDto(option)
              case TextAnswer(text) => d.answers[i].value == TextAnswerDto(text)
  }

  lemma ResponseFields(r: InteractionResponse)
    ensures var d := EncodeResponse(r);
            && d.requestId == r.requestId && d.sessionId == r.sessionId && d.channelId == r.channelId
            && d.respondedAt == r.respondedAt && ShowsResponsePayload(r.payload, d.payload)
  {
    if r.payload.FormResponse? {
      var answers := r.payload.answers;
      forall i | 0 <= i < |answers| ensures EncodeAll(answers, EncodeAnswer)[i] == EncodeAnswer(answers[i]) {
      }
    }
  }

  lemma PlanFields(p: PlanSnapshot)
    ensures var d := EncodePlan(p);
            && d.revision == p.revision && SameText(p.explanation, d.explanation) && |d.items| == |p.items|
            && forall i :: 0 <= i < |p.items| ==>
                 d.items[i].id == p.items[i].id && d.items[i].content == p.items[i].content
                 && d.items[i].status == p.items[i].status
  {
    forall i | 0 <= i < |p.items| ensures EncodeAll(p.items, EncodePlanItem)[i] == EncodePlanItem(p.items[i]) {
    }
  }

  lemma ProgressFields(p: ProgressSnapshot)
    ensures var d := EncodeProgress(p);
            && d.revision == p.revision && SameText(p.message, d.message)
            && (p.value.Indeterminate? ==> d.value.IndeterminateDto?)
            && (p.value.Determinate? ==> d.value.DeterminateDto? && d.value.completed == p.value.completed
                                         && d.value.total == p.value.total)
  {
  }

  // ---------- Capability lists ----------

  ghost predicate Distinct<T>(xs: seq<T>) {
    forall i, j :: 0 <= i < j < |xs| ==> xs[i] != xs[j]
  }

  function Elements<T>(xs: seq<T>): set<T> {
    set x | x in xs
  }

  const PROVIDER_ORDER: seq<ProviderCapability> :=
    [SessionState, ToolEvents, ProviderCapability.Plan, ProviderCapability.Progress, ApprovalRequests,
     ApprovalResponses, UserInputRequests, UserInputResponses, PromptSubmit, Cancel, Control]

  const CHANNEL_ORDER: seq<ChannelCapability> :=
    [Notification, SessionView, ToolView, PlanView, ProgressView, RichMessage, ApprovalInput, ChoiceInput, TextInput,
     FormInput, RealtimeSync, RemoteCommand]

  /** The known capabilities that are set, in the fixed order of the table. */
  function EncodeCapabilities<T(==)>(known: seq<T>, capabilities: set<T>): seq<T> {
    if known == [] then []
    else
      var n := |known| - 1;
      EncodeCapabilities(known[..n], capabilities) + if known[n] in capabilities then [known[n]] else []
  }

  /** The decoder's loop over a fresh `HashSet` and an accumulator: it accepts exactly the lists
      without a repetition, and then holds exactly the listed capabilities. */
  method DecodeCapabilities<T(==)>(values: seq<T>) returns (r: Option<set<T>>)
    ensures r.Some? <==> Distinct(values)
    ensures r.Some? ==> r.value == Elements(values)
  {
    var seen: set<T> := {};
    var capabilities: set<T> := {};
    for i := 0 to |values|
      invariant Distinct(values[..i]) && seen == capabilities == Elements(values[..i])
    {
      if values[i] in seen {
        var j :| 0 <= j < i && values[..i][j] == values[i];
        assert values[j] == values[i];
        return None;
      }
      seen := seen + {values[i]};
      capabilities := capabilities + {values[i]};
      assert values[..i + 1] == values[..i] + [values[i]];
    }
    assert values[..|values|] == values;
    r := Some(capabilities);
  }

  /** `a` comes before `b` in the table. */
  ghost predicate Precedes<T(!new)>(known: seq<T>, a: T, b: T) {
    exists i, j :: 0 <= i < j < |known| && known[i] == a && known[j] == b
  }

  ghost predicate InOrder<T(!new)>(known: seq<T>, xs: seq<T>) {
    forall i, j :: 0 <= i < j < |xs| ==> Precedes(known, xs[i], xs[j])
  }

  lemma {:induction false} EncodingIsOrdered<T(!new)>(known: seq<T>, capabilities: set<T>)
    requires Distinct(known)
    ensures var xs := EncodeCapabilities(known, capabilities);
            && (forall x :: x in xs <==> x in known && x in capabilities)
            && InOrder(known, xs) && Distinct(xs)
  {
    if known != [] {
      var n := |known| - 1;
      var earlier, xs := EncodeCapabilities(known[..n], capabilities), EncodeCapabilities(known, capabilities);
      EncodingIsOrdered(known[..n], capabilities);
      assert known == known[..n] + [known[n]];
      forall i, j | 0 <= i < j < |xs| ensures Precedes(known, xs[i], xs[j]) && xs[i] != xs[j] {
        if j < |earlier| {
          assert Precedes(known[..n], earlier[i], earlier[j]);
          var a, b :| 0 <= a < b < n && known[..n][a] == earlier[i] && known[..n][b] == earlier[j];
          assert known[a] == xs[i] && known[b] == xs[j];
        } else {
          assert earlier[i] in earlier;
          var a :| 0 <= a < n && known[..n][a] == xs[i];
          assert known[a] == xs[i] && known[n] == xs[j];
        }
      }
    }
  }

  lemma OrdersAreComplete()
    ensures Distinct(PROVIDER_ORDER) && forall c: ProviderCapability :: c in PROVIDER_ORDER
    ensures Distinct(CHANNEL_ORDER) && forall c: ChannelCapability :: c in CHANNEL_ORDER
  {
    forall c: ProviderCapability ensures c in PROVIDER_ORDER {
      match c
      case SessionState => assert PROVIDER_ORDER[0] == c;
      case ToolEvents => assert PROVIDER_ORDER[1] == c;
      case Plan => assert PROVIDER_ORDER[2] == c;
      case Progress => assert PROVIDER_ORDER[3] == c;
      case ApprovalRequests => assert PROVIDER_ORDER[4] == c;
      case ApprovalResponses => assert PROVIDER_ORDER[5] == c;
      case UserInputRequests => assert PROVIDER_ORDER[6] == c;
      case UserInputResponses => assert PROVIDER_ORDER[7] == c;
      case PromptSubmit => assert PROVIDER_ORDER[8] == c;
      case Cancel => assert PROVIDER_ORDER[9] == c;
      case Control => assert PROVIDER_ORDER[10] == c;
    }
    forall c: ChannelCapability ensures c in CHANNEL_ORDER {
      match c
      case Notification => assert CHANNEL_ORDER[0] == c;
      case SessionView => assert CHANNEL_ORDER[1] == c;
      case ToolView => assert CHANNEL_ORDER[2] == c;
      case PlanView => assert CHANNEL_ORDER[3] == c;
      case ProgressView => assert CHANNEL_ORDER[4] == c;
      case RichMessage => assert CHANNEL_ORDER[5] == c;
      case ApprovalInput => assert CHANNEL_ORDER[6] == c;
      case ChoiceInput => assert CHANNEL_ORDER[7] == c;
      case TextInput => assert CHANNEL_ORDER[8] == c;
      case FormInput => assert CHANNEL_ORDER[9] == c;
      case RealtimeSync => assert CHANNEL_ORDER[10] == c;
      case RemoteCommand => assert CHANNEL_ORDER[11] == c;
    }
  }

  /** Encoding a decoded list sorts it: the same capabilities, each once, in the table's order;
      and decoding an encoding gives the same set back. */
  lemma CapabilitiesRoundTrip<T(!new)>(known: seq<T>, values: seq<T>, capabilities: set<T>)
    requires Distinct(known) && forall c: T :: c in known
    ensures var encoded := EncodeCapabilities(known, capabilities);
            Distinct(encoded) && Elements(encoded) == capabilities && InOrder(known, encoded)
    ensures Distinct(values) ==>
              multiset(EncodeCapabilities(known, Elements(values))) == multiset(values)
  {
    EncodingIsOrdered(known, capabilities);
    EncodingIsOrdered(known, Elements(values));
    if Distinct(values) {
      DistinctCounts(values);
      DistinctCounts(EncodeCapabilities(known, Elements(values)));
    }
  }

  /** Both capability codecs, on their own tables. */
  lemma CapabilityCodecsRoundTrip(provider: set<ProviderCapability>, channel: set<ChannelCapability>,
                                  providerList: seq<ProviderCapability>, channelList: seq<ChannelCapability>)
    ensures var encoded := EncodeCapabilities(PROVIDER_ORDER, provider);
            Distinct(encoded) && Elements(encoded) == provider && InOrder(PROVIDER_ORDER, encoded)
    ensures var encoded := EncodeCapabilities(CHANNEL_ORDER, channel);
            Distinct(encoded) && Elements(encoded) == channel && InOrder(CHANNEL_ORDER, encoded)
    ensures Distinct(providerList) ==>
              multiset(EncodeCapabilities(PROVIDER_ORDER, Elements(providerList))) == multiset(providerList)
    ensures Distinct(channelList) ==>
              multiset(EncodeCapabilities(CHANNEL_ORDER, Elements(channelList))) == multiset(channelList)
  {
    hide EncodeCapabilities, InOrder;
    OrdersAreComplete();
    CapabilitiesRoundTrip(PROVIDER_ORDER, providerList, provider);
    CapabilitiesRoundTrip(CHANNEL_ORDER, channelList, channel);
  }

  lemma {:induction false} DistinctCounts<T>(xs: seq<T>)
    requires Distinct(xs)
    ensures multiset(xs) == multiset(Elements(xs))
  {
    if xs != [] {
      var n := |xs| - 1;
      DistinctCounts(xs[..n]);
      assert xs == xs[..n] + [xs[n]];
      assert xs[n] !in xs[..n];
      assert Elements(xs) == Elements(xs[..n]) + {xs[n]};
    }
  }
}
