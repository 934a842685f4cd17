/** Construction of correlated interaction requests and responses, and the check of a response
    against its request. */
module Interaction {
  import opened Core

  datatype Outcome<+E> = Pass | Fail(error: E)

  datatype DomainError =
    | BlankText
    | ZeroValue
    | EmptyCollection
    | DuplicateId(duplicate: nat)
    | InvalidProgress
    | CustomAnswerRequired
    | SingleChoiceRequired
    | IncompleteForm
    | UnknownFormOption
    | CustomAnswerRefused
    | RequestMismatch
    | SessionMismatch
    | RespondedBeforeRequest
    | ExpiresBeforeRequest
    | InteractionExpired
    | ApprovalUnavailable
    | UnknownApprovalOption(approvalOption: OptionId)
    | UnknownChoiceOption(choiceOption: OptionId)
    | InteractionTypeMismatch

  // ---------- Uniqueness of identifiers ----------

  /** The first identifier that repeats an earlier one. */
  function FirstDuplicate(ids: seq<nat>): Option<nat> {
    if ids == [] then None
    else
      var earlier := ids[..|ids| - 1];
      var found := FirstDuplicate(earlier);
      if found.Some? then found
      else if ids[|ids| - 1] in earlier then Some(ids[|ids| - 1])
      else None
  }

  lemma {:induction false} NoDuplicateIffUnique(ids: seq<nat>)
    ensures FirstDuplicate(ids).None? <==> UniqueIds(ids)
    ensures FirstDuplicate(ids).Some? ==> multiset(ids)[FirstDuplicate(ids).value] >= 2
  {
    if ids != [] {
      var n := |ids| - 1;
      var earlier := ids[..n];
      assert ids == earlier + [ids[n]];
      NoDuplicateIffUnique(earlier);
      if UniqueIds(ids) {
        assert forall i, j :: 0 <= i < j < n ==> ids[i] == earlier[i] && ids[j] == earlier[j];
      }
    }
  }

  /** The loop every validating constructor runs over a fresh `HashSet`. */
  method FindDuplicate(ids: seq<nat>) returns (duplicate: Option<nat>)
    ensures duplicate == FirstDuplicate(ids)
  {
    var seen: set<nat> := {};
    for k := 0 to |ids|
      invariant FirstDuplicate(ids[..k]).None?
      invariant seen == set x | x in ids[..k]
    {
      assert ids[..k + 1][..k] == ids[..k];
      if ids[k] in seen {
        DuplicateInPrefix(ids, k + 1);
        return Some(ids[k]);
      }
      seen := seen + {ids[k]};
    }
    assert ids[..|ids|] == ids;
    duplicate := None;
  }

  lemma {:induction false} DuplicateInPrefix(ids: seq<nat>, k: nat)
    requires k <= |ids| && FirstDuplicate(ids[..k]).Some?
    ensures FirstDuplicate(ids) == FirstDuplicate(ids[..k])
    decreases |ids|
  {
    if k < |ids| {
      assert ids[..|ids| - 1][..k] == ids[..k];
      DuplicateInPrefix(ids[..|ids| - 1], k);
    } else {
      assert ids[..k] == ids;
    }
  }

  function ApprovalIds(options: seq<ApprovalOption>): seq<nat> {
    seq(|options|, i requires 0 <= i < |options| => options[i].id)
  }

  function ChoiceIds(options: seq<ChoiceOption>): seq<nat> {
    seq(|options|, i requires 0 <= i < |options| => options[i].id)
  }

  function FieldIds(fields: seq<FormField>): seq<nat> {
    seq(|fields|, i requires 0 <= i < |fields| => fields[i].id)
  }

  function AnswerIds(answers: seq<FormAnswer>): seq<nat> {
    seq(|answers|, i requires 0 <= i < |answers| => answers[i].fieldId)
  }

  function PlanIds(items: seq<PlanItem>): seq<nat> {
    seq(|items|, i requires 0 <= i < |items| => items[i].id)
  }

  // ---------- Validating constructors ----------

  function NewText(s: string): Result<Text, DomainError> {
    if Blank(s) then Err(BlankText) else Ok(s)
  }

  function NewActionableApproval(subject: ApprovalSubject, options: seq<ApprovalOption>)
    : Result<RequestPayload, DomainError>
  {
    if options == [] then Err(EmptyCollection)
    else match FirstDuplicate(ApprovalIds(options))
      case Some(id) => Err(DuplicateId(id))
      case None => Ok(ApprovalRequest(subject, options, None))
  }

  function NewChoice(options: seq<ChoiceOption>, multiple: bool): Result<RequestPayload, DomainError> {
    if options == [] then Err(EmptyCollection)
    else match FirstDuplicate(ChoiceIds(options))
      case Some(id) => Err(DuplicateId(id))
      case None => Ok(ChoiceRequest(options, multiple))
  }

  function NewFormField(id: FieldId, header: Text, prompt: Text, options: seq<ChoiceOption>,
                        allowsOther: bool, sensitive: bool): Result<FormField, DomainError> {
    match FirstDuplicate(ChoiceIds(options))
    case Some(duplicate) => Err(DuplicateId(duplicate))
    case None =>
      if options == [] && !allowsOther then Err(CustomAnswerRequired)
      else Ok(FormField(id, header, prompt, options, allowsOther, sensitive))
  }

  function NewForm(fields: seq<FormField>, blocking: bool): Result<RequestPayload, DomainError> {
    if fields == [] then Err(EmptyCollection)
    else match FirstDuplicate(FieldIds(fields))
      case Some(id) => Err(DuplicateId(id))
      case None => Ok(FormRequest(fields, blocking))
  }

  function NewRequest(id: InteractionId, sessionId: SessionId, requestedAt: Timestamp,
                      expiresAt: Option<Timestamp>, prompt: Text, payload: RequestPayload)
    : Result<InteractionRequest, DomainError>
  {
    if expiresAt.Some? && expiresAt.value <= requestedAt then Err(ExpiresBeforeRequest)
    else Ok(InteractionRequest(id, sessionId, requestedAt, expiresAt, prompt, payload))
  }

  function NewSelection(ids: seq<OptionId>): Result<ResponsePayload, DomainError> {
    if ids == [] then Err(EmptyCollection)
    else match FirstDuplicate(ids)
      case Some(id) => Err(DuplicateId(id))
      case None => Ok(ChoiceResponse(ids))
  }

  function NewFormResponse(answers: seq<FormAnswer>): Result<ResponsePayload, DomainError> {
    if answers == [] then Err(EmptyCollection)
    else match FirstDuplicate(AnswerIds(answers))
      case Some(id) => Err(DuplicateId(id))
      case None => Ok(FormResponse(answers))
  }

  function NewPlan(revision: Counter, explanation: Option<Text>, items: seq<PlanItem>)
    : Result<PlanSnapshot, DomainError>
  {
    match FirstDuplicate(PlanIds(items))
    case Some(id) => Err(DuplicateId(id))
    case None => Ok(PlanSnapshot(revision, explanation, items))
  }

  function NewDeterminate(completed: U64, total: U64): Result<ProgressValue, DomainError> {
    if total == 0 then Err(ZeroValue)
    else if completed > total then Err(InvalidProgress)
    else Ok(Determinate(completed, total))
  }

  /** The payload constructors accept exactly the constructible payloads. */
  lemma ConstructorsAreExact(p: RequestPayload)
    ensures p.ApprovalRequest? && p.unavailableReason.None? ==>
              (NewActionableApproval(p.subject, p.approvalOptions) == Ok(p) <==> p.Constructible())
    ensures p.ChoiceRequest? ==> (NewChoice(p.choiceOptions, p.multiple) == Ok(p) <==> p.Constructible())
    ensures p.FormRequest? && (forall i :: 0 <= i < |p.fields| ==> p.fields[i].Constructible()) ==>
              (NewForm(p.fields, p.blocking) == Ok(p) <==> p.Constructible())
  {
    match p
    case ApprovalRequest(_, options, _) =>
      var ids := ApprovalIds(options);
      NoDuplicateIffUnique(ids);
      assert forall i :: 0 <= i < |ids| ==> ids[i] == options[i].id;
      assert UniqueIds(ids) <==> UniqueApprovalIds(options);
    case ChoiceRequest(options, _) =>
      UniqueChoiceIffNoDuplicate(options);
    case TextRequest(_, _) =>
    case FormRequest(fields, _) =>
      var ids := FieldIds(fields);
      NoDuplicateIffUnique(ids);
      assert forall i :: 0 <= i < |ids| ==> ids[i] == fields[i].id;
  }

  lemma UniqueChoiceIffNoDuplicate(options: seq<ChoiceOption>)
    ensures FirstDuplicate(ChoiceIds(options)).None? <==> UniqueChoiceIds(options)
  {
    var ids := ChoiceIds(options);
    NoDuplicateIffUnique(ids);
    assert forall i :: 0 <= i < |ids| ==> ids[i] == options[i].id;
  }

  /** `FormField::new` accepts exactly the fields that some answer satisfies. */
  lemma FormFieldIsExact(f: FormField)
    ensures NewFormField(f.id, f.header, f.prompt, f.options, f.allowsOther, f.sensitive) == Ok(f)
            <==> f.Constructible()
  {
    UniqueChoiceIffNoDuplicate(f.options);
  }

  /** The response constructors accept exactly the constructible responses. */
  lemma ResponsesAreExact(p: ResponsePayload)
    ensures p.ChoiceResponse? ==> (NewSelection(p.selection) == Ok(p) <==> p.Constructible())
    ensures p.FormResponse? ==> (NewFormResponse(p.answers) == Ok(p) <==> p.Constructible())
  {
    match p
    case ChoiceResponse(ids) => NoDuplicateIffUnique(ids);
    case FormResponse(answers) =>
      var ids := AnswerIds(answers);
      NoDuplicateIffUnique(ids);
      assert forall i :: 0 <= i < |ids| ==> ids[i] == answers[i].fieldId;
    case _ =>
  }

  /** Which error a constructor gives: an empty collection first, then a repeated identifier. */
  lemma ConstructorErrors(subject: ApprovalSubject, approvals: seq<ApprovalOption>, choices: seq<ChoiceOption>,
                          multiple: bool, fields: seq<FormField>, blocking: bool, ids: seq<OptionId>,
                          answers: seq<FormAnswer>)
    ensures (NewActionableApproval(subject, approvals) == Err(EmptyCollection) <==> approvals == [])
            && (NewChoice(choices, multiple) == Err(EmptyCollection) <==> choices == [])
            && (NewForm(fields, blocking) == Err(EmptyCollection) <==> fields == [])
            && (NewSelection(ids) == Err(EmptyCollection) <==> ids == [])
            && (NewFormResponse(answers) == Err(EmptyCollection) <==> answers == [])
    ensures NewActionableApproval(subject, approvals).Err? && approvals != [] ==>
              NewActionableApproval(subject, approvals).error.DuplicateId?
              && multiset(ApprovalIds(approvals))[NewActionableApproval(subject, approvals).error.duplicate] >= 2
    ensures NewChoice(choices, multiple).Err? && choices != [] ==>
              NewChoice(choices, multiple).error.DuplicateId?
              && multiset(ChoiceIds(choices))[NewChoice(choices, multiple).error.duplicate] >= 2
    ensures NewSelection(ids).Err? && ids != [] ==>
              NewSelection(ids).error.DuplicateId? && multiset(ids)[NewSelection(ids).error.duplicate] >= 2
  {
    NoDuplicateIffUnique(ApprovalIds(approvals));
    NoDuplicateIffUnique(ChoiceIds(choices));
    NoDuplicateIffUnique(ids);
  }

  /** A progress value is refused for a zero total first, and then for more done than there is. */
  lemma ProgressErrors(completed: U64, total: U64)
    ensures NewDeterminate(completed, total) ==
            if total == 0 then Err(ZeroValue) else if total < completed then Err(InvalidProgress)
            else Ok(Determinate(completed, total))
  {
  }

  // ---------- Checking a response ----------

  function FindAnswer(answers: seq<FormAnswer>, field: FieldId): Option<FormAnswerValue> {
    if answers == [] then None
    else if answers[0].fieldId == field then Some(answers[0].value)
    else FindAnswer(answers[1..], field)
  }

  function CheckAnswer(field: FormField, answer: Option<FormAnswerValue>): Outcome<DomainError> {
    match answer
    case None => Fail(IncompleteForm)
    case Some(ChoiceAnswer(option)) => if field.Offers(option) then Pass else Fail(UnknownFormOption)
    case Some(TextAnswer(_)) => if field.allowsOther then Pass else Fail(CustomAnswerRefused)
  }

  function CheckFields(fields: seq<FormField>, answers: seq<FormAnswer>): Outcome<DomainError> {
    if fields == [] then Pass
    else
      var first := CheckAnswer(fields[0], FindAnswer(answers, fields[0].id));
      if first.Fail? then first else CheckFields(fields[1..], answers)
  }

  function CheckSelection(request: RequestPayload, selection: seq<OptionId>): Outcome<DomainError>
    requires request.ChoiceRequest?
  {
    if selection == [] then Pass
    else if !request.OffersChoice(selection[0]) then Fail(UnknownChoiceOption(selection[0]))
    else CheckSelection(request, selection[1..])
  }

  function CheckPayload(request: RequestPayload, response: ResponsePayload): Outcome<DomainError> {
    match (request, response)
    case (ApprovalRequest(_, _, _), ApprovalResponse(selected)) =>
      if !request.Actionable() then Fail(ApprovalUnavailable)
      else if !request.OffersApproval(selected) then Fail(UnknownApprovalOption(selected))
      else Pass
    case (TextRequest(_, _), TextResponse(_)) => Pass
    case (ChoiceRequest(_, multiple), ChoiceResponse(selection)) =>
      if !multiple && |selection| != 1 then Fail(SingleChoiceRequired)
      else CheckSelection(request, selection)
    case (FormRequest(fields, _), FormResponse(answers)) =>
      if |answers| != |fields| then Fail(IncompleteForm) else CheckFields(fields, answers)
    case _ => Fail(InteractionTypeMismatch)
  }

  /** `InteractionRequest::validate_response`. */
  function ValidateResponse(request: InteractionRequest, response: InteractionResponse): Outcome<DomainError> {
    if response.requestId != request.id then Fail(RequestMismatch)
    else if response.sessionId != request.sessionId then Fail(DomainError.SessionMismatch)
    else if response.respondedAt < request.requestedAt then Fail(RespondedBeforeRequest)
    else if request.expiresAt.Some? && response.respondedAt > request.expiresAt.value then Fail(InteractionExpired)
    else CheckPayload(request.payload, response.payload)
  }

  // ---------- What an accepted response means ----------

  ghost predicate AnswerFits(field: FormField, value: FormAnswerValue) {
    match value
    case ChoiceAnswer(option) => field.Offers(option)
    case TextAnswer(_) => field.allowsOther
  }

  /** The response answers exactly what was asked, said without following the checks. */
  ghost predicate Answers(request: RequestPayload, response: ResponsePayload) {
    || (request.ApprovalRequest? && response.ApprovalResponse? && request.OffersApproval(response.selected))
    || (request.TextRequest? && response.TextResponse?)
    || (&& request.ChoiceRequest? && response.ChoiceResponse?
        && (request.multiple || |response.selection| == 1)
        && (forall id :: id in response.selection ==> request.OffersChoice(id)))
    || (&& request.FormRequest? && response.FormResponse?
        && |response.answers| == |request.fields|
        && (forall f :: f in request.fields ==>
              exists a :: a in response.answers && a.fieldId == f.id && AnswerFits(f, a.value)))
  }

  ghost predicate Timely(request: InteractionRequest, at: Timestamp) {
    request.requestedAt <= at && (request.expiresAt.Some? ==> at <= request.expiresAt.value)
  }

  lemma {:induction false} SelectionCheckIsExact(request: RequestPayload, selection: seq<OptionId>)
    requires request.ChoiceRequest?
    ensures CheckSelection(request, selection).Pass? <==> forall id :: id in selection ==> request.OffersChoice(id)
  {
    if selection != [] {
      SelectionCheckIsExact(request, selection[1..]);
      assert selection == [selection[0]] + selection[1..];
    }
  }

  lemma {:induction false} FindAnswerIsExact(answers: seq<FormAnswer>, field: FieldId)
    ensures FindAnswer(answers, field).Some? ==> FormAnswer(field, FindAnswer(answers, field).value) in answers
    ensures FindAnswer(answers, field).None? ==> forall a :: a in answers ==> a.fieldId != field
  {
    if answers != [] && answers[0].fieldId != field {
      FindAnswerIsExact(answers[1..], field);
      assert answers == [answers[0]] + answers[1..];
    }
  }

  lemma {:induction false} FieldCheckIsExact(fields: seq<FormField>, answers: seq<FormAnswer>)
    requires FormResponse(answers).Constructible()
    ensures CheckFields(fields, answers).Pass? <==>
            forall f :: f in fields ==> exists a :: a in answers && a.fieldId == f.id && AnswerFits(f, a.value)
  {
    if fields != [] {
      var f := fields[0];
      FieldCheckIsExact(fields[1..], answers);
      assert fields == [f] + fields[1..];
      FindAnswerIsExact(answers, f.id);
      var found := FindAnswer(answers, f.id);
      if found.Some? {
        var hit := FormAnswer(f.id, found.value);
        forall a | a in answers && a.fieldId == f.id ensures a == hit {
          var i :| 0 <= i < |answers| && answers[i] == a;
          var j :| 0 <= j < |answers| && answers[j] == hit;
          assert i == j;
        }
      }
    }
  }

  /** Validation accepts a response exactly when it is correlated, timely and answers the request. */
  lemma ValidationIsExact(request: InteractionRequest, response: InteractionResponse)
    requires response.payload.Constructible()
    ensures ValidateResponse(request, response).Pass? <==>
            && response.requestId == request.id && response.sessionId == request.sessionId
            && Timely(request, response.respondedAt)
            && Answers(request.payload, response.payload)
  {
    match (request.payload, response.payload)
    case (ChoiceRequest(_, _), ChoiceResponse(selection)) => SelectionCheckIsExact(request.payload, selection);
    case (FormRequest(fields, _), FormResponse(answers)) => FieldCheckIsExact(fields, answers);
    case _ =>
  }

  ghost predicate SameKind(request: RequestPayload, response: ResponsePayload) {
    || (request.ApprovalRequest? && response.ApprovalResponse?)
    || (request.ChoiceRequest? && response.ChoiceResponse?)
    || (request.TextRequest? && response.TextResponse?)
    || (request.FormRequest? && response.FormResponse?)
  }

  /** What each rejection means, in the order the checks are made. */
  lemma RejectionsByName(request: InteractionRequest, response: InteractionResponse)
    ensures var result := ValidateResponse(request, response);
            var correlated := response.requestId == request.id && response.sessionId == request.sessionId;
            var timely := correlated && Timely(request, response.respondedAt);
            && (result == Fail(RequestMismatch) <==> response.requestId != request.id)
            && (result == Fail(DomainError.SessionMismatch) <==>
                  response.requestId == request.id && response.sessionId != request.sessionId)
            && (result == Fail(RespondedBeforeRequest) <==>
                  correlated && response.respondedAt < request.requestedAt)
            && (result == Fail(InteractionExpired) <==>
                  correlated && request.requestedAt <= response.respondedAt && !timely)
            && (result == Fail(InteractionTypeMismatch) <==> timely && !SameKind(request.payload, response.payload))
            && (result == Fail(ApprovalUnavailable) <==>
                  timely && request.payload.ApprovalRequest? && response.payload.ApprovalResponse?
                  && request.payload.approvalOptions == [])
            && (result == Fail(SingleChoiceRequired) <==>
                  timely && request.payload.ChoiceRequest? && response.payload.ChoiceResponse?
                  && !request.payload.multiple && |response.payload.selection| != 1)
  {
    match (request.payload, response.payload)
    case (ChoiceRequest(_, _), ChoiceResponse(selection)) => SelectionErrors(request.payload, selection);
    case (FormRequest(fields, _), FormResponse(answers)) => FieldErrors(fields, answers);
    case _ =>
  }

  /** A selection fails with the first option that is not offered. */
  lemma {:induction false} SelectionErrors(request: RequestPayload, selection: seq<OptionId>)
    requires request.ChoiceRequest?
    ensures var result := CheckSelection(request, selection);
            result.Fail? ==>
              exists i :: 0 <= i < |selection| && result == Fail(UnknownChoiceOption(selection[i]))
                && !request.OffersChoice(selection[i]) && forall j :: 0 <= j < i ==> request.OffersChoice(selection[j])
  {
    if selection != [] && request.OffersChoice(selection[0]) {
      SelectionErrors(request, selection[1..]);
      var result := CheckSelection(request, selection);
      if result.Fail? {
        var i :| 0 <= i < |selection| - 1 && result == Fail(UnknownChoiceOption(selection[1..][i]))
          && !request.OffersChoice(selection[1..][i])
          && forall j :: 0 <= j < i ==> request.OffersChoice(selection[1..][j]);
        assert selection[i + 1] == selection[1..][i];
        forall j | 0 <= j < i + 1 ensures request.OffersChoice(selection[j]) {
          if j > 0 {
            assert selection[j] == selection[1..][j - 1];
          }
        }
      }
    }
  }

  lemma {:induction false} FieldErrors(fields: seq<FormField>, answers: seq<FormAnswer>)
    ensures var result := CheckFields(fields, answers);
            result.Fail? ==> result.error in {IncompleteForm, UnknownFormOption, CustomAnswerRefused}
  {
    if fields != [] {
      FieldErrors(fields[1..], answers);
    }
  }

  // ---------- A witness for satisfiability ----------

  function SampleAnswer(field: FormField): FormAnswer
    requires field.Constructible()
  {
    if field.options == [] then FormAnswer(field.id, TextAnswer(SAMPLE_TEXT))
    else FormAnswer(field.id, ChoiceAnswer(field.options[0].id))
  }

  /** A response the request itself suggests: its first option, or some text. */
  function SampleResponse(payload: RequestPayload): ResponsePayload
    requires payload.Constructible() && payload.Actionable()
  {
    match payload
    case ApprovalRequest(_, options, _) => ApprovalResponse(options[0].id)
    case ChoiceRequest(options, _) => ChoiceResponse([options[0].id])
    case TextRequest(_, _) => TextResponse(SAMPLE_TEXT)
    case FormRequest(fields, _) =>
      FormResponse(seq(|fields|, i requires 0 <= i < |fields| => SampleAnswer(fields[i])))
  }

  /** Every constructible request that offers an action has a constructible answer. */
  lemma SampleAnswers(payload: RequestPayload)
    requires payload.Constructible() && payload.Actionable()
    ensures SampleResponse(payload).Constructible()
    ensures Answers(payload, SampleResponse(payload))
  {
    match payload
    case FormRequest(fields, _) =>
      var answers := SampleResponse(payload).answers;
      forall f | f in fields
        ensures exists a :: a in answers && a.fieldId == f.id && AnswerFits(f, a.value)
      {
        var i :| 0 <= i < |fields| && fields[i] == f;
        assert answers[i] in answers && answers[i].fieldId == f.id && AnswerFits(f, answers[i].value);
      }
    case ChoiceRequest(options, _) => assert payload.OffersChoice(options[0].id);
    case ApprovalRequest(_, options, _) => assert payload.OffersApproval(options[0].id);
    case TextRequest(_, _) =>
  }
}
