/**
 * The `send-confirmation-email` serverless function: it answers a CORS
 * pre-flight, refuses non-JSON requests, checks the request's fields, picks
 * the urgency details, composes the message and hands it to the e-mail
 * provider.  The environment's API key and the provider's answer are inputs;
 * the request body arrives already parsed (or as the parse failure's message).
 */
module ConfirmationEmail {
  import opened Base
  import opened JsStrings
  import opened Types
  import PhoneModels

  /** The fields of the JSON body; `None` stands for a missing, `null` or `undefined` value. */
  datatype ConfirmationRequest = ConfirmationRequest(
    email: Option<string>,
    name: Option<string>,
    requestId: Option<string>,
    phoneModel: Option<string>,
    urgency: Option<string>,
    turnaround: Option<string>)

  /** JavaScript truthiness of an optional string: present and not "". */
  predicate Truthy(v: Option<string>) {
    v.Some? && v.value != ""
  }

  /** The body as the function sees it after `await req.json()`. */
  datatype RequestBody = JsonBody(fields: ConfirmationRequest) | UnreadableBody(message: string)

  /** The parts of an HTTP request the function reads; `contentType` is `None` without that header. */
  datatype HttpRequest = HttpRequest(verb: string, contentType: Option<string>, body: RequestBody)

  /** What the e-mail provider's HTTP API answers, or the message of the exception its call raised. */
  datatype ProviderReply =
    | ProviderAccepted(emailId: string)
    | ProviderRejected(payload: string)
    | ProviderUnreachable(message: string)

  /** The function's environment: the provider API key, if set, and the provider's answer. */
  datatype Env = Env(apiKey: Option<string>, provider: ProviderReply)

  /** A row of the function's own urgency table. */
  datatype UrgencyDetails = UrgencyDetails(displayLabel: string, color: string, turnaround: string)

  const LowDetails := UrgencyDetails("Low Priority", "#059669", "5-7 business days")
  const MediumDetails := UrgencyDetails("Medium Priority", "#d97706", "2-3 business days")
  const HighDetails := UrgencyDetails("High Priority", "#dc2626", "24-48 hours")

  /** The message handed to the provider: recipients, subject and the template's interpolated fields. */
  datatype OutgoingEmail = OutgoingEmail(
    to: seq<string>,
    subject: string,
    greetingName: string,
    requestId: string,
    device: string,
    priorityLabel: string,
    priorityColor: string,
    turnaround: string)

  datatype ResponseBody =
    | NoBody
    | ErrorMessage(error: string)
    | EmailSent(requestId: string, recipient: string, subject: string, emailId: string)
    | ProviderFailure(payload: string)
    | UnexpectedFailure(error: string)

  datatype Response = Response(status: nat, body: ResponseBody)

  /** The function's answer and the call it made to the provider, if any. */
  datatype Dispatch = Dispatch(response: Response, providerCall: Option<OutgoingEmail>)

  const ContentTypeError := "Content-Type must be application/json"
  const MissingFieldsError := "Missing required fields: email, name, phoneModel, urgency, requestId"
  const MissingKeyError := "Missing RESEND_API_KEY in environment variables"
  const SubjectPrefix := "\U{2705} Repair Request Confirmed - "

  /**
   * The urgency details for a requested tier: the three tiers by name, and the
   * medium row for any other value (a silent default, not an error).
   */
  function UrgencyDetailsFor(urgency: string): (d: UrgencyDetails)
    ensures d in {LowDetails, MediumDetails, HighDetails}
    ensures d == LowDetails <==> urgency == "low"
    ensures d == HighDetails <==> urgency == "high"
    ensures ParseUrgency(urgency).None? ==> d == MediumDetails
  {
    if urgency == "low" then LowDetails
    else if urgency == "high" then HighDetails
    else MediumDetails
  }

  /** The function's labels and turnarounds coincide, tier by tier, with the form's table. */
  lemma UrgencyTablesAgree(u: Urgency)
    ensures UrgencyDetailsFor(u.Value()).displayLabel == PhoneModels.UrgencyLevels[PhoneModels.TierIndex(u)].displayLabel
    ensures UrgencyDetailsFor(u.Value()).turnaround == PhoneModels.UrgencyLevels[PhoneModels.TierIndex(u)].turnaround
  {
  }

  /** The subject line up to the request id. */
  function SubjectHead(phoneModel: string): string {
    SubjectPrefix + phoneModel + " (ID: "
  }

  /**
   * The subject line: a fixed prefix, the device, and the last eight characters
   * of the request id (all of a shorter id) in parentheses.
   */
  function Subject(phoneModel: string, requestId: string): (s: string)
    ensures StartsWith(s, SubjectHead(phoneModel))
    ensures |s| == |SubjectHead(phoneModel)| + (if |requestId| < 8 then |requestId| else 8) + 1
    ensures s[|s| - 1] == ')'
    ensures var tail := s[|SubjectHead(phoneModel)|..|s| - 1];
            requestId == requestId[..|requestId| - |tail|] + tail
  {
    var head := SubjectHead(phoneModel);
    var tail := SliceFromEnd(requestId, 8);
    var s := head + tail + ")";
    assert s[..|head|] == head;
    assert s[|head|..|s| - 1] == tail;
    s
  }

  /** The turnaround shown: the one supplied by the caller when truthy, else the tier's. */
  function TurnaroundShown(supplied: Option<string>, details: UrgencyDetails): (t: string)
    ensures supplied.Some? && supplied.value != "" ==> t == supplied.value
    ensures supplied.None? || supplied == Some("") ==> t == details.turnaround
    ensures t != "" <==> Truthy(supplied) || details.turnaround != ""
  {
    if Truthy(supplied) then supplied.value else details.turnaround
  }

  /** All five required fields are truthy (`turnaround` is optional). */
  predicate HasRequiredFields(f: ConfirmationRequest) {
    Truthy(f.email) && Truthy(f.name) && Truthy(f.phoneModel) && Truthy(f.urgency) && Truthy(f.requestId)
  }

  /** The message composed from a request whose required fields are all present. */
  function Compose(f: ConfirmationRequest): (m: OutgoingEmail)
    requires HasRequiredFields(f)
    ensures m.to == [f.email.value]
    ensures m.subject == Subject(f.phoneModel.value, f.requestId.value)
    ensures m.greetingName == f.name.value && m.requestId == f.requestId.value && m.device == f.phoneModel.value
    ensures m.priorityLabel == UrgencyDetailsFor(f.urgency.value).displayLabel
    ensures m.priorityColor == UrgencyDetailsFor(f.urgency.value).color
    ensures Truthy(f.turnaround) ==> m.turnaround == f.turnaround.value
    ensures !Truthy(f.turnaround) ==> m.turnaround == UrgencyDetailsFor(f.urgency.value).turnaround
    ensures m.turnaround != ""
  {
    var details := UrgencyDetailsFor(f.urgency.value);
    OutgoingEmail(
      [f.email.value],
      Subject(f.phoneModel.value, f.requestId.value),
      f.name.value,
      f.requestId.value,
      f.phoneModel.value,
      details.displayLabel,
      details.color,
      TurnaroundShown(f.turnaround, details))
  }

  /** The request is a CORS pre-flight. */
  predicate IsPreflight(req: HttpRequest) {
    req.verb == "OPTIONS"
  }

  /** The content type names JSON (a missing header reads as ""). */
  predicate IsJson(req: HttpRequest) {
    Includes(req.contentType.GetOr(""), "application/json")
  }

  /** The request gets past the method, content-type, body and field checks. */
  predicate Admissible(req: HttpRequest) {
    !IsPreflight(req) && IsJson(req) && req.body.JsonBody? && HasRequiredFields(req.body.fields)
  }

  /** The request is admissible and the provider API key is set. */
  predicate Sendable(req: HttpRequest, env: Env) {
    Admissible(req) && Truthy(env.apiKey)
  }

  /** The function's handler. */
  function Handle(req: HttpRequest, env: Env): (d: Dispatch)
    ensures IsPreflight(req) ==> d == Dispatch(Response(200, NoBody), None)
    ensures d.response.status == 415 <==> !IsPreflight(req) && !IsJson(req)
    ensures d.response.status == 415 ==> d.response.body == ErrorMessage(ContentTypeError) && d.providerCall.None?
    ensures d.response.status == 400 <==>
              !IsPreflight(req) && IsJson(req) && req.body.JsonBody? && !HasRequiredFields(req.body.fields)
    ensures d.response.status == 400 ==> d.response.body == ErrorMessage(MissingFieldsError)
    ensures d.providerCall.Some? <==> Sendable(req, env)
    ensures d.providerCall.Some? ==> d.providerCall.value == Compose(req.body.fields)
    ensures d.response.status == 500 <==>
              && !IsPreflight(req) && IsJson(req)
              && (|| req.body.UnreadableBody?
                  || (HasRequiredFields(req.body.fields) && (!Truthy(env.apiKey) || env.provider.ProviderUnreachable?)))
    ensures !IsPreflight(req) && IsJson(req) && req.body.UnreadableBody? ==>
              d.response.body == UnexpectedFailure(req.body.message)
    ensures Admissible(req) && !Truthy(env.apiKey) ==> d.response.body == UnexpectedFailure(MissingKeyError)
    ensures Sendable(req, env) && env.provider.ProviderUnreachable? ==>
              d.response.body == UnexpectedFailure(env.provider.message)
    ensures d.response.status == 502 <==> Sendable(req, env) && env.provider.ProviderRejected?
    ensures d.response.status == 502 ==> d.response.body == ProviderFailure(env.provider.payload)
    ensures d.response.status == 200 && !IsPreflight(req) <==> Sendable(req, env) && env.provider.ProviderAccepted?
    ensures Sendable(req, env) && env.provider.ProviderAccepted? ==>
              d.response.body == EmailSent(req.body.fields.requestId.value, req.body.fields.email.value,
                                           d.providerCall.value.subject, env.provider.emailId)
  {
    if req.verb == "OPTIONS" then Dispatch(Response(200, NoBody), None)
    else if !Includes(req.contentType.GetOr(""), "application/json") then
      Dispatch(Response(415, ErrorMessage(ContentTypeError)), None)
    else
      match req.body
      case UnreadableBody(message) => Dispatch(Response(500, UnexpectedFailure(message)), None)
      case JsonBody(f) =>
        if !HasRequiredFields(f) then Dispatch(Response(400, ErrorMessage(MissingFieldsError)), None)
        else if !Truthy(env.apiKey) then Dispatch(Response(500, UnexpectedFailure(MissingKeyError)), None)
        else
          var mail := Compose(f);
          match env.provider
          case ProviderAccepted(id) =>
            Dispatch(Response(200, EmailSent(f.requestId.value, f.email.value, mail.subject, id)), Some(mail))
          case ProviderRejected(payload) => Dispatch(Response(502, ProviderFailure(payload)), Some(mail))
          case ProviderUnreachable(message) => Dispatch(Response(500, UnexpectedFailure(message)), Some(mail))
  }

  /** Every answer carries one of the five status codes the function uses. */
  lemma HandleStatusCodes(req: HttpRequest, env: Env)
    ensures Handle(req, env).response.status in {200, 400, 415, 500, 502}
  {
  }

  /** An unrecognised tier is confirmed, with the medium tier's details, when all else is in order. */
  lemma UnknownUrgencyDefaultsToMedium(req: HttpRequest, env: Env)
    requires Sendable(req, env) && env.provider.ProviderAccepted?
    requires ParseUrgency(req.body.fields.urgency.value).None?
    requires !Truthy(req.body.fields.turnaround)
    ensures Handle(req, env).response.status == 200
    ensures Handle(req, env).providerCall.value.priorityLabel == "Medium Priority"
    ensures Handle(req, env).providerCall.value.turnaround == "2-3 business days"
  {
  }

  /** The e-mail shows the caller's turnaround when one is given, else the tier's. */
  lemma TurnaroundFallback(req: HttpRequest, env: Env)
    requires Sendable(req, env)
    ensures var f := req.body.fields;
            Handle(req, env).providerCall.value.turnaround ==
              if f.turnaround.Some? && f.turnaround.value != "" then f.turnaround.value
              else UrgencyDetailsFor(f.urgency.value).turnaround
  {
  }

  // ---------------------------------------------------------------------------
  // The urgency lookup as written indexes a plain object literal with the
  // requested string.  Property lookup on an object also reaches the members
  // every object inherits from Object.prototype, all of which are truthy, so
  // the `|| medium` default is skipped for those names and the template then
  // reads `label`, `color` and `turnaround` of a function: `undefined`.
  // The function runs under Deno, which deletes the `__proto__` accessor from
  // Object.prototype at start-up, so that name is not inherited and falls
  // back to the medium tier like any other unknown name.
  // ---------------------------------------------------------------------------

  /** The names a plain object inherits from Object.prototype under Deno's default runtime. */
  const InheritedMembers: set<string> := {
    "constructor", "hasOwnProperty", "isPrototypeOf", "propertyIsEnumerable",
    "toLocaleString", "toString", "valueOf",
    "__defineGetter__", "__defineSetter__", "__lookupGetter__", "__lookupSetter__"
  }

  /** The result of indexing the object literal with a string key. */
  datatype KeyLookup = OwnRow(details: UrgencyDetails) | InheritedMember | NoProperty

  /** `{ low: ..., medium: ..., high: ... }[urgency]` as JavaScript evaluates it. */
  function UrgencyLookupAsWritten(urgency: string): (k: KeyLookup)
    ensures k.InheritedMember? <==> urgency in InheritedMembers
  {
    if urgency == "low" then OwnRow(LowDetails)
    else if urgency == "medium" then OwnRow(MediumDetails)
    else if urgency == "high" then OwnRow(HighDetails)
    else if urgency in InheritedMembers then InheritedMember
    else NoProperty
  }

  /** The details the template interpolates, as written: `lookup || medium`, then `.label` etc. */
  function RenderedDetailsAsWritten(urgency: string): (d: UrgencyDetails)
    ensures urgency in InheritedMembers ==> d.displayLabel == "undefined" && d.turnaround == "undefined"
    ensures urgency !in InheritedMembers && ParseUrgency(urgency).None? ==> d == MediumDetails
  {
    match UrgencyLookupAsWritten(urgency)
    case OwnRow(d) => d
    case InheritedMember => UrgencyDetails("undefined", "undefined", "undefined")
    case NoProperty => MediumDetails
  }

  /** As written, urgency "toString" renders the priority as "undefined" rather than the medium tier. */
  lemma InheritedUrgencyRendersUndefined()
    ensures RenderedDetailsAsWritten("toString").displayLabel == "undefined"
    ensures RenderedDetailsAsWritten("toString") != UrgencyDetailsFor("toString")
  {
  }

  /** The corrected lookup agrees with the written one on every name an object does not inherit. */
  lemma CorrectedLookupAgrees(urgency: string)
    ensures urgency !in InheritedMembers <==> RenderedDetailsAsWritten(urgency) == UrgencyDetailsFor(urgency)
  {
  }
}
