/** The two request handlers of functions/contact.ts: the CORS preflight answer and the
    POST handler, which validates the form, builds the notification and hands it to the
    mail provider.  The handler is modelled as a decision: from the configured API key,
    the parsed form (or the failure to parse it) and the provider's answer, it yields the
    HTTP response and the provider request it sent, if any. */
module Handler {
  import opened Strings
  import opened Form
  import opened EmailAddress
  import opened SubjectLine
  import opened TextEmail
  import opened HtmlEmail

  const AllowedOrigin := "https://www.dorolabs.eu"

  /** `corsHeaders`, sent with every POST response. */
  const CorsHeaders: map<string, string> := map[
    "Access-Control-Allow-Origin" := AllowedOrigin,
    "Access-Control-Allow-Methods" := "POST, OPTIONS",
    "Access-Control-Allow-Headers" := "Content-Type",
    "Content-Type" := "application/json"]

  /** The JSON body of a POST response: `success`, and `error` or `id` when present. */
  datatype Reply = Reply(success: bool, error: Option<string>, id: Option<string>)

  /** A response; `body` is None for the empty preflight response. */
  datatype Response = Response(status: int, headers: map<string, string>, body: Option<Reply>)

  /** The call made to the mail provider's HTTP API. */
  datatype EmailRequest = EmailRequest(
    url: string,
    authorization: string,
    contentType: string,
    from: string,
    to: seq<string>,
    subject: string,
    html: string,
    text: string,
    replyTo: string)

  /** What came back from the provider.  `Unreachable`: the call threw (network failure).
      `NotJson`: reading the reply threw, because its body is not JSON, or because it is JSON
      `null` on an ok reply, where reading `.id` throws.  `Answered`: the HTTP `ok` flag and
      the message id if the body has one; JSON `null` on a failed reply is `Answered(false, None)`,
      since the id is not read then. */
  datatype ProviderOutcome = Unreachable | NotJson | Answered(ok: bool, id: Option<string>)

  /** The response together with the provider request that was sent on the way, if any. */
  datatype Outcome = Outcome(response: Response, sent: Option<EmailRequest>)

  const ConfigError := "Server configuration error"
  const NameRequired := "Name is required"
  const EmailRequired := "Valid email is required"
  const SendFailed := "Failed to send message"
  const Unexpected := "An unexpected error occurred"

  /** `onRequestOptions`: an empty 204 that allows POST from the site's origin for a day. */
  function Preflight(): (r: Response)
    ensures r.status == 204 && r.body == None
    ensures "Access-Control-Allow-Origin" in r.headers && r.headers["Access-Control-Allow-Origin"] == CorsHeaders["Access-Control-Allow-Origin"]
    ensures "Access-Control-Allow-Methods" in r.headers && r.headers["Access-Control-Allow-Methods"] == CorsHeaders["Access-Control-Allow-Methods"]
    ensures "Access-Control-Max-Age" in r.headers && r.headers["Access-Control-Max-Age"] == "86400"
    ensures "Content-Type" !in r.headers
    ensures r.headers == (CorsHeaders - {"Content-Type"})["Access-Control-Max-Age" := "86400"]
  {
    Response(204, map[
      "Access-Control-Allow-Origin" := AllowedOrigin,
      "Access-Control-Allow-Methods" := "POST, OPTIONS",
      "Access-Control-Allow-Headers" := "Content-Type",
      "Access-Control-Max-Age" := "86400"], None)
  }

  function Failure(status: int, error: string): Response {
    Response(status, CorsHeaders, Some(Reply(false, Some(error), None)))
  }

  /** The provider request for an accepted form. */
  function ProviderRequest(apiKey: string, f: ContactForm): EmailRequest {
    EmailRequest(
      "https://api.resend.com/emails",
      "Bearer " + apiKey,
      "application/json",
      "DoroLabs <onboarding@resend.dev>",
      ["dorolabs.ac@gmail.com"],
      Subject(f),
      HtmlBody(f),
      TextBody(f),
      f.email)
  }

  /** The name check: missing, empty or only whitespace is refused. */
  predicate NameMissing(f: ContactForm) {
    f.name == "" || Trim(f.name) == ""
  }

  /** The email check: missing or not of the form local@domain.tld is refused. */
  predicate EmailMissing(f: ContactForm) {
    f.email == "" || !IsValidEmail(f.email)
  }

  /** The provider's answer turned into the response. */
  function Delivery(provider: ProviderOutcome): Response {
    match provider
    case Unreachable => Failure(500, Unexpected)
    case NotJson => Failure(500, Unexpected)
    case Answered(ok, id) =>
      if !ok then Failure(500, SendFailed)
      else Response(200, CorsHeaders, Some(Reply(true, None, id)))
  }

  /** Where a POST request stops: at one of the checks, or accepted with its form. */
  datatype Verdict = MissingKey | Unparsable | Spam | NoName | BadEmail | Accept(form: ContactForm)

  /** The checks of `onRequestPost`, in the order it makes them. */
  function Check(apiKey: string, form: Option<FormData>): Verdict {
    if apiKey == "" then MissingKey
    else match form
      case None => Unparsable
      case Some(data) =>
        var f := Extract(data);
        if IsSpam(data) then Spam
        else if NameMissing(f) then NoName
        else if EmailMissing(f) then BadEmail
        else Accept(f)
  }

  /** The response for each verdict; an accepted form is answered by the provider's outcome. */
  function Respond(v: Verdict, provider: ProviderOutcome): Response {
    match v
    case MissingKey => Failure(500, ConfigError)
    case Unparsable => Failure(500, Unexpected)
    case Spam => Response(200, CorsHeaders, Some(Reply(true, None, None)))
    case NoName => Failure(400, NameRequired)
    case BadEmail => Failure(400, EmailRequired)
    case Accept(_) => Delivery(provider)
  }

  /** `onRequestPost`.  `apiKey` is "" when the variable is unset; `form` is None when the
      body could not be parsed as form data. */
  function HandlePost(apiKey: string, form: Option<FormData>, provider: ProviderOutcome): Outcome {
    var v := Check(apiKey, form);
    Outcome(Respond(v, provider), if v.Accept? then Some(ProviderRequest(apiKey, v.form)) else None)
  }

  /** The form passes every check: configured, parsed, not spam, named, with a valid address. */
  predicate Accepted(apiKey: string, form: Option<FormData>) {
    apiKey != "" && form.Some? && !IsSpam(form.value)
    && Trim(Extract(form.value).name) != "" && IsValidEmail(Extract(form.value).email)
  }

  /** A missing API key is reported before the body is even read, whatever it holds. */
  lemma ConfigurationFirst(form: Option<FormData>, provider: ProviderOutcome)
    ensures Check("", form) == MissingKey
    ensures Respond(Check("", form), provider) == Failure(500, ConfigError)
  {
  }

  /** The honeypot answers like a success, before any validation. */
  lemma HoneypotFakesSuccess(apiKey: string, data: FormData, provider: ProviderOutcome)
    requires apiKey != "" && IsSpam(data)
    ensures Check(apiKey, Some(data)) == Spam
    ensures Respond(Check(apiKey, Some(data)), provider) == Response(200, CorsHeaders, Some(Reply(true, None, None)))
  {
  }

  /** A name made only of whitespace is refused like a missing one. */
  lemma BlankNameRefused(apiKey: string, data: FormData)
    requires apiKey != "" && !IsSpam(data) && AllSpace(Field(data, "name"))
    ensures Check(apiKey, Some(data)) == NoName
  {
  }

  /** The checks accept exactly the forms that pass all of them, and then hand on the
      record extracted from the form. */
  lemma AcceptIffValid(apiKey: string, form: Option<FormData>)
    ensures Check(apiKey, form).Accept? <==> Accepted(apiKey, form)
    ensures Check(apiKey, form).Accept? ==> Check(apiKey, form).form == Extract(form.value)
  {
  }

  /** A provider request goes out exactly for accepted forms: `ProviderRequest` of the
      extracted record, whose reply address is the submitted email field as submitted
      (not trimmed), and the response is the one the verdict calls for. */
  lemma SentIffAccepted(apiKey: string, form: Option<FormData>, provider: ProviderOutcome)
    ensures HandlePost(apiKey, form, provider).sent.Some? <==> Accepted(apiKey, form)
    ensures Accepted(apiKey, form) ==> HandlePost(apiKey, form, provider).sent == Some(ProviderRequest(apiKey, Extract(form.value)))
    ensures Accepted(apiKey, form) ==> HandlePost(apiKey, form, provider).sent.value.replyTo == Field(form.value, "email")
    ensures HandlePost(apiKey, form, provider).response == Respond(Check(apiKey, form), provider)
  {
    AcceptIffValid(apiKey, form);
  }

  /** A named sender whose address is not of the form local@domain.tld gets the
      invalid-email verdict. */
  lemma InvalidEmailRefused(apiKey: string, data: FormData)
    requires apiKey != "" && !IsSpam(data) && Trim(Field(data, "name")) != ""
    requires !AddressShape(Trim(Field(data, "email")))
    ensures Check(apiKey, Some(data)) == BadEmail
  {
    ShapelessIsInvalid(Field(data, "email"));
  }

  /** The two refusals, whatever the provider would have said: 400 with the name message
      or with the email message. */
  lemma RefusalMessages(provider: ProviderOutcome)
    ensures Respond(NoName, provider) == Failure(400, NameRequired)
    ensures Respond(BadEmail, provider) == Failure(400, EmailRequired)
  {
  }

  /** For an accepted form, a failed reply gives "Failed to send message" and anything that
      throws on the way gives "An unexpected error occurred", both with status 500. */
  lemma ProviderMessages(form: ContactForm, provider: ProviderOutcome)
    ensures provider.Answered? && !provider.ok ==> Respond(Accept(form), provider) == Failure(500, SendFailed)
    ensures provider.Unreachable? || provider.NotJson? ==> Respond(Accept(form), provider) == Failure(500, Unexpected)
  {
  }

  /** The shape every POST response has: the CORS headers, a JSON body whose `success`
      matches a 200 status, and otherwise a 400 or 500 with one of the fixed messages. */
  predicate JsonReply(r: Response) {
    && r.headers == CorsHeaders && r.body.Some?
    && (r.status == 200 <==> r.body.value.success)
    && (r.status == 200 || r.status == 400 || r.status == 500)
    && (r.body.value.success <==> r.body.value.error == None)
    && (r.body.value.error.Some? ==>
          r.body.value.error.value in {ConfigError, NameRequired, EmailRequired, SendFailed, Unexpected})
  }

  /** Whatever the verdict and the provider's answer, the response has the JSON shape; a
      refusal is a 400, and an accepted form succeeds exactly when the provider took it,
      passing its id back. */
  lemma ResponseShape(v: Verdict, provider: ProviderOutcome)
    ensures JsonReply(Respond(v, provider))
    ensures Respond(v, provider).status == 400 <==> v == NoName || v == BadEmail
    ensures v.Accept? ==> (Respond(v, provider).status == 200 <==> provider.Answered? && provider.ok)
    ensures v.Accept? && provider.Answered? && provider.ok ==> Respond(v, provider).body == Some(Reply(true, None, provider.id))
  {
  }
}
