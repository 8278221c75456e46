/** The email provider client (src/email_client.rs): the request it builds for one message and
    how it reads the provider's answer. The HTTP exchange itself is an input. */
module Mail {
  import opened Wrappers
  import opened EmailDomain

  /** REQUEST_TIMEOUT, ten seconds, in milliseconds. */
  const RequestTimeoutMillis: nat := 10000

  datatype EmailClient = EmailClient(baseUrl: string, sender: SubscriberEmail, apiKey: string, timeoutMillis: nat)

  /** A client for `baseUrl`; the timeout is ten seconds unless one is given. */
  function New(baseUrl: string, sender: SubscriberEmail, apiKey: string, timeoutMillis: Option<nat>)
    : (c: EmailClient)
    ensures c.baseUrl == baseUrl && c.sender == sender && c.apiKey == apiKey
    ensures timeoutMillis.None? ==> c.timeoutMillis == RequestTimeoutMillis
    ensures timeoutMillis.Some? ==> c.timeoutMillis == timeoutMillis.value
  {
    EmailClient(baseUrl, sender, apiKey, if timeoutMillis.Some? then timeoutMillis.value else RequestTimeoutMillis)
  }

  datatype SendgridEmail = SendgridEmail(email: string)
  datatype SendgridPersonalization = SendgridPersonalization(to: seq<SendgridEmail>)
  datatype SendgridContent = SendgridContent(contentType: string, value: string)
  datatype SendEmailBody = SendEmailBody(
    personalizations: seq<SendgridPersonalization>,
    from: SendgridEmail,
    subject: string,
    content: seq<SendgridContent>)

  /** What is posted: the URL, the `Authorization` header and the JSON body. */
  datatype EmailRequest = EmailRequest(url: string, authorization: string, body: SendEmailBody)

  /** Every address a body is sent to, personalization by personalization. */
  function Recipients(ps: seq<SendgridPersonalization>): seq<string> {
    if ps == [] then []
    else seq(|ps[0].to|, i requires 0 <= i < |ps[0].to| => ps[0].to[i].email) + Recipients(ps[1..])
  }

  /** The HTML parts of a body, in order. */
  function HtmlParts(cs: seq<SendgridContent>): seq<string> {
    if cs == [] then []
    else (if cs[0].contentType == "text/html" then [cs[0].value] else []) + HtmlParts(cs[1..])
  }

  /** The request `send_email` posts for one recipient: to `<base_url>/mail/send` with the bearer
      key, from the sender, to the one recipient, with the subject and the one HTML part given. */
  function BuildRequest(client: EmailClient, recipient: SubscriberEmail, subject: string, htmlContent: string)
    : (req: EmailRequest)
    ensures req.url == client.baseUrl + "/mail/send"
    ensures req.authorization == "Bearer " + client.apiKey
    ensures |req.body.personalizations| == 1
    ensures Recipients(req.body.personalizations) == [recipient.AsRef()]
    ensures req.body.from.email == client.sender.AsRef()
    ensures req.body.subject == subject
    ensures |req.body.content| == 1
    ensures HtmlParts(req.body.content) == [htmlContent]
  {
    var url := client.baseUrl + "/mail/send";
    var body := SendEmailBody(
      [SendgridPersonalization([SendgridEmail(recipient.AsRef())])],
      SendgridEmail(client.sender.AsRef()),
      subject,
      [SendgridContent("text/html", htmlContent)]);
    assert body.personalizations[1..] == [];
    assert body.content[1..] == [];
    EmailRequest(url, "Bearer " + client.apiKey, body)
  }

  /** How the provider answered: a status code, or no answer at all (connection failure or
      timeout). */
  datatype HttpOutcome = Response(status: nat) | NoResponse

  datatype SendEmailError = ErrorStatus(status: nat) | Transport

  predicate IsErrorStatus(status: nat) {
    400 <= status <= 599
  }

  /** `error_for_status`: a 4xx or 5xx status is an error. */
  function ErrorForStatus(status: nat): (r: Result<(), SendEmailError>)
    ensures r.Err? <==> IsErrorStatus(status)
    ensures r.Err? ==> r.error == ErrorStatus(status)
  {
    if IsErrorStatus(status) then Err(ErrorStatus(status)) else Ok(())
  }

  /** The result of `send_email` once the provider's answer to the posted request is known. */
  function SendEmail(outcome: HttpOutcome): (r: Result<(), SendEmailError>)
    ensures r.Ok? <==> outcome.Response? && !IsErrorStatus(outcome.status)
    ensures outcome.NoResponse? ==> r == Err(Transport)
  {
    match outcome
    case NoResponse => Err(Transport)
    case Response(status) => ErrorForStatus(status)
  }

  /** A 2xx answer is success; a 4xx or 5xx answer is an error carrying the status. */
  lemma StatusClasses(status: nat)
    ensures 200 <= status <= 299 ==> SendEmail(Response(status)) == Ok(())
    ensures 400 <= status <= 599 ==> SendEmail(Response(status)) == Err(ErrorStatus(status))
  {
  }
}
