/** Publishing a newsletter issue to the confirmed subscribers (src/routes/newsletters.rs). */
module Newsletters {
  import opened Wrappers
  import EmailDomain
  import opened NewSubscriberDomain
  import Mail
  import opened Backend
  import Subscriptions

  datatype NewsletterContent = NewsletterContent(html: string)
  datatype NewNewsletter = NewNewsletter(title: string, content: NewsletterContent)

  datatype PublishNewsletterError = SendEmailError | GetSubscribersError

  /** `ResponseError::status_code`. */
  function ErrorStatus(e: PublishNewsletterError): (status: HttpStatus)
    ensures status.Code() == 500
  {
    match e
    case SendEmailError => InternalServerError500
    case GetSubscribersError => InternalServerError500
  }

  /** The response a handler result turns into. */
  function ResponseOf(r: Result<HttpStatus, PublishNewsletterError>): HttpStatus {
    match r
    case Ok(status) => status
    case Err(e) => ErrorStatus(e)
  }

  /** Both errors are answered with 500. */
  lemma ErrorsAreServerErrors(e: PublishNewsletterError)
    ensures ResponseOf(Err(e)).Code() == 500
  {
  }

  /** The `email` column of the rows whose `status` column is "confirmed", in table order. */
  function ConfirmedEmails(table: seq<SubscriberRow>): (emails: seq<string>)
    ensures |emails| <= |table|
    ensures forall e :: e in emails <==>
              exists i :: 0 <= i < |table| && table[i].status == "confirmed" && table[i].email == e
  {
    if table == [] then []
    else
      var prefix := table[..|table| - 1];
      var last := table[|table| - 1];
      assert forall i :: 0 <= i < |prefix| ==> prefix[i] == table[i];
      ConfirmedEmails(prefix) + (if last.status == "confirmed" then [last.email] else [])
  }

  /** Selection distributes over concatenation, so table order is kept. */
  lemma {:induction false} ConfirmedEmailsAppend(a: seq<SubscriberRow>, b: seq<SubscriberRow>)
    ensures ConfirmedEmails(a + b) == ConfirmedEmails(a) + ConfirmedEmails(b)
  {
    if b != [] {
      var b' := b[..|b| - 1];
      ConfirmedEmailsAppend(a, b');
      assert (a + b)[..|a + b| - 1] == a + b';
      assert (a + b)[|a + b| - 1] == b[|b| - 1];
    } else {
      assert a + b == a;
    }
  }

  /** What `get_subscribers`' `unwrap` relies on: each confirmed row's email parses. */
  predicate ConfirmedRowsParse(table: seq<SubscriberRow>) {
    forall i :: 0 <= i < |table| && table[i].status == "confirmed" ==> EmailDomain.ValidateEmail(table[i].email)
  }

  lemma ConsistentRowsParse(b: Backends)
    requires Consistent(b)
    ensures ConfirmedRowsParse(b.table)
  {
  }

  /** `get_subscribers`: the confirmed emails, each parsed, or the database error. */
  function GetSubscribers(table: seq<SubscriberRow>, dbSucceeds: bool)
    : (r: Result<seq<EmailDomain.SubscriberEmail>, PublishNewsletterError>)
    requires dbSucceeds ==> ConfirmedRowsParse(table)
    ensures r.Err? <==> !dbSucceeds
    ensures r.Err? ==> r.error == GetSubscribersError
    ensures r.Ok? ==> |r.value| == |ConfirmedEmails(table)|
    ensures r.Ok? ==> forall i :: 0 <= i < |r.value| ==> r.value[i].AsRef() == ConfirmedEmails(table)[i]
  {
    if !dbSucceeds then Err(GetSubscribersError)
    else
      var emails := ConfirmedEmails(table);
      assert forall i :: 0 <= i < |emails| ==> EmailDomain.ValidateEmail(emails[i]) by {
        forall i | 0 <= i < |emails| ensures EmailDomain.ValidateEmail(emails[i]) {
          assert emails[i] in emails;
        }
      }
      Ok(seq(|emails|, i requires 0 <= i < |emails| => EmailDomain.Parse(emails[i]).value))
  }

  /** The result and the new stores of `publish_newsletter`: no provider call when nobody is
      confirmed, otherwise one broadcast call to all of them. Publishing only reads the table and
      the token store, makes at most one provider call, and answers 200 on success. */
  function Publish(b: Backends, body: NewNewsletter, dbSucceeds: bool, sendSucceeds: bool)
    : (r: (Result<HttpStatus, PublishNewsletterError>, Backends))
    requires dbSucceeds ==> ConfirmedRowsParse(b.table)
    ensures r.1.table == b.table && r.1.tokens == b.tokens
    ensures r.1.outbox == b.outbox
         || (|r.1.outbox| == |b.outbox| + 1 && r.1.outbox[..|b.outbox|] == b.outbox
             && r.1.outbox[|b.outbox|].Broadcast?)
    ensures r.0.Ok? ==> r.0.value == Ok200
  {
    match GetSubscribers(b.table, dbSucceeds)
    case Err(e) => (Err(e), b)
    case Ok(emails) =>
      if |emails| == 0 then (Ok(Ok200), b)
      else
        var after := b.(outbox := b.outbox + [Broadcast(emails, body.title, body.content.html)]);
        (if sendSucceeds then Ok(Ok200) else Err(SendEmailError), after)
  }

  /** `publish_newsletter`. */
  method PublishNewsletter(st: Stores, body: NewNewsletter, dbSucceeds: bool, sendSucceeds: bool)
    returns (r: Result<HttpStatus, PublishNewsletterError>)
    requires dbSucceeds ==> ConfirmedRowsParse(st.table)
    modifies st
    ensures (r, st.State()) == Publish(old(st.State()), body, dbSucceeds, sendSucceeds)
  {
    var subscriberEmails :- GetSubscribers(st.table, dbSucceeds);
    if |subscriberEmails| != 0 {
      st.outbox := st.outbox + [Broadcast(subscriberEmails, body.title, body.content.html)];
      if !sendSucceeds {
        return Err(SendEmailError);
      }
    }
    return Ok(Ok200);
  }

  /** A database failure is reported as such and nothing is sent. */
  lemma DatabaseFailureSendsNothing(b: Backends, body: NewNewsletter, sendSucceeds: bool)
    ensures Publish(b, body, false, sendSucceeds) == (Err(GetSubscribersError), b)
  {
  }

  /** With nobody confirmed the provider is not called and the answer is 200. */
  lemma NoConfirmedNoCall(b: Backends, body: NewNewsletter, sendSucceeds: bool)
    requires ConfirmedRowsParse(b.table) && ConfirmedEmails(b.table) == []
    ensures Publish(b, body, true, sendSucceeds) == (Ok(Ok200), b)
  {
  }

  /** Otherwise exactly one call is made, to exactly the confirmed emails in table order, with the
      title as subject and the HTML as body; it succeeds exactly when the send does. */
  lemma OneBroadcastToConfirmed(b: Backends, body: NewNewsletter, sendSucceeds: bool)
    requires ConfirmedRowsParse(b.table) && ConfirmedEmails(b.table) != []
    ensures var (r, after) := Publish(b, body, true, sendSucceeds);
      && (r == if sendSucceeds then Ok(Ok200) else Err(SendEmailError))
      && |after.outbox| == |b.outbox| + 1 && after.outbox[..|b.outbox|] == b.outbox
      && after.table == b.table && after.tokens == b.tokens
      && var call := after.outbox[|b.outbox|];
         && call.Broadcast?
         && call.subject == body.title && call.htmlContent == body.content.html
         && |call.recipients| == |ConfirmedEmails(b.table)|
         && forall i :: 0 <= i < |call.recipients| ==> call.recipients[i].AsRef() == ConfirmedEmails(b.table)[i]
  {
    var after := Publish(b, body, true, sendSucceeds).1;
    assert after.outbox[..|b.outbox|] == b.outbox;
  }

  /** A subscription that has just been created is not confirmed, so it does not add a recipient:
      from stores where nobody is confirmed, creating a subscription and then publishing makes no
      provider call for the newsletter and answers 200. */
  lemma NewSubscribersNotDelivered(b: Backends, body: NewSubscriberBody, client: Mail.EmailClient,
                                   baseUrl: string, fx: Subscriptions.CreateEffects, issue: NewNewsletter,
                                   sendSucceeds: bool)
    requires Consistent(b) && ConfirmedEmails(b.table) == []
    ensures var after := Subscriptions.CreateSubscription(b, body, client, baseUrl, fx).1;
      && ConfirmedRowsParse(after.table)
      && Publish(after, issue, true, sendSucceeds) == (Ok(Ok200), after)
  {
    var after := Subscriptions.CreateSubscription(b, body, client, baseUrl, fx).1;
    Subscriptions.CreatePreservesConsistency(b, body, client, baseUrl, fx);
    if after.table != b.table {
      var row := Subscriptions.PendingRow(TryFrom(body).value, fx.id, fx.now);
      assert after.table == b.table + [row];
      ConfirmedEmailsAppend(b.table, [row]);
      assert ConfirmedEmails([row]) == [] by {
        assert [row][..0] == [];
      }
    }
  }
}
