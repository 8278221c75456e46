/** The subscription-creation workflow (src/routes/subscriptions.rs): validate the request,
    insert a pending row, generate a token, store it, and email a confirmation link. */
module Subscriptions {
  import opened Wrappers
  import opened Text
  import StatusDomain
  import EmailDomain
  import NameDomain
  import opened NewSubscriberDomain
  import Mail
  import opened Backend

  /** Length of a confirmation token. */
  const SubscriptionTokenLength: nat := 30

  /** The alphabet tokens are drawn from: A-Z, a-z, 0-9, in that order. */
  function Charset(): (cs: string)
    ensures |cs| == 62
  {
    seq(62, i requires 0 <= i < 62 =>
      if i < 26 then ('A' as int + i) as char
      else if i < 52 then ('a' as int + i - 26) as char
      else ('0' as int + i - 52) as char)
  }

  /** The alphabet holds exactly the ASCII letters and digits. */
  lemma CharsetIsAlphanumeric(c: char)
    ensures c in Charset() <==> IsAsciiAlphanumeric(c)
  {
    var cs := Charset();
    if IsAsciiAlphanumeric(c) {
      var i := if 'A' <= c <= 'Z' then c as int - 'A' as int
               else if 'a' <= c <= 'z' then c as int - 'a' as int + 26
               else c as int - '0' as int + 52;
      assert cs[i] == c;
    }
  }

  /** The token a run of the generator produces when its k-th draw is `draw(k)`. */
  function TokenFromDraws(draw: nat -> nat): (token: string)
    ensures |token| == SubscriptionTokenLength
    ensures forall i :: 0 <= i < |token| ==> IsAsciiAlphanumeric(token[i])
  {
    var cs := Charset();
    var token := seq(SubscriptionTokenLength, k requires 0 <= k => cs[draw(k) % 62]);
    assert forall i :: 0 <= i < |token| ==> token[i] in cs;
    forall i | 0 <= i < |token| ensures IsAsciiAlphanumeric(token[i]) {
      CharsetIsAlphanumeric(token[i]);
    }
    token
  }

  /** `generate_subscription_token`: thirty characters drawn one at a time from the alphabet. */
  method GenerateSubscriptionToken(draw: nat -> nat) returns (token: string)
    ensures token == TokenFromDraws(draw)
    ensures |token| == SubscriptionTokenLength
    ensures forall i :: 0 <= i < |token| ==> IsAsciiAlphanumeric(token[i])
  {
    var cs := Charset();
    token := [];
    var k := 0;
    while k < SubscriptionTokenLength
      invariant 0 <= k <= SubscriptionTokenLength
      invariant token == TokenFromDraws(draw)[..k]
    {
      token := token + [cs[draw(k) % 62]];
      k := k + 1;
    }
  }

  const TokenKeyPrefix: string := "subscription_token:"
  const TokenKeySuffix: string := ":subscriber_id"

  /** Reads the token back out of a key; `None` for a string that is not a token key. */
  function TokenOfKey(key: string): Option<string> {
    if |key| >= |TokenKeyPrefix| + |TokenKeySuffix|
       && key[..|TokenKeyPrefix|] == TokenKeyPrefix
       && key[|key| - |TokenKeySuffix|..] == TokenKeySuffix
    then Some(key[|TokenKeyPrefix|..|key| - |TokenKeySuffix|])
    else None
  }

  /** The token-store key under which a token's subscriber id is kept; the token reads back
      from it. */
  function TokenKey(token: string): (key: string)
    ensures TokenOfKey(key) == Some(token)
  {
    var key := TokenKeyPrefix + token + TokenKeySuffix;
    assert key[..|TokenKeyPrefix|] == TokenKeyPrefix;
    assert key[|key| - |TokenKeySuffix|..] == TokenKeySuffix;
    assert key[|TokenKeyPrefix|..|key| - |TokenKeySuffix|] == token;
    key
  }

  /** Whatever reads back as a token is that token's key. */
  lemma TokenOfKeyInverse(key: string)
    requires TokenOfKey(key).Some?
    ensures TokenKey(TokenOfKey(key).value) == key
  {
    var p, s := |TokenKeyPrefix|, |key| - |TokenKeySuffix|;
    assert key == key[..p] + key[p..s] + key[s..];
  }

  /** Distinct tokens are kept under distinct keys. */
  lemma TokenKeyInjective(t1: string, t2: string)
    ensures TokenKey(t1) == TokenKey(t2) ==> t1 == t2
  {
    var k1, k2 := TokenKey(t1), TokenKey(t2);
  }

  const ConfirmationSubject: string := "Welcome to our newsletter"
  const ConfirmationPath: string := "/subscriptions/confirm?token="

  /** Reads the token back out of a link of the application at `baseUrl`. */
  function TokenOfLink(baseUrl: string, link: string): Option<string> {
    var p := |baseUrl + ConfirmationPath|;
    if |link| >= p && link[..p] == baseUrl + ConfirmationPath then Some(link[p..]) else None
  }

  /** The link a new subscriber is sent; it carries the token back. */
  function ConfirmationLink(baseUrl: string, token: string): (link: string)
    ensures TokenOfLink(baseUrl, link) == Some(token)
  {
    var link := baseUrl + ConfirmationPath + token;
    var p := |baseUrl + ConfirmationPath|;
    assert link[..p] == baseUrl + ConfirmationPath;
    assert link[p..] == token;
    link
  }

  /** The HTML before and after the link in the confirmation email. */
  const HtmlBeforeLink: string :=
    "\n            <div>\n                <h1>Welcome to our newsletter!</>\n                <p>Click <a href=\""
  const HtmlAfterLink: string :=
    "\">here</a> to confirm your subscription!</p>\n            </div>\n        "

  /** The confirmation email's HTML: the link is the `href` target, between the two fixed parts. */
  function ConfirmationHtml(link: string): (html: string)
    ensures |html| == |HtmlBeforeLink| + |link| + |HtmlAfterLink|
    ensures html[..|HtmlBeforeLink|] == HtmlBeforeLink
    ensures html[|HtmlBeforeLink|..|HtmlBeforeLink| + |link|] == link
    ensures html[|HtmlBeforeLink| + |link|..] == HtmlAfterLink
  {
    HtmlBeforeLink + link + HtmlAfterLink
  }

  /** The request `send_confirmation_email` makes: to the new subscriber only, with the welcome
      subject, and one HTML part that holds the link, from which the token reads back. */
  function ConfirmationRequest(client: Mail.EmailClient, subscriber: NewSubscriber, baseUrl: string, token: string)
    : (req: Mail.EmailRequest)
    ensures var link := ConfirmationLink(baseUrl, token);
      && Mail.Recipients(req.body.personalizations) == [subscriber.email.AsRef()]
      && req.body.subject == "Welcome to our newsletter"
      && Mail.HtmlParts(req.body.content) == [ConfirmationHtml(link)]
      && TokenOfLink(baseUrl, link) == Some(token)
  {
    Mail.BuildRequest(client, subscriber.email, ConfirmationSubject, ConfirmationHtml(ConfirmationLink(baseUrl, token)))
  }

  /** What the environment decides in one run of the handler: the fresh id and the clock, whether
      the insert and the token write succeed, the random draws, and the provider's answer. */
  datatype CreateEffects = CreateEffects(
    id: Uuid,
    now: int,
    insertSucceeds: bool,
    draw: nat -> nat,
    tokenStoreSucceeds: bool,
    mailOutcome: Mail.HttpOutcome)

  /** The row `create_subscription` inserts. */
  function PendingRow(subscriber: NewSubscriber, id: Uuid, now: int): (row: SubscriberRow)
    ensures StatusDomain.Parse(row.status) == Ok(StatusDomain.Pending)
    ensures Valid(subscriber) ==> RowValid(row)
  {
    StatusDomain.ParseAsRef(StatusDomain.Pending);
    SubscriberRow(id, subscriber.email.AsRef(), subscriber.name.AsRef(), now, "pending_confirmation")
  }

  /** The response and the new stores of `handle_create_subscription`. Each step stops the run on
      failure; a failed confirmation email is ignored. The stores only grow: at most one row is
      appended, no key is removed, and an email goes out only with a 201. */
  function CreateSubscription(b: Backends, body: NewSubscriberBody, client: Mail.EmailClient, baseUrl: string,
                              fx: CreateEffects): (r: (HttpStatus, Backends))
    ensures r.0 == BadRequest400 ==> r.1 == b
    ensures |b.table| <= |r.1.table| <= |b.table| + 1 && r.1.table[..|b.table|] == b.table
    ensures b.tokens.Keys <= r.1.tokens.Keys
    ensures r.1.outbox == b.outbox
         || (r.0 == Created201 && |r.1.outbox| == |b.outbox| + 1 && r.1.outbox[..|b.outbox|] == b.outbox)
  {
    match TryFrom(body)
    case Err(_) => (BadRequest400, b)
    case Ok(subscriber) =>
      if !fx.insertSucceeds then (InternalServerError500, b)
      else
        var b1 := b.(table := b.table + [PendingRow(subscriber, fx.id, fx.now)]);
        var token := TokenFromDraws(fx.draw);
        if !fx.tokenStoreSucceeds then (InternalServerError500, b1)
        else
          var b2 := b1.(tokens := b1.tokens[TokenKey(token) := fx.id.text]);
          (Created201, b2.(outbox := b2.outbox + [Single(ConfirmationRequest(client, subscriber, baseUrl, token))]))
  }

  /** `create_subscription`: inserts a pending row and builds the record from the returned row. */
  method CreateSubscriptionRow(st: Stores, subscriber: NewSubscriber, id: Uuid, now: int, succeeds: bool)
    returns (r: Result<Subscriber, string>)
    requires Valid(subscriber)
    modifies st
    ensures st.table == if succeeds then old(st.table) + [PendingRow(subscriber, id, now)] else old(st.table)
    ensures st.tokens == old(st.tokens) && st.outbox == old(st.outbox)
    ensures r.Ok? == succeeds
    ensures r.Ok? ==> r.value == Subscriber(id, subscriber.email, subscriber.name, now, StatusDomain.Pending)
  {
    if !succeeds {
      return Err("Failed to execute query");
    }
    var row := PendingRow(subscriber, id, now);
    st.table := st.table + [row];
    var email := EmailDomain.Parse(row.email);
    var name := NameDomain.Parse(row.name);
    var status := StatusDomain.Parse(row.status);
    r := Ok(Subscriber(row.id, email.value, name.value, row.subscribedAt, status.value));
  }

  /** `store_subscription_token`: sets the token's key to the subscriber id. */
  method StoreSubscriptionToken(st: Stores, token: string, id: Uuid, succeeds: bool) returns (r: Result<(), string>)
    modifies st
    ensures st.tokens == if succeeds then old(st.tokens)[TokenKey(token) := id.text] else old(st.tokens)
    ensures st.table == old(st.table) && st.outbox == old(st.outbox)
    ensures r.Ok? == succeeds
  {
    if !succeeds {
      return Err("Failed to store subscription token");
    }
    st.tokens := st.tokens[TokenKey(token) := id.text];
    r := Ok(());
  }

  /** `send_confirmation_email`: one call to the provider, whose answer decides the result. */
  method SendConfirmationEmail(st: Stores, client: Mail.EmailClient, subscriber: NewSubscriber, baseUrl: string,
                               token: string, outcome: Mail.HttpOutcome) returns (r: Result<(), Mail.SendEmailError>)
    modifies st
    ensures st.outbox == old(st.outbox) + [Single(ConfirmationRequest(client, subscriber, baseUrl, token))]
    ensures st.table == old(st.table) && st.tokens == old(st.tokens)
    ensures r == Mail.SendEmail(outcome)
  {
    var link := ConfirmationLink(baseUrl, token);
    var htmlBody := ConfirmationHtml(link);
    st.outbox := st.outbox + [Single(Mail.BuildRequest(client, subscriber.email, ConfirmationSubject, htmlBody))];
    r := Mail.SendEmail(outcome);
  }

  /** `handle_create_subscription`. */
  method HandleCreateSubscription(st: Stores, body: NewSubscriberBody, client: Mail.EmailClient, baseUrl: string,
                                  fx: CreateEffects) returns (status: HttpStatus)
    modifies st
    ensures (status, st.State()) == CreateSubscription(old(st.State()), body, client, baseUrl, fx)
  {
    var parsed := TryFrom(body);
    if parsed.Err? {
      return BadRequest400;
    }
    var newSubscriber := parsed.value;
    ReparseAccepted(body);
    var subscriber := CreateSubscriptionRow(st, newSubscriber, fx.id, fx.now, fx.insertSucceeds);
    if subscriber.Err? {
      return InternalServerError500;
    }
    var token := GenerateSubscriptionToken(fx.draw);
    var stored := StoreSubscriptionToken(st, token, subscriber.value.id, fx.tokenStoreSucceeds);
    if stored.Err? {
      return InternalServerError500;
    }
    var sent := SendConfirmationEmail(st, client, newSubscriber, baseUrl, token, fx.mailOutcome);
    // A failed send is only logged: the handler still answers 201.
    status := Created201;
  }

  /** Which inputs give which answer: 400 exactly for an invalid request, 201 exactly when the
      insert and the token write both succeed, 500 otherwise. */
  lemma CreateResponses(b: Backends, body: NewSubscriberBody, client: Mail.EmailClient, baseUrl: string,
                        fx: CreateEffects)
    ensures var status := CreateSubscription(b, body, client, baseUrl, fx).0;
      && (status == BadRequest400 <==> TryFrom(body).Err?)
      && (status == Created201 <==> TryFrom(body).Ok? && fx.insertSucceeds && fx.tokenStoreSucceeds)
      && (status == InternalServerError500 <==>
            TryFrom(body).Ok? && !(fx.insertSucceeds && fx.tokenStoreSucceeds))
  {
  }

  /** An invalid request touches no store: no row, no token, no email. */
  lemma InvalidRequestTouchesNothing(b: Backends, body: NewSubscriberBody, client: Mail.EmailClient,
                                     baseUrl: string, fx: CreateEffects)
    requires TryFrom(body).Err?
    ensures CreateSubscription(b, body, client, baseUrl, fx) == (BadRequest400, b)
  {
  }

  /** A failed insert stores no token and sends no email. */
  lemma InsertFailureStopsEverything(b: Backends, body: NewSubscriberBody, client: Mail.EmailClient,
                                     baseUrl: string, fx: CreateEffects)
    requires TryFrom(body).Ok? && !fx.insertSucceeds
    ensures CreateSubscription(b, body, client, baseUrl, fx) == (InternalServerError500, b)
  {
  }

  /** A failed token write sends no email, and the pending row stays. */
  lemma TokenStoreFailureKeepsRow(b: Backends, body: NewSubscriberBody, client: Mail.EmailClient,
                                  baseUrl: string, fx: CreateEffects)
    requires TryFrom(body).Ok? && fx.insertSucceeds && !fx.tokenStoreSucceeds
    ensures var (status, after) := CreateSubscription(b, body, client, baseUrl, fx);
      && status == InternalServerError500
      && after.table == b.table + [SubscriberRow(fx.id, body.email, body.name, fx.now, "pending_confirmation")]
      && after.tokens == b.tokens
      && after.outbox == b.outbox
  {
  }

  /** On success the row is pending with the name and email as given, the token is thirty letters
      and digits kept under its key with the new id, and exactly one email was sent, to the new
      subscriber, whose one HTML part carries the confirmation link. */
  lemma CreatedState(b: Backends, body: NewSubscriberBody, client: Mail.EmailClient, baseUrl: string,
                     fx: CreateEffects)
    requires TryFrom(body).Ok? && fx.insertSucceeds && fx.tokenStoreSucceeds
    ensures var (status, after) := CreateSubscription(b, body, client, baseUrl, fx);
      var token := TokenFromDraws(fx.draw);
      && status == Created201
      && after.table == b.table + [SubscriberRow(fx.id, body.email, body.name, fx.now, "pending_confirmation")]
      && StatusDomain.Parse(after.table[|b.table|].status) == Ok(StatusDomain.Pending)
      && |token| == 30 && (forall i :: 0 <= i < |token| ==> IsAsciiAlphanumeric(token[i]))
      && after.tokens == b.tokens[TokenKey(token) := fx.id.text]
      && |after.outbox| == |b.outbox| + 1 && after.outbox[..|b.outbox|] == b.outbox
      && after.outbox[|b.outbox|].Single?
      && Mail.Recipients(after.outbox[|b.outbox|].request.body.personalizations) == [body.email]
      && after.outbox[|b.outbox|].request.body.subject == "Welcome to our newsletter"
      && Mail.HtmlParts(after.outbox[|b.outbox|].request.body.content)
         == [HtmlBeforeLink + ConfirmationLink(baseUrl, token) + HtmlAfterLink]
  {
    var subscriber := TryFrom(body).value;
    var token := TokenFromDraws(fx.draw);
    StatusDomain.ParseAsRef(StatusDomain.Pending);
    var after := CreateSubscription(b, body, client, baseUrl, fx).1;
    assert after.outbox[..|b.outbox|] == b.outbox;
  }

  /** The provider's answer to the confirmation email changes neither the response nor the stores:
      a failed send is swallowed and the handler still answers 201. */
  lemma MailOutcomeIgnored(b: Backends, body: NewSubscriberBody, client: Mail.EmailClient, baseUrl: string,
                           fx: CreateEffects, other: Mail.HttpOutcome)
    ensures CreateSubscription(b, body, client, baseUrl, fx)
         == CreateSubscription(b, body, client, baseUrl, fx.(mailOutcome := other))
  {
  }

  /** The handler keeps the stores consistent: every row parses back and every token maps to the id
      of a row. */
  lemma CreatePreservesConsistency(b: Backends, body: NewSubscriberBody, client: Mail.EmailClient,
                                   baseUrl: string, fx: CreateEffects)
    requires Consistent(b)
    ensures Consistent(CreateSubscription(b, body, client, baseUrl, fx).1)
  {
    if TryFrom(body).Ok? && fx.insertSucceeds {
      ReparseAccepted(body);
      var row := PendingRow(TryFrom(body).value, fx.id, fx.now);
      var table := b.table + [row];
      assert RowValid(row);
      assert forall i :: 0 <= i < |table| ==> RowValid(table[i]);
      forall id | HasId(b.table, id) ensures HasId(table, id) {
        var i :| 0 <= i < |b.table| && b.table[i].id.text == id;
        assert table[i] == b.table[i];
      }
      assert HasId(table, fx.id.text) by { assert table[|b.table|] == row; }
    }
  }
}
