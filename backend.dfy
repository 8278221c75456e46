/** The external state the route handlers work on: the `subscriptions` table (Postgres), the
    token store (Redis) and the calls made to the email provider. */
module Backend {
  import StatusDomain
  import NameDomain
  import EmailDomain
  import Mail

  /** A subscriber id; `text` is its string form (`Uuid::to_string`). */
  datatype Uuid = Uuid(text: string)

  /** A row of the `subscriptions` table; email, name and status are text columns. */
  datatype SubscriberRow = SubscriberRow(id: Uuid, email: string, name: string, subscribedAt: int, status: string)

  /** The record built from a row the database returns. */
  datatype Subscriber = Subscriber(
    id: Uuid,
    email: EmailDomain.SubscriberEmail,
    name: NameDomain.SubscriberName,
    subscribedAt: int,
    status: StatusDomain.SubscriberStatus)

  /** One call made to the email provider, whatever its outcome. */
  datatype MailCall =
    | Single(request: Mail.EmailRequest)
    | Broadcast(recipients: seq<EmailDomain.SubscriberEmail>, subject: string, htmlContent: string)

  /** The responses the handlers give. */
  datatype HttpStatus = Ok200 | Created201 | BadRequest400 | InternalServerError500 {
    function Code(): nat {
      match this
      case Ok200 => 200
      case Created201 => 201
      case BadRequest400 => 400
      case InternalServerError500 => 500
    }
  }

  /** A snapshot of the three stores. */
  datatype Backends = Backends(table: seq<SubscriberRow>, tokens: map<string, string>, outbox: seq<MailCall>)

  /** A row whose columns parse back: what the handlers' `unwrap`s rely on. */
  predicate RowValid(r: SubscriberRow) {
    EmailDomain.ValidateEmail(r.email) && NameDomain.IsValidName(r.name) && r.status in StatusDomain.Encodings()
  }

  predicate HasId(table: seq<SubscriberRow>, id: string) {
    exists i :: 0 <= i < |table| && table[i].id.text == id
  }

  /** The invariant the handlers keep: every row parses back, and every stored token maps to the
      id of a row. */
  predicate Consistent(b: Backends) {
    && (forall i :: 0 <= i < |b.table| ==> RowValid(b.table[i]))
    && (forall k :: k in b.tokens ==> HasId(b.table, b.tokens[k]))
  }

  class Stores {
    var table: seq<SubscriberRow>
    var tokens: map<string, string>
    var outbox: seq<MailCall>

    /** Empty stores. */
    constructor ()
      ensures State() == Backends([], map[], [])
      ensures Consistent(State())
    {
      table, tokens, outbox := [], map[], [];
    }

    function State(): Backends
      reads this
    {
      Backends(table, tokens, outbox)
    }
  }
}
