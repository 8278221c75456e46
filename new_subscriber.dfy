/** A validated subscription request (src/domain/new_subscriber.rs). */
module NewSubscriberDomain {
  import opened Wrappers
  import NameDomain
  import EmailDomain

  /** The request body as deserialised: two raw strings. */
  datatype NewSubscriberBody = NewSubscriberBody(name: string, email: string)

  datatype NewSubscriber = NewSubscriber(email: EmailDomain.SubscriberEmail, name: NameDomain.SubscriberName)

  /** Parses the name, then the email; the first failure is the result. */
  function TryFrom(body: NewSubscriberBody): (r: Result<NewSubscriber, string>)
    ensures r.Ok? <==> NameDomain.IsValidName(body.name) && EmailDomain.ValidateEmail(body.email)
    ensures !NameDomain.IsValidName(body.name) ==>
              r == Err(body.name + " is not a valid subscriber name")
    ensures NameDomain.IsValidName(body.name) && !EmailDomain.ValidateEmail(body.email) ==>
              r == Err(body.email + " email is not valid")
    ensures r.Ok? ==> r.value.name.AsRef() == body.name && r.value.email.AsRef() == body.email
  {
    var name :- NameDomain.Parse(body.name);
    var email :- EmailDomain.Parse(body.email);
    Ok(NewSubscriber(email, name))
  }

  /** What every `NewSubscriber` built by `TryFrom` satisfies. */
  predicate Valid(s: NewSubscriber) {
    NameDomain.IsValidName(s.name.AsRef()) && EmailDomain.ValidateEmail(s.email.AsRef())
  }

  /** Re-parsing the stored strings of an accepted request gives the same values back, so the
      `unwrap`s applied to the inserted row cannot fail. */
  lemma ReparseAccepted(body: NewSubscriberBody)
    requires TryFrom(body).Ok?
    ensures Valid(TryFrom(body).value)
    ensures NameDomain.Parse(TryFrom(body).value.name.AsRef()) == Ok(TryFrom(body).value.name)
    ensures EmailDomain.Parse(TryFrom(body).value.email.AsRef()) == Ok(TryFrom(body).value.email)
  {
  }

  /** The request used as an example of a valid one. */
  lemma FrankAccepted()
    ensures TryFrom(NewSubscriberBody("Frank", "frank@test.com")).Ok?
  {
    NameDomain.BlankRejected();
    EmailDomain.ExampleAccepted();
  }

  /** An empty name is reported even when the email is valid. */
  lemma EmptyNameRejected(email: string)
    ensures TryFrom(NewSubscriberBody("", email)) == Err(" is not a valid subscriber name")
  {
    NameDomain.BlankRejected();
    assert "" + " is not a valid subscriber name" == " is not a valid subscriber name";
  }
}
