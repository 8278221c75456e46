/** The lifecycle status of a subscriber and its canonical text encoding
    (src/domain/subscriber_status.rs). */
module StatusDomain {
  import opened Wrappers

  datatype SubscriberStatus = Pending | Confirmed | Unsubscribed {

    /** The status is stored as "pending_confirmation". */
    predicate IsPending(): (b: bool)
      ensures b <==> AsRef() == "pending_confirmation"
    {
      Pending?
    }

    /** The status is stored as "confirmed". */
    predicate IsConfirmed(): (b: bool)
      ensures b <==> AsRef() == "confirmed"
    {
      Confirmed?
    }

    /** The status is stored as "unsubscribed". */
    predicate IsUnsubscribed(): (b: bool)
      ensures b <==> AsRef() == "unsubscribed"
    {
      Unsubscribed?
    }

    /** The encoding stored in the `status` column. */
    function AsRef(): (r: string)
      ensures r in Encodings()
    {
      match this
      case Pending => "pending_confirmation"
      case Confirmed => "confirmed"
      case Unsubscribed => "unsubscribed"
    }
  }

  /** The three strings that name a status, and nothing else. */
  function Encodings(): set<string> {
    {"pending_confirmation", "confirmed", "unsubscribed"}
  }

  /** Exact, case-sensitive match against the three encodings; no default. */
  function Parse(status: string): (r: Result<SubscriberStatus, string>)
    ensures r.Ok? <==> status in Encodings()
    ensures r.Ok? ==> r.value.AsRef() == status
    ensures r.Err? ==> r.error == status + " is not a valid subscriber status"
  {
    match status
    case "pending_confirmation" => Ok(Pending)
    case "confirmed" => Ok(Confirmed)
    case "unsubscribed" => Ok(Unsubscribed)
    case _ => Err(status + " is not a valid subscriber status")
  }

  /** Parsing the encoding of a status gives that status back. */
  lemma ParseAsRef(s: SubscriberStatus)
    ensures Parse(s.AsRef()) == Ok(s)
  {
  }

  /** Distinct statuses have distinct encodings. */
  lemma AsRefInjective(s: SubscriberStatus, t: SubscriberStatus)
    ensures s.AsRef() == t.AsRef() ==> s == t
  {
  }

  /** Every accepted string is the encoding of the status it parses to. */
  lemma AsRefParse(text: string)
    requires Parse(text).Ok?
    ensures Parse(text).value.AsRef() == text
  {
  }

  /** The three status predicates partition the statuses. */
  lemma ExactlyOneHolds(s: SubscriberStatus)
    ensures s.IsPending() || s.IsConfirmed() || s.IsUnsubscribed()
    ensures !(s.IsPending() && s.IsConfirmed())
    ensures !(s.IsPending() && s.IsUnsubscribed())
    ensures !(s.IsConfirmed() && s.IsUnsubscribed())
  {
  }

  /** Matching is case-sensitive: the capitalised forms are rejected. */
  lemma CaseSensitive()
    ensures Parse("Confirmed").Err?
    ensures Parse("PENDING_CONFIRMATION").Err?
    ensures Parse("").Err?
  {
    assert "Confirmed"[0] != "confirmed"[0];
  }
}
