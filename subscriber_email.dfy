/** A subscriber's email address, validated once at construction
    (src/domain/subscriber_email.rs). */
module EmailDomain {
  import opened Wrappers
  import opened Text

  datatype SubscriberEmail = SubscriberEmail(value: string) {

    /** The address exactly as it was given to `Parse`. */
    function AsRef(): string {
      value
    }
  }

  const MaxUserLength: nat := 64
  const MaxDomainLength: nat := 255

  /** Characters allowed in the local part: letters, digits and ``.!#$%&'*+/=?^_`{|}~-``. */
  predicate IsUserChar(c: char) {
    IsAsciiAlphanumeric(c) || c in ".!#$%&'*+/=?^_`{|}~-"
  }

  predicate IsUserPart(u: string) {
    1 <= |u| <= MaxUserLength && forall i :: 0 <= i < |u| ==> IsUserChar(u[i])
  }

  /** The dot-separated labels of a domain; "" has the one empty label. */
  function SplitOnDot(s: string): (labels: seq<string>)
    ensures |labels| >= 1
  {
    if s == [] then [[]]
    else if s[0] == '.' then [[]] + SplitOnDot(s[1..])
    else
      var rest := SplitOnDot(s[1..]);
      [[s[0]] + rest[0]] + rest[1..]
  }

  /** One label: 1 to 63 letters, digits or hyphens, starting and ending with a letter or digit. */
  predicate IsDomainLabel(l: string) {
    && 1 <= |l| <= 63
    && (forall i :: 0 <= i < |l| ==> IsAsciiAlphanumeric(l[i]) || l[i] == '-')
    && IsAsciiAlphanumeric(l[0]) && IsAsciiAlphanumeric(l[|l| - 1])
  }

  predicate IsDomainPart(d: string) {
    && |d| <= MaxDomainLength
    && (forall i :: 0 <= i < |d| ==> IsAsciiAlphanumeric(d[i]) || d[i] == '-' || d[i] == '.')
    && (forall l :: l in SplitOnDot(d) ==> IsDomainLabel(l))
  }

  /** The email syntax check: split at the last '@' into a local part and a domain part and
      check each. */
  predicate ValidateEmail(s: string): (b: bool)
    ensures b ==> '@' in s && s[0] != '@'
    ensures b ==> 2 <= |s| <= MaxUserLength + 1 + MaxDomainLength
  {
    match LastIndexOf(s, '@')
    case None => false
    case Some(k) => IsUserPart(s[..k]) && IsDomainPart(s[k + 1..])
  }

  /** Accepts exactly the strings `ValidateEmail` accepts and keeps them verbatim. */
  function Parse(email: string): (r: Result<SubscriberEmail, string>)
    ensures r.Ok? <==> ValidateEmail(email)
    ensures r.Ok? ==> r.value.AsRef() == email
    ensures r.Err? ==> r.error == email + " email is not valid"
  {
    var isValidEmail := ValidateEmail(email);
    if !isValidEmail then Err(email + " email is not valid")
    else Ok(SubscriberEmail(email))
  }

  /** A string with one '@' before a domain part is accepted exactly when both sides are. */
  lemma ComposedAddress(user: string, domain: string)
    requires '@' !in domain
    ensures ValidateEmail(user + "@" + domain) <==> IsUserPart(user) && IsDomainPart(domain)
  {
    var s := user + "@" + domain;
    LastIndexOfAfter(user + "@", '@', domain);
    assert LastIndexOf(user + "@", '@') == Some(|user|);
    assert s[..|user|] == user;
    assert s[|user| + 1..] == domain;
  }

  /** A dot-free string is a single label. */
  lemma {:induction false} NoDotSplit(a: string)
    requires '.' !in a
    ensures SplitOnDot(a) == [a]
  {
    if a != [] {
      NoDotSplit(a[1..]);
      assert [a[0]] + a[1..] == a;
    }
  }

  /** A dot after a dot-free prefix ends the first label. */
  lemma {:induction false} DotSplit(a: string, b: string)
    requires '.' !in a
    ensures SplitOnDot(a + "." + b) == [a] + SplitOnDot(b)
  {
    if a == [] {
      assert a + "." + b == "." + b;
      assert ("." + b)[1..] == b;
    } else {
      DotSplit(a[1..], b);
      assert (a + "." + b)[1..] == a[1..] + "." + b;
      assert [a[0]] + a[1..] == a;
    }
  }

  /** The empty string is rejected. */
  lemma EmptyRejected()
    ensures Parse("").Err?
  {
  }

  /** A string without '@' is rejected. */
  lemma MissingAtRejected(s: string)
    requires '@' !in s
    ensures Parse(s).Err?
  {
  }

  /** A string whose local part is empty is rejected. */
  lemma MissingLocalPartRejected(domain: string)
    requires '@' !in domain
    ensures Parse("@" + domain).Err?
  {
    ComposedAddress("", domain);
    assert "" + "@" + domain == "@" + domain;
  }

  /** "test.com" is a domain part: two well-formed labels. */
  lemma ExampleDomain()
    ensures IsDomainPart("test.com")
  {
    NoDotSplit("com");
    DotSplit("test", "com");
    assert "test" + "." + "com" == "test.com";
    assert IsDomainLabel("test") && IsDomainLabel("com");
  }

  /** The address used as an example of a valid one is accepted. */
  lemma ExampleAccepted()
    ensures Parse("frank@test.com").Ok?
  {
    ExampleDomain();
    assert IsUserPart("frank");
    ComposedAddress("frank", "test.com");
    assert "frank" + "@" + "test.com" == "frank@test.com";
  }

  /** The addresses used as examples of invalid ones are rejected. */
  lemma ExamplesRejected()
    ensures Parse("franktest.com").Err?
    ensures Parse("@test.com").Err?
  {
    MissingLocalPartRejected("test.com");
    assert "@" + "test.com" == "@test.com";
  }
}
