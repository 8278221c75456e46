/** A subscriber's display name, validated once at construction
    (src/domain/subscriber_name.rs). */
module NameDomain {
  import opened Wrappers

  /** Most grapheme clusters a name may have (the source spells it MAX_CHAR_LENGHT). */
  const MaxCharLength: nat := 256

  /** Characters a name may not contain. */
  const ForbiddenChars: seq<char> := ['/', '{', '}', '"', '>', '<', '\\', '(', ')']

  datatype SubscriberName = SubscriberName(value: string) {

    /** The name exactly as it was given to `Parse`. */
    function AsRef(): string {
      value
    }
  }

  /** Rust's `char::is_whitespace`: the characters with the Unicode White_Space property. */
  predicate IsWhitespace(c: char) {
    || ('\U{0009}' <= c <= '\U{000D}')
    || c == ' ' || c == '\U{0085}' || c == '\U{00A0}' || c == '\U{1680}'
    || ('\U{2000}' <= c <= '\U{200A}')
    || c == '\U{2028}' || c == '\U{2029}' || c == '\U{202F}' || c == '\U{205F}' || c == '\U{3000}'
  }

  function TrimStart(s: string): string {
    if s != [] && IsWhitespace(s[0]) then TrimStart(s[1..]) else s
  }

  function TrimEnd(s: string): string {
    if s != [] && IsWhitespace(s[|s| - 1]) then TrimEnd(s[..|s| - 1]) else s
  }

  /** Rust's `str::trim`: drops leading and trailing whitespace. */
  function Trim(s: string): string {
    TrimEnd(TrimStart(s))
  }

  /** Every character of `s` is whitespace (vacuously so for the empty string). */
  predicate IsBlank(s: string) {
    forall i :: 0 <= i < |s| ==> IsWhitespace(s[i])
  }

  lemma {:induction false} TrimStartFacts(s: string)
    ensures TrimStart(s) == [] <==> IsBlank(s)
    ensures TrimStart(s) != [] ==> !IsWhitespace(TrimStart(s)[0])
  {
    if s != [] && IsWhitespace(s[0]) {
      TrimStartFacts(s[1..]);
      assert IsBlank(s) <==> IsBlank(s[1..]) by {
        if IsBlank(s[1..]) {
          forall i | 0 <= i < |s| ensures IsWhitespace(s[i]) {
            if i > 0 { assert s[i] == s[1..][i - 1]; }
          }
        }
      }
    }
  }

  lemma {:induction false} TrimEndEmpty(s: string)
    ensures TrimEnd(s) == [] <==> IsBlank(s)
  {
    if s != [] && IsWhitespace(s[|s| - 1]) {
      TrimEndEmpty(s[..|s| - 1]);
      assert IsBlank(s) <==> IsBlank(s[..|s| - 1]) by {
        if IsBlank(s[..|s| - 1]) {
          forall i | 0 <= i < |s| ensures IsWhitespace(s[i]) {
            if i < |s| - 1 { assert s[i] == s[..|s| - 1][i]; }
          }
        }
      }
    }
  }

  /** `name.trim().is_empty()` holds exactly when the name is blank. */
  lemma TrimEmptyIffBlank(s: string)
    ensures Trim(s) == [] <==> IsBlank(s)
  {
    TrimStartFacts(s);
    var t := TrimStart(s);
    TrimEndEmpty(t);
    if t != [] {
      assert !IsBlank(t) by { assert !IsWhitespace(t[0]); }
    }
  }

  /** Characters that extend the cluster before them (a subset of Grapheme_Extend plus the
      zero-width joiner): the combining diacritical marks and their supplements, the combining
      marks for symbols, the variation selectors and the combining half marks. */
  predicate IsGraphemeExtend(c: char) {
    || ('\U{0300}' <= c <= '\U{036F}')
    || ('\U{1AB0}' <= c <= '\U{1AFF}')
    || ('\U{1DC0}' <= c <= '\U{1DFF}')
    || ('\U{20D0}' <= c <= '\U{20FF}')
    || ('\U{FE00}' <= c <= '\U{FE0F}')
    || ('\U{FE20}' <= c <= '\U{FE2F}')
    || c == '\U{200D}'
  }

  /** The C0 and C1 control characters. */
  predicate IsControl(c: char) {
    c < ' ' || ('\U{007F}' <= c <= '\U{009F}')
  }

  /** Whether `s[i]` begins a new extended grapheme cluster: never between CR and LF,
      always next to a control character, otherwise unless it is an extending character. */
  predicate StartsCluster(s: string, i: nat)
    requires i < |s|
  {
    if i == 0 then true
    else if s[i - 1] == '\r' && s[i] == '\n' then false
    else if IsControl(s[i - 1]) || IsControl(s[i]) then true
    else !IsGraphemeExtend(s[i])
  }

  /** `name.graphemes(true).count()`: the number of cluster starts. */
  function GraphemeCount(s: string): (n: nat)
    ensures n <= |s|
    ensures s != [] ==> n >= 1
  {
    if s == [] then 0
    else GraphemeCount(s[..|s| - 1]) + (if StartsCluster(s, |s| - 1) then 1 else 0)
  }

  /** On ASCII text without a CR LF pair every character is its own cluster. */
  lemma {:induction false} AsciiGraphemeCount(s: string)
    requires forall i :: 0 <= i < |s| ==> s[i] < '\U{0080}'
    requires forall i :: 0 < i < |s| ==> !(s[i - 1] == '\r' && s[i] == '\n')
    ensures GraphemeCount(s) == |s|
  {
    if s != [] {
      var p := s[..|s| - 1];
      assert forall i :: 0 <= i < |p| ==> p[i] == s[i];
      AsciiGraphemeCount(p);
    }
  }

  /** `name.chars().any(|c| FORBIDDEN_CHARS.contains(&c))`. */
  function AnyForbidden(s: string): (b: bool)
    ensures b <==> exists i :: 0 <= i < |s| && s[i] in ForbiddenChars
  {
    if s == [] then false
    else if s[0] in ForbiddenChars then true
    else
      var b := AnyForbidden(s[1..]);
      assert forall i :: 0 < i < |s| ==> s[i] == s[1..][i - 1];
      b
  }

  /** What a valid name is, stated apart from how `Parse` computes it: some character is not
      whitespace, it has at most 256 clusters and no character is forbidden. */
  predicate IsValidName(s: string) {
    && (exists i :: 0 <= i < |s| && !IsWhitespace(s[i]))
    && GraphemeCount(s) <= MaxCharLength
    && (forall i :: 0 <= i < |s| ==> s[i] !in ForbiddenChars)
  }

  /** Rejects a blank, over-long or forbidden-character name; keeps an accepted name as given,
      untrimmed. */
  function Parse(name: string): (r: Result<SubscriberName, string>)
    ensures r.Ok? <==> IsValidName(name)
    ensures r.Ok? ==> r.value.AsRef() == name
    ensures r.Err? ==> r.error == name + " is not a valid subscriber name"
  {
    var isEmptyOrWhitespace := Trim(name) == [];
    var isTooLong := GraphemeCount(name) > MaxCharLength;
    var containsForbiddenChars := AnyForbidden(name);
    TrimEmptyIffBlank(name);
    if isEmptyOrWhitespace || isTooLong || containsForbiddenChars then
      Err(name + " is not a valid subscriber name")
    else
      Ok(SubscriberName(name))
  }

  /** A name of `n` copies of one character. */
  function Repeat(c: char, n: nat): (s: string)
    ensures |s| == n && forall i :: 0 <= i < n ==> s[i] == c
  {
    seq(n, _ => c)
  }

  /** The length boundary: a name of `n` letters is accepted exactly when 1 <= n <= 256, so
      255 and 256 letters pass and 257 fail. */
  lemma LetterNameBoundary(n: nat)
    ensures Parse(Repeat('a', n)).Ok? <==> 1 <= n <= MaxCharLength
  {
    var s := Repeat('a', n);
    AsciiGraphemeCount(s);
    if n >= 1 {
      assert !IsWhitespace(s[0]);
    }
  }

  /** The empty name and a name of spaces are both rejected; "Frank" is accepted. */
  lemma BlankRejected()
    ensures Parse("").Err?
    ensures Parse("  ").Err?
    ensures Parse("Frank").Ok?
  {
    var frank := "Frank";
    AsciiGraphemeCount(frank);
    assert !IsWhitespace(frank[0]);
  }
}
