/** Character classes and string searches shared by several source files. */
module Text {
  import opened Wrappers

  /** Rust's `char::is_ascii_alphanumeric`. */
  predicate IsAsciiAlphanumeric(c: char) {
    ('A' <= c <= 'Z') || ('a' <= c <= 'z') || ('0' <= c <= '9')
  }

  predicate IsAsciiDigit(c: char) {
    '0' <= c <= '9'
  }

  /** The index of the last occurrence of `c` in `s`, as `str::rfind` finds it. */
  function LastIndexOf(s: string, c: char): (r: Option<nat>)
    ensures r.None? <==> c !in s
    ensures r.Some? ==> r.value < |s| && s[r.value] == c && c !in s[r.value + 1..]
  {
    if s == [] then None
    else if s[|s| - 1] == c then Some(|s| - 1)
    else
      var r := LastIndexOf(s[..|s| - 1], c);
      assert s == s[..|s| - 1] + [s[|s| - 1]];
      if r.Some? then
        assert s[r.value + 1..] == s[..|s| - 1][r.value + 1..] + [s[|s| - 1]];
        r
      else r
  }

  /** If `c` occurs in `tail` only, the split point falls in `tail`. */
  lemma {:induction false} LastIndexOfAfter(head: string, c: char, tail: string)
    requires c !in tail
    requires c in head
    ensures LastIndexOf(head + tail, c).Some?
    ensures LastIndexOf(head + tail, c) == LastIndexOf(head, c)
  {
    var h := LastIndexOf(head, c);
    assert (head + tail)[h.value] == c;
  }
}
