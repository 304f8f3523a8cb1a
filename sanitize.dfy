/** The filename sanitiser `FILE_LEGAL.sub("_", s)` with
    `FILE_LEGAL = re.compile(r"[^\w_. -]")`: every character that is not a
    word character, `_`, `.`, space or `-` is replaced by one `_`. */
module Sanitizer {

  /** Python's `\w`, restricted to its ASCII part: letters, digits and `_`. */
  predicate IsWordChar(c: char) {
    ('a' <= c <= 'z') || ('A' <= c <= 'Z') || ('0' <= c <= '9') || c == '_'
  }

  /** The characters the pattern `[^\w_. -]` does not match. */
  predicate IsLegal(c: char) {
    IsWordChar(c) || c == '_' || c == '.' || c == ' ' || c == '-'
  }

  predicate AllLegal(s: string) {
    forall i :: 0 <= i < |s| ==> IsLegal(s[i])
  }

  /** `FILE_LEGAL.sub("_", s)`: the pattern matches one character at a time,
      so each match is exactly one illegal character. */
  function Sanitize(s: string): (r: string)
    ensures |r| == |s|
    ensures AllLegal(r)
  {
    if s == [] then []
    else [if IsLegal(s[0]) then s[0] else '_'] + Sanitize(s[1..])
  }

  /** Position by position: a legal character is kept, an illegal one
      becomes exactly one `_`. */
  lemma {:induction false} SanitizeAt(s: string, i: nat)
    requires i < |s|
    ensures Sanitize(s)[i] == if IsLegal(s[i]) then s[i] else '_'
  {
    if i > 0 {
      SanitizeAt(s[1..], i - 1);
    }
  }

  /** The sanitiser changes a string exactly when it holds an illegal character. */
  lemma SanitizeFixesExactlyLegal(s: string)
    ensures Sanitize(s) == s <==> AllLegal(s)
  {
    if AllLegal(s) {
      forall i | 0 <= i < |s| ensures Sanitize(s)[i] == s[i] {
        SanitizeAt(s, i);
      }
    }
  }

  /** Sanitising twice is sanitising once. */
  lemma SanitizeIdempotent(s: string)
    ensures Sanitize(Sanitize(s)) == Sanitize(s)
  {
    SanitizeFixesExactlyLegal(Sanitize(s));
  }

  /** Characters are replaced independently of their neighbours. */
  lemma {:induction false} SanitizeConcat(a: string, b: string)
    ensures Sanitize(a + b) == Sanitize(a) + Sanitize(b)
  {
    if a != [] {
      assert (a + b)[0] == a[0] && (a + b)[1..] == a[1..] + b;
      SanitizeConcat(a[1..], b);
      calc {
        Sanitize(a + b);
        [if IsLegal(a[0]) then a[0] else '_'] + Sanitize(a[1..] + b);
        [if IsLegal(a[0]) then a[0] else '_'] + (Sanitize(a[1..]) + Sanitize(b));
      }
    } else {
      assert a + b == b;
    }
  }

  /** A sanitised name never holds a path separator, so it is always one
      path component; "." and ".." pass through unchanged. */
  lemma SanitizedIsOneComponent(s: string)
    ensures '/' !in Sanitize(s)
    ensures Sanitize(".") == "." && Sanitize("..") == ".."
  {
    SanitizeFixesExactlyLegal(".");
    SanitizeFixesExactlyLegal("..");
  }
}
