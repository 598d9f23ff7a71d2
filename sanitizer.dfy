/**
 * The filename sanitiser of the downloader: it deletes every character of
 * the class `/ : * ? " < > |` and keeps all others, in order.
 */
module Sanitizer {

  /** The characters the sanitiser removes. */
  predicate Forbidden(c: char) {
    c == '/' || c == ':' || c == '*' || c == '?' || c == '"' || c == '<' || c == '>' || c == '|'
  }

  /** No character of `s` is forbidden. */
  predicate Clean(s: string) {
    forall i :: 0 <= i < |s| ==> !Forbidden(s[i])
  }

  /** Number of occurrences of `c` in `s`. */
  function Occurrences(s: string, c: char): nat {
    multiset(s)[c]
  }

  /** The name with every forbidden character deleted. */
  function Sanitize(name: string): (r: string)
    ensures Clean(r)
    ensures |r| <= |name|
    decreases |name|
  {
    if name == [] then []
    else
      var last := name[|name| - 1];
      Sanitize(name[..|name| - 1]) + if Forbidden(last) then [] else [last]
  }

  /** Every allowed character keeps its number of occurrences; forbidden ones disappear. */
  lemma {:induction false} SanitizeOccurrences(name: string, c: char)
    ensures Occurrences(Sanitize(name), c) == if Forbidden(c) then 0 else Occurrences(name, c)
    decreases |name|
  {
    if name != [] {
      var init, last := name[..|name| - 1], name[|name| - 1];
      SanitizeOccurrences(init, c);
      assert name == init + [last];
      assert multiset(name) == multiset(init) + multiset([last]);
      var tail := if Forbidden(last) then [] else [last];
      assert multiset(Sanitize(name)) == multiset(Sanitize(init)) + multiset(tail);
    }
  }

  /** A character survives exactly when it occurs in the input and is not forbidden. */
  lemma SanitizeMembership(name: string, c: char)
    ensures c in Sanitize(name) <==> c in name && !Forbidden(c)
  {
    SanitizeOccurrences(name, c);
    assert c in Sanitize(name) <==> multiset(Sanitize(name))[c] > 0;
    assert c in name <==> multiset(name)[c] > 0;
  }

  /** Sanitising distributes over concatenation, so the survivors keep their relative order. */
  lemma {:induction false} SanitizeConcat(a: string, b: string)
    ensures Sanitize(a + b) == Sanitize(a) + Sanitize(b)
    decreases |b|
  {
    if b == [] {
      assert a + b == a;
    } else {
      var init, last := b[..|b| - 1], b[|b| - 1];
      assert (a + b)[..|a + b| - 1] == a + init;
      assert (a + b)[|a + b| - 1] == last;
      SanitizeConcat(a, init);
    }
  }

  /** A name without forbidden characters is returned unchanged. */
  lemma {:induction false} SanitizeCleanIsIdentity(s: string)
    requires Clean(s)
    ensures Sanitize(s) == s
    decreases |s|
  {
    if s != [] {
      var init := s[..|s| - 1];
      assert Clean(init) by {
        forall i | 0 <= i < |init| ensures !Forbidden(init[i]) {
          assert init[i] == s[i];
        }
      }
      SanitizeCleanIsIdentity(init);
      assert s == init + [s[|s| - 1]];
    }
  }

  /** Sanitising twice is the same as sanitising once. */
  lemma SanitizeIdempotent(name: string)
    ensures Sanitize(Sanitize(name)) == Sanitize(name)
  {
    SanitizeCleanIsIdentity(Sanitize(name));
  }

  /** The output is as long as the input exactly when nothing was forbidden. */
  lemma {:induction false} SanitizeKeepsLengthIffClean(name: string)
    ensures |Sanitize(name)| == |name| <==> Clean(name)
    decreases |name|
  {
    if name != [] {
      var init, last := name[..|name| - 1], name[|name| - 1];
      SanitizeKeepsLengthIffClean(init);
      assert Clean(name) <==> Clean(init) && !Forbidden(last) by {
        if Clean(init) && !Forbidden(last) {
          forall i | 0 <= i < |name| ensures !Forbidden(name[i]) {
            if i < |init| { assert name[i] == init[i]; }
          }
        }
        if Clean(name) {
          forall i | 0 <= i < |init| ensures !Forbidden(init[i]) {
            assert init[i] == name[i];
          }
        }
      }
    }
  }
}
