/** The scheme rule applied to a raw URL before it is looked up or fetched. */
module UrlNormalizer {

  /** The substring whose presence marks a URL as already carrying a scheme. */
  const Http: string := "http"

  /** What is put in front of a URL that lacks `Http`. */
  const DefaultScheme: string := "http://"

  /** `pat` occurs in `s` starting at index `i`. */
  ghost predicate OccursAt(s: string, pat: string, i: int)
  {
    0 <= i && i + |pat| <= |s| && s[i..i + |pat|] == pat
  }

  /** Reference meaning of substring containment. */
  ghost predicate Occurs(s: string, pat: string)
  {
    exists i :: OccursAt(s, pat, i)
  }

  /** When `pat` is not at the front of `s`, it occurs in `s` exactly when it occurs in `s[1..]`. */
  lemma OccursInTail(s: string, pat: string)
    requires |pat| <= |s|
    requires s[..|pat|] != pat
    ensures Occurs(s, pat) <==> Occurs(s[1..], pat)
  {
    if Occurs(s, pat) {
      var i :| OccursAt(s, pat, i);
      assert i != 0;
      assert s[1..][i - 1..i - 1 + |pat|] == s[i..i + |pat|];
      assert OccursAt(s[1..], pat, i - 1);
    }
    if Occurs(s[1..], pat) {
      var i :| OccursAt(s[1..], pat, i);
      assert s[1..][i..i + |pat|] == s[i + 1..i + 1 + |pat|];
      assert OccursAt(s, pat, i + 1);
    }
  }

  /** Kotlin's case-sensitive `CharSequence.contains`: a left-to-right search for `pat` in `s`. */
  function Contains(s: string, pat: string): (b: bool)
    ensures b <==> Occurs(s, pat)
    decreases |s|
  {
    if |s| < |pat| then false
    else if s[..|pat|] == pat then assert OccursAt(s, pat, 0); true
    else OccursInTail(s, pat); Contains(s[1..], pat)
  }

  /** The URL the parser looks up and fetches for a raw input. */
  function Normalize(raw: string): (u: string)
    ensures Occurs(u, Http)
    ensures Occurs(raw, Http) ==> u == raw
    ensures !Occurs(raw, Http) ==> u == DefaultScheme + raw
  {
    if !Contains(raw, Http) then
      assert OccursAt(DefaultScheme + raw, Http, 0);
      DefaultScheme + raw
    else
      raw
  }

  /** Normalising twice is normalising once. */
  lemma NormalizeIdempotent(raw: string)
    ensures Normalize(Normalize(raw)) == Normalize(raw)
  {
  }
}
