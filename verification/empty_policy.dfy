/**
 The opt-in rule that refuses a result whose title and description both look
 empty. The test is written with Kotlin's null-safe operators, so an absent
 (null) field never looks empty; only "" or the literal text "null" does.
 */
module EmptyPolicy {
  import opened Wrappers
  import opened OgResult

  /** Kotlin `s?.isEmpty()`: null when `s` is null, otherwise whether `s` is "". */
  function SafeIsEmpty(s: Option<string>): Option<bool>
  {
    match s
    case None => None
    case Some(text) => Some(|text| == 0)
  }

  /** Kotlin `String?.equals(other: String?)`: true when both are null or both hold the same text. */
  function NullableEquals(a: Option<string>, b: Option<string>): bool
  {
    match (a, b)
    case (None, None) => true
    case (Some(x), Some(y)) => x == y
    case _ => false
  }

  /** `s?.isEmpty() == true || s.equals("null")`, the per-field test of the policy. */
  function LooksEmpty(s: Option<string>): (b: bool)
    ensures b <==> s.Some? && (s.value == "" || s.value == "null")
    ensures s.None? ==> !b
  {
    SafeIsEmpty(s) == Some(true) || NullableEquals(s, Some("null"))
  }

  /** Whether a fetched result is refused with the fixed empty-response message. */
  function RejectsAsEmpty(r: OpenGraphResult, showNullOnEmpty: bool): (reject: bool)
    ensures reject <==>
      && showNullOnEmpty
      && r.title.Some? && r.title.value in {"", "null"}
      && r.description.Some? && r.description.value in {"", "null"}
    ensures r.title.None? || r.description.None? ==> !reject
  {
    LooksEmpty(r.title) && LooksEmpty(r.description) && showNullOnEmpty
  }

  /** The fresh result, with every field absent, is never refused, whatever the flag. */
  lemma FreshNeverRejected(showNullOnEmpty: bool)
    ensures !RejectsAsEmpty(Fresh(), showNullOnEmpty)
  {
  }
}
