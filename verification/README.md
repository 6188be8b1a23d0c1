# OpenGraphParser — a Dafny model of the fetch-and-extract pipeline

This project models the core of the Kotlin library `OpenGraphParser`: one call
of `parse(url)`, which normalises the URL, answers from an optional cache,
otherwise fetches the page, reads its Open Graph (`og:*`) meta tags into an
`OpenGraphResult`, applies the opt-in empty-result policy, stores the result
and notifies the caller through `onPostResponse` or `onError`.

Modules, following the pipeline:

- `Wrappers` — `Option`, standing for Kotlin's nullable values.
- `OgResult` — the six-field `OpenGraphResult` record, a `Field` name for each
  field, and the freshly constructed (all-absent) result.
- `UrlNormalizer` — Kotlin's case-sensitive `contains`, proved equal to a
  reference definition of substring occurrence, and the `"http://"` rule.
- `Extractor` — the `OG_*` keys and the tag loop as a left fold over
  `(property, content)` pairs; the fold is characterised by "each field holds
  the content of the last tag naming it, and is absent if none does".
- `EmptyPolicy` — the `showNullOnEmpty` test, written with Kotlin's null-safe
  operators and proved equal to "both title and description present and `""`
  or `"null"`".
- `OpenGraphParser` — `fetchContent` as a total function of the cache, the
  flag, the raw URL and the network, and `parse` as the list of callbacks it
  delivers, with the cache-hit, failure, rejection and success paths, the
  cache round trip and a cache invariant proved.

The network is a parameter: a total function from URL to `Failed(message)` or
`Fetched(tags)`. Each run records which URL it requested (none on a cache
hit), so "no network access" is a stated property. The cache is
`Option<map<string, OpenGraphResult>>`, `None` when no Android context was
given.

Where a description of the library and its code disagree, the model follows
the code:

- An absent (null) title or description never triggers the empty-result
  policy. Kotlin's `null?.isEmpty() == true` is false and `null.equals("null")`
  is false. Only a present `""` or the text `"null"` counts.
- No source-URL attribute is attached to the result. Its `url` field is filled
  only from an `og:url` tag.

## Model

| member | source | states |
|---|---|---|
| OgResult.Fresh | OGParser/src/main/java/com/kedia/ogparser/OpenGraphParser.kt:61 | the result each fetch starts from has every field absent |
| UrlNormalizer.Contains | OGParser/src/main/java/com/kedia/ogparser/OpenGraphParser.kt:55 | the left-to-right search answers true exactly when the pattern occurs at some index of the string |
| UrlNormalizer.Normalize | OGParser/src/main/java/com/kedia/ogparser/OpenGraphParser.kt:55-57 | an input without "http" becomes "http://" + input; an input with "http" is returned unchanged; the output always contains "http" |
| UrlNormalizer.NormalizeIdempotent | OGParser/src/main/java/com/kedia/ogparser/OpenGraphParser.kt:55-57 | normalising a normalised URL changes nothing |
| Extractor.KeyNameInjective | OGParser/src/main/java/com/kedia/ogparser/OpenGraphParser.kt:25-30 | the six `og:` keys are pairwise distinct, so each property fills at most one field |
| Extractor.IsKnownKey | OGParser/src/main/java/com/kedia/ogparser/OpenGraphParser.kt:80-99 | a property is dispatched on exactly when it equals the key of some field |
| Extractor.Apply | OGParser/src/main/java/com/kedia/ogparser/OpenGraphParser.kt:77-99 | a tag with a known property sets exactly the matching field to its content; every other field keeps its value; an unknown property changes nothing |
| Extractor.Fold | OGParser/src/main/java/com/kedia/ogparser/OpenGraphParser.kt:74-101 | after the loop, a field no tag names keeps its start value, and a named field holds the content of the last tag naming it |
| Extractor.Extract | OGParser/src/main/java/com/kedia/ogparser/OpenGraphParser.kt:61-101 | a field of the result is absent exactly when no tag names it; otherwise it holds the content of the last tag naming it |
| Extractor.FoldFieldwise | OGParser/src/main/java/com/kedia/ogparser/OpenGraphParser.kt:80-99 | the loop treats fields independently: a field's final value depends only on its start value and the tags |
| Extractor.NoTagsGiveFresh | OGParser/src/main/java/com/kedia/ogparser/OpenGraphParser.kt:74-75 | an empty tag list yields the fresh result |
| Extractor.UnknownTagIgnored | OGParser/src/main/java/com/kedia/ogparser/OpenGraphParser.kt:80-99 | inserting a tag with an unknown property anywhere does not change the result |
| Extractor.ShadowedTagIgnored | OGParser/src/main/java/com/kedia/ogparser/OpenGraphParser.kt:76-100 | last write wins: a tag followed later by a tag with the same property can be removed without effect |
| Extractor.KnownOnlyPreserves | OGParser/src/main/java/com/kedia/ogparser/OpenGraphParser.kt:73-99 | keeping only tags with one of the six keys gives the same result, so the `og:` selector matters only in that it keeps them |
| Extractor.ThreeTagExample | OGParser/src/main/java/com/kedia/ogparser/OpenGraphParser.kt:76-100 | title "A", description "B", image "C.png" give exactly those three fields, the rest absent |
| Extractor.RepeatedTitleExample | OGParser/src/main/java/com/kedia/ogparser/OpenGraphParser.kt:90-92 | of two title tags "A" then "B", the title is "B" |
| EmptyPolicy.LooksEmpty | OGParser/src/main/java/com/kedia/ogparser/OpenGraphParser.kt:110 | the null-safe field test holds exactly for a present "" or "null"; never for an absent field |
| EmptyPolicy.RejectsAsEmpty | OGParser/src/main/java/com/kedia/ogparser/OpenGraphParser.kt:110 | rejection happens exactly when the flag is on and title and description are both present and "" or "null"; an absent one prevents it |
| EmptyPolicy.FreshNeverRejected | OGParser/src/main/java/com/kedia/ogparser/OpenGraphParser.kt:110 | the all-absent result is never rejected, whatever the flag |
| OpenGraphParser.Store | OGParser/src/main/java/com/kedia/ogparser/OpenGraphParser.kt:116 | with a cache, the URL then maps to the result, one key at most is added, other entries are unchanged; without one nothing is stored |
| OpenGraphParser.FetchContent | OGParser/src/main/java/com/kedia/ogparser/OpenGraphParser.kt:54-118 | it returns a result exactly when it launched no error callback, and launches at most one; it makes a request exactly on a cache miss, and for the normalised URL; a run that returns nothing leaves the cache alone |
| OpenGraphParser.Parse | OGParser/src/main/java/com/kedia/ogparser/OpenGraphParser.kt:34-51 | exactly one callback fires; an error implies a cache miss and an unchanged cache; only the normalised URL's entry may change; on success with a cache, that entry is the delivered result |
| OpenGraphParser.CacheHitShortCircuit | OGParser/src/main/java/com/kedia/ogparser/OpenGraphParser.kt:58-60 | on a hit the stored result is delivered, no request is made, the cache is unchanged, and the network's answer is irrelevant |
| OpenGraphParser.NoCacheAlwaysFetches | OGParser/src/main/java/com/kedia/ogparser/OpenGraphParser.kt:58 | with no cache (no context, line 15) every call requests the normalised URL and no cache appears |
| OpenGraphParser.FetchFailureReported | OGParser/src/main/java/com/kedia/ogparser/OpenGraphParser.kt:102-108 | a failed request delivers one error carrying its message and leaves the cache unchanged |
| OpenGraphParser.FetchedPageOutcome | OGParser/src/main/java/com/kedia/ogparser/OpenGraphParser.kt:110-117 | after a fetched page the fixed empty-response error fires iff the flag is on and title and description are present and "" or "null", with the cache unchanged; otherwise the extracted result is delivered and stored |
| OpenGraphParser.NoTagsIsSuccess | OGParser/src/main/java/com/kedia/ogparser/OpenGraphParser.kt:74-117 | a page with no `og:` tags is delivered as a success with the fresh result, even with the flag on |
| OpenGraphParser.CacheRoundTrip | OGParser/src/main/java/com/kedia/ogparser/OpenGraphParser.kt:58-116 | after a successful call, calling again with the updated cache delivers the same result with no request, whatever the network does |
| OpenGraphParser.NormalizedInputParsedAlike | OGParser/src/main/java/com/kedia/ogparser/OpenGraphParser.kt:55-58 | parsing a URL and parsing its normal form are indistinguishable |
| OpenGraphParser.ParseKeepsCacheWellFormed | OGParser/src/main/java/com/kedia/ogparser/OpenGraphParser.kt:110-116 | if every cache key is normalised and every stored result passes the policy, that stays so, and every success delivered passes the policy |

## Left out

- The HTTP request and its settings (user agent "Mozilla", Google referrer, 10000 ms timeout, redirects, any content type, lines 63-69): network I/O through Jsoup. Only its outcome is modelled, as a `Response` chosen by the `Network` parameter.
- HTML parsing and the `meta[property^=og:]` selector (lines 71-73): library behaviour. Tags arrive as `(property, content)` pairs in document order. A missing `content` attribute reads as `""`, as Jsoup's `attr` returns. `Extractor.KnownOnlyPreserves` shows that the result does not depend on the selector beyond keeping the six keys.
- Coroutines, dispatchers and `launch` (lines 39-52, 54, 104, 111): threading only. Delivery is the returned list of callbacks, so ordering between concurrent calls is not modelled.
- The shared mutable fields `url` and `openGraphResult` (lines 17, 32, 35, 56, 61): each call is a pure function with its own fresh result. Races between concurrent calls on these fields are not modelled.
- `SharedPrefs` and `OpenGraphResult` are not part of this model. The cache is an abstract map whose `get` returns exactly what `set` stored. The result is assumed to have six nullable fields that start as null.
- `e.printStackTrace()` (line 103): diagnostic output only.
- Failure messages: `e.localizedMessage` may be null in Kotlin; the model carries the message as a plain string.
- The demo activity `MainActivity.kt`: UI code only, with no logic of its own.
