/** The record an Open Graph fetch produces: six optional text fields, all absent when freshly built. */
module OgResult {
  import opened Wrappers

  /** The six fields of an `OpenGraphResult`; `null` in the source is `None` here. */
  datatype OpenGraphResult = OpenGraphResult(
    title: Option<string>,
    description: Option<string>,
    image: Option<string>,
    url: Option<string>,
    siteName: Option<string>,
    ogType: Option<string>)

  /** Names one field of the record, so that properties can be stated field by field. */
  datatype Field = Image | Description | Url | Title | SiteName | Type

  /** The value of field `f` in `r`. */
  function Get(r: OpenGraphResult, f: Field): Option<string>
  {
    match f
    case Image => r.image
    case Description => r.description
    case Url => r.url
    case Title => r.title
    case SiteName => r.siteName
    case Type => r.ogType
  }

  /** The freshly constructed result, before any tag has been read. */
  function Fresh(): (r: OpenGraphResult)
    ensures forall f :: Get(r, f).None?
  {
    OpenGraphResult(None, None, None, None, None, None)
  }

  /** Two results are equal as soon as they agree on every field. */
  lemma Extensionality(a: OpenGraphResult, b: OpenGraphResult)
    requires forall f :: Get(a, f) == Get(b, f)
    ensures a == b
  {
    assert Get(a, Title) == Get(b, Title);
    assert Get(a, Description) == Get(b, Description);
    assert Get(a, Image) == Get(b, Image);
    assert Get(a, Url) == Get(b, Url);
    assert Get(a, SiteName) == Get(b, SiteName);
    assert Get(a, Type) == Get(b, Type);
  }
}
