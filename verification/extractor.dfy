/**
 Extraction of an `OpenGraphResult` from the `og:*` meta tags of a page.
 The tags arrive already selected and in document order; each is a
 (property, content) pair, where a missing `content` attribute reads as "".
 */
module Extractor {
  import opened Wrappers
  import opened OgResult

  datatype Tag = Tag(property: string, content: string)

  const OgImage: string := "og:image"
  const OgDescription: string := "og:description"
  const OgUrl: string := "og:url"
  const OgTitle: string := "og:title"
  const OgSiteName: string := "og:site_name"
  const OgType: string := "og:type"

  /** The property value that fills field `f`. */
  function KeyName(f: Field): string
  {
    match f
    case Image => OgImage
    case Description => OgDescription
    case Url => OgUrl
    case Title => OgTitle
    case SiteName => OgSiteName
    case Type => OgType
  }

  /** Distinct fields are filled by distinct properties. */
  lemma KeyNameInjective(f: Field, g: Field)
    ensures KeyName(f) == KeyName(g) ==> f == g
  {
  }

  /** Tag `t` targets field `f`. */
  ghost predicate Names(t: Tag, f: Field)
  {
    t.property == KeyName(f)
  }

  /** Whether a property is one of the six the parser dispatches on. */
  function IsKnownKey(property: string): (b: bool)
    ensures b <==> exists f :: KeyName(f) == property
  {
    if property == OgImage then assert KeyName(Image) == property; true
    else if property == OgDescription then assert KeyName(Description) == property; true
    else if property == OgUrl then assert KeyName(Url) == property; true
    else if property == OgTitle then assert KeyName(Title) == property; true
    else if property == OgSiteName then assert KeyName(SiteName) == property; true
    else if property == OgType then assert KeyName(Type) == property; true
    else false
  }

  /** One step of the tag loop: a known property overwrites its field with the tag's content. */
  function Apply(r: OpenGraphResult, t: Tag): (r': OpenGraphResult)
    ensures forall f :: Get(r', f) == if Names(t, f) then Some(t.content) else Get(r, f)
    ensures !IsKnownKey(t.property) ==> r' == r
  {
    var c := Some(t.content);
    if t.property == OgImage then r.(image := c)
    else if t.property == OgDescription then r.(description := c)
    else if t.property == OgUrl then r.(url := c)
    else if t.property == OgTitle then r.(title := c)
    else if t.property == OgSiteName then r.(siteName := c)
    else if t.property == OgType then r.(ogType := c)
    else r
  }

  /** No tag of `tags` targets field `f`. */
  ghost predicate NoTagFor(tags: seq<Tag>, f: Field)
  {
    forall i | 0 <= i < |tags| :: !Names(tags[i], f)
  }

  /** `tags[i]` is the last tag of `tags` that targets field `f`. */
  ghost predicate IsLastFor(tags: seq<Tag>, f: Field, i: int)
  {
    && 0 <= i < |tags|
    && Names(tags[i], f)
    && forall j | i < j < |tags| :: !Names(tags[j], f)
  }

  /** A field that some tag targets has a last such tag. */
  lemma {:induction false} LastTagExists(tags: seq<Tag>, f: Field)
    requires !NoTagFor(tags, f)
    ensures exists i :: IsLastFor(tags, f, i)
  {
    var n := |tags| - 1;
    if Names(tags[n], f) {
      assert IsLastFor(tags, f, n);
    } else {
      var front := tags[..n];
      var k :| 0 <= k < |tags| && Names(tags[k], f);
      assert front[k] == tags[k];
      LastTagExists(front, f);
      var i :| IsLastFor(front, f, i);
      assert IsLastFor(tags, f, i);
    }
  }

  /**
   The tag loop, started from `r`: each field ends up holding the content of
   the last tag that targets it, or keeps its value from `r` when none does.
   */
  function Fold(r: OpenGraphResult, tags: seq<Tag>): (r': OpenGraphResult)
    ensures forall f | NoTagFor(tags, f) :: Get(r', f) == Get(r, f)
    ensures forall f, i | IsLastFor(tags, f, i) :: Get(r', f) == Some(tags[i].content)
    decreases |tags|
  {
    if |tags| == 0 then r
    else
      var rest := tags[1..];
      assert forall f, i | IsLastFor(tags, f, i) && 0 < i :: IsLastFor(rest, f, i - 1);
      assert forall f | IsLastFor(tags, f, 0) :: NoTagFor(rest, f);
      Fold(Apply(r, tags[0]), rest)
  }

  /** The result read from a page's tags: the tag loop over a fresh result. */
  function Extract(tags: seq<Tag>): (r: OpenGraphResult)
    ensures forall f :: Get(r, f).None? <==> NoTagFor(tags, f)
    ensures forall f, i | IsLastFor(tags, f, i) :: Get(r, f) == Some(tags[i].content)
  {
    var r := Fold(Fresh(), tags);
    assert forall f | !NoTagFor(tags, f) :: Get(r, f).Some? by {
      forall f | !NoTagFor(tags, f)
        ensures Get(r, f).Some?
      {
        LastTagExists(tags, f);
      }
    }
    r
  }

  /** Running the loop over `xs + ys` is running it over `xs`, then over `ys`. */
  lemma {:induction false} FoldAppend(r: OpenGraphResult, xs: seq<Tag>, ys: seq<Tag>)
    ensures Fold(r, xs + ys) == Fold(Fold(r, xs), ys)
    decreases |xs|
  {
    if |xs| == 0 {
      assert xs + ys == ys;
    } else {
      assert (xs + ys)[1..] == xs[1..] + ys;
      FoldAppend(Apply(r, xs[0]), xs[1..], ys);
    }
  }

  /** The loop treats each field on its own: a field's final value depends only on its start value. */
  lemma FoldFieldwise(x: OpenGraphResult, y: OpenGraphResult, tags: seq<Tag>, f: Field)
    requires Get(x, f) == Get(y, f)
    ensures Get(Fold(x, tags), f) == Get(Fold(y, tags), f)
  {
    if !NoTagFor(tags, f) {
      LastTagExists(tags, f);
    }
  }

  /** A page without tags yields the fresh result. */
  lemma NoTagsGiveFresh()
    ensures Extract([]) == Fresh()
  {
    Extensionality(Extract([]), Fresh());
  }

  /** A tag whose property is not one of the six known keys can be removed without effect. */
  lemma UnknownTagIgnored(pre: seq<Tag>, t: Tag, post: seq<Tag>)
    requires !IsKnownKey(t.property)
    ensures Extract(pre + [t] + post) == Extract(pre + post)
  {
    var q := Fold(Fresh(), pre);
    FoldAppend(Fresh(), pre + [t], post);
    FoldAppend(Fresh(), pre, [t]);
    FoldAppend(Fresh(), pre, post);
    assert Fold(q, [t]) == Fold(Apply(q, t), []);
  }

  /**
   Last write wins: a tag followed, later in the page, by another tag with the
   same property can be removed without effect.
   */
  lemma ShadowedTagIgnored(pre: seq<Tag>, a: Tag, mid: seq<Tag>, b: Tag, post: seq<Tag>)
    requires a.property == b.property
    ensures Extract(pre + [a] + mid + [b] + post) == Extract(pre + mid + [b] + post)
  {
    var q := Fold(Fresh(), pre);
    var x := Fold(Apply(q, a), mid);
    var y := Fold(q, mid);
    forall f
      ensures Get(Apply(x, b), f) == Get(Apply(y, b), f)
    {
      if !Names(b, f) {
        FoldFieldwise(Apply(q, a), q, mid, f);
      }
    }
    Extensionality(Apply(x, b), Apply(y, b));
    calc {
      Extract(pre + [a] + mid + [b] + post);
      { assert pre + [a] + mid + [b] + post == pre + ([a] + mid + [b]) + post;
        FoldAppend(Fresh(), pre + ([a] + mid + [b]), post);
        FoldAppend(Fresh(), pre, [a] + mid + [b]); }
      Fold(Fold(q, [a] + mid + [b]), post);
      { assert ([a] + mid + [b])[1..] == mid + [b];
        FoldAppend(Apply(q, a), mid, [b]); }
      Fold(Apply(Fold(Apply(q, a), mid), b), post);
      Fold(Apply(Fold(q, mid), b), post);
      { FoldAppend(q, mid, [b]); }
      Fold(Fold(q, mid + [b]), post);
      { assert pre + mid + [b] + post == pre + (mid + [b]) + post;
        FoldAppend(Fresh(), pre + (mid + [b]), post);
        FoldAppend(Fresh(), pre, mid + [b]); }
      Extract(pre + mid + [b] + post);
    }
  }

  /** The tags of `tags` whose property is a known key, in order. */
  function KnownOnly(tags: seq<Tag>): (known: seq<Tag>)
    ensures forall t | t in known :: IsKnownKey(t.property)
    ensures forall t | t in tags && IsKnownKey(t.property) :: t in known
    ensures |known| <= |tags|
  {
    if |tags| == 0 then []
    else if IsKnownKey(tags[0].property) then [tags[0]] + KnownOnly(tags[1..])
    else KnownOnly(tags[1..])
  }

  /** The selection of `og:` tags is irrelevant beyond keeping the six known keys. */
  lemma {:induction false} KnownOnlyPreserves(r: OpenGraphResult, tags: seq<Tag>)
    ensures Fold(r, KnownOnly(tags)) == Fold(r, tags)
    decreases |tags|
  {
    if |tags| > 0 {
      KnownOnlyPreserves(Apply(r, tags[0]), tags[1..]);
      if IsKnownKey(tags[0].property) {
        assert ([tags[0]] + KnownOnly(tags[1..]))[1..] == KnownOnly(tags[1..]);
      }
    }
  }

  /** Example page: title, description and image tags fill exactly those three fields. */
  lemma ThreeTagExample()
    ensures Extract([Tag(OgTitle, "A"), Tag(OgDescription, "B"), Tag(OgImage, "C.png")])
            == OpenGraphResult(Some("A"), Some("B"), Some("C.png"), None, None, None)
  {
    var tags := [Tag(OgTitle, "A"), Tag(OgDescription, "B"), Tag(OgImage, "C.png")];
    var expected := OpenGraphResult(Some("A"), Some("B"), Some("C.png"), None, None, None);
    assert IsLastFor(tags, Title, 0);
    assert IsLastFor(tags, Description, 1);
    assert IsLastFor(tags, Image, 2);
    assert NoTagFor(tags, Url) && NoTagFor(tags, SiteName) && NoTagFor(tags, Type);
    Extensionality(Extract(tags), expected);
  }

  /** Example page: of two title tags the later one is kept. */
  lemma RepeatedTitleExample()
    ensures Extract([Tag(OgTitle, "A"), Tag(OgTitle, "B")]).title == Some("B")
  {
    assert IsLastFor([Tag(OgTitle, "A"), Tag(OgTitle, "B")], Title, 1);
  }
}
