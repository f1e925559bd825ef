/** The tag extraction of the scraped quote page (src/robot/finviz.py,
    `get_tags`), from the point where the page has been fetched and parsed.

    The HTTP fetch, the HTML parse and the CSS selection are outside the model;
    what they yield is the input here: `None` when `.quote-links div` selects
    nothing, otherwise the anchors `select("a")` finds inside it, in document
    order. */
module Finviz {
  import opened Wrappers

  const FINVIZ_BASE_URL: string := "https://finviz.com/"

  const CONTAINER_NOT_FOUND: string := "Tags container not found"
  const TAGS_NOT_FOUND: string := "Tags not found"

  /** An `<a>` element: its text and its `href` attribute, absent when the
      element has none (`tag.get("href")` is then `None`). */
  datatype Anchor = Anchor(text: string, href: Option<string>)

  /** One row of the returned table: the `Name` and `Link` columns. */
  datatype TagRow = TagRow(name: string, link: string)

  /** The table of tags, or the `ElementNotFoundError` and its message. */
  datatype TagsResult =
    | Tags(rows: seq<TagRow>)
    | ElementNotFoundError(message: string)

  /** What an f-string renders for the attribute: the text itself, or "None". */
  function HrefText(href: Option<string>): (s: string)
    ensures href.Some? ==> s == href.value
    ensures href.None? ==> s == "None"
  {
    match href
    case Some(h) => h
    case None => "None"
  }

  /** The row built from one anchor. */
  function RowOf(a: Anchor): (row: TagRow)
    ensures row.name == a.text
    ensures |row.link| >= |FINVIZ_BASE_URL| && row.link[..|FINVIZ_BASE_URL|] == FINVIZ_BASE_URL
    ensures row.link[|FINVIZ_BASE_URL|..] == HrefText(a.href)
  {
    TagRow(a.text, FINVIZ_BASE_URL + HrefText(a.href))
  }

  /** The list comprehension: one row per anchor, in anchor order. */
  function Rows(anchors: seq<Anchor>): (rows: seq<TagRow>)
    ensures |rows| == |anchors|
    ensures forall i :: 0 <= i < |anchors| ==> rows[i] == RowOf(anchors[i])
  {
    if anchors == [] then [] else [RowOf(anchors[0])] + Rows(anchors[1..])
  }

  /** `get_tags` after the parse: the container check, then the anchor check,
      then the rows. */
  function GetTags(container: Option<seq<Anchor>>): (r: TagsResult)
    ensures container.None? <==> r == ElementNotFoundError(CONTAINER_NOT_FOUND)
    ensures container == Some([]) <==> r == ElementNotFoundError(TAGS_NOT_FOUND)
    ensures r.Tags? <==> container.Some? && container.value != []
    ensures r.Tags? ==> |r.rows| == |container.value| >= 1
  {
    match container
    case None => ElementNotFoundError(CONTAINER_NOT_FOUND)
    case Some(anchors) =>
      if |anchors| == 0 then ElementNotFoundError(TAGS_NOT_FOUND)
      else Tags(Rows(anchors))
  }

  /** Two anchors give the same row exactly when they have the same text and
      their `href`s render the same; in particular an anchor without an `href`
      cannot be told apart from one whose `href` is the literal "None". */
  lemma SameRowIff(a: Anchor, b: Anchor)
    ensures RowOf(a) == RowOf(b) <==> a.text == b.text && HrefText(a.href) == HrefText(b.href)
    ensures a.text == b.text && a.href == None && b.href == Some("None") ==> RowOf(a) == RowOf(b)
  {
  }

  /** Rows commute with concatenation of anchor lists. */
  lemma RowsAppend(a: seq<Anchor>, b: seq<Anchor>)
    ensures Rows(a + b) == Rows(a) + Rows(b)
  {
  }

  /** The rows of a prefix of the anchors are the same prefix of the rows. */
  lemma RowsPrefix(anchors: seq<Anchor>, k: nat)
    requires k <= |anchors|
    ensures Rows(anchors[..k]) == Rows(anchors)[..k]
  {
  }

  /** On success, the i-th row is built from the i-th anchor: the name is its
      text unchanged and the link is the base URL followed by its `href`, so
      every link starts with "https://finviz.com/" and what follows it is the
      rendered `href`. */
  lemma TagsFollowAnchors(anchors: seq<Anchor>, i: nat)
    requires |anchors| >= 1 && i < |anchors|
    ensures GetTags(Some(anchors)).Tags?
    ensures var row := GetTags(Some(anchors)).rows[i];
      && row.name == anchors[i].text
      && row.link == FINVIZ_BASE_URL + HrefText(anchors[i].href)
      && row.link[..19] == "https://finviz.com/"
      && row.link[19..] == HrefText(anchors[i].href)
  {
  }

  /** The container check comes first: a missing container never reports
      "Tags not found", and the two failures carry different messages. */
  lemma ContainerCheckFirst(container: Option<seq<Anchor>>)
    ensures GetTags(container).ElementNotFoundError? ==>
      (GetTags(container).message == CONTAINER_NOT_FOUND <==> container.None?)
    ensures CONTAINER_NOT_FOUND != TAGS_NOT_FOUND
  {
  }
}
