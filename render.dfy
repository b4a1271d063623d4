/**
 * The projection of a scraped result into what the page shows: every content item
 * becomes a paragraph, a list item, a preformatted block, or React's `null`.
 */
module Render {
  import opened Wrappers
  import opened Document

  /** The three element kinds the results view produces. */
  datatype Kind = Paragraph | ListItem | Preformatted

  /** One rendered element and the text it shows. */
  datatype Node = Node(kind: Kind, text: string)

  /** A section: its heading, then one slot per content item (`None` renders nothing). */
  datatype SectionView = SectionView(title: string, nodes: seq<Option<Node>>)

  /** A page: a heading with its URL, then its sections. */
  datatype PageView = PageView(url: string, sections: seq<SectionView>)

  /** The tag that selects each kind. */
  function TagOf(k: Kind): string
  {
    match k
    case Paragraph => "p"
    case ListItem => "li"
    case Preformatted => "pre"
  }

  /** The tags the `switch` knows. */
  predicate IsKnownTag(tag: string)
  {
    tag == "p" || tag == "li" || tag == "pre"
  }

  /**
   * The `switch` on an item's tag: a known tag gives the element of that kind carrying
   * the item's text unchanged; any other tag gives `null`.
   */
  function RenderItem(item: ContentItem): (r: Option<Node>)
    ensures r.Some? <==> IsKnownTag(item.tag)
    ensures r.Some? ==> TagOf(r.value.kind) == item.tag && r.value.text == item.text
    ensures r.None? ==> forall k: Kind :: TagOf(k) != item.tag
  {
    if item.tag == "p" then Some(Node(Paragraph, item.text))
    else if item.tag == "li" then Some(Node(ListItem, item.text))
    else if item.tag == "pre" then Some(Node(Preformatted, item.text))
    else None
  }

  /** JavaScript's `Array.prototype.map`: one output per input, in the same order. */
  function MapSeq<A, B>(f: A -> B, xs: seq<A>): (r: seq<B>)
    ensures |r| == |xs|
    ensures forall i :: 0 <= i < |xs| ==> r[i] == f(xs[i])
  {
    if |xs| == 0 then [] else [f(xs[0])] + MapSeq(f, xs[1..])
  }

  /** `renderContent`: the section's items mapped one by one. */
  function RenderContent(items: seq<ContentItem>): (r: seq<Option<Node>>)
    ensures |r| == |items|
    ensures forall i :: 0 <= i < |items| ==> (r[i].Some? <==> IsKnownTag(items[i].tag))
    ensures forall i :: 0 <= i < |items| && r[i].Some? ==>
      TagOf(r[i].value.kind) == items[i].tag && r[i].value.text == items[i].text
  {
    MapSeq(RenderItem, items)
  }

  /** `renderSection`: the title as heading, then the rendered content. */
  function RenderSection(section: Section): (r: SectionView)
    ensures r.title == section.title && |r.nodes| == |section.content|
  {
    SectionView(section.title, RenderContent(section.content))
  }

  /** One page: its URL as heading, then every section in order. */
  function RenderPage(page: PageResult): (r: PageView)
    ensures r.url == page.url && |r.sections| == |page.data|
    ensures forall q :: 0 <= q < |page.data| ==> r.sections[q] == RenderSection(page.data[q])
  {
    PageView(page.url, MapSeq(RenderSection, page.data))
  }

  /** The body of the results view: one block per received page, in received order. */
  function RenderResults(result: seq<PageResult>): (r: seq<PageView>)
    ensures |r| == |result|
    ensures forall p :: 0 <= p < |result| ==> r[p].url == result[p].url && |r[p].sections| == |result[p].data|
  {
    MapSeq(RenderPage, result)
  }

  /**
   * Position i of the rendered content is the element whose tag is the item's tag,
   * carrying the item's text, and is `null` exactly when the tag is unknown.
   */
  lemma RenderContentAt(items: seq<ContentItem>, i: int)
    requires 0 <= i < |items|
    ensures var r := RenderContent(items);
      && |r| == |items|
      && (forall k: Kind :: r[i] == Some(Node(k, items[i].text)) <==> TagOf(k) == items[i].tag)
      && (r[i] == None <==> !IsKnownTag(items[i].tag))
  {
    var r := RenderContent(items);
    assert r[i] == RenderItem(items[i]);
  }

  /** Every page, section and item keeps its place, its heading and its text. */
  lemma RenderResultsShape(result: seq<PageResult>, p: int, q: int)
    requires 0 <= p < |result| && 0 <= q < |result[p].data|
    ensures var v := RenderResults(result);
      && |v| == |result|
      && v[p].url == result[p].url
      && |v[p].sections| == |result[p].data|
      && v[p].sections[q].title == result[p].data[q].title
      && v[p].sections[q].nodes == RenderContent(result[p].data[q].content)
  {
    var v := RenderResults(result);
    assert v[p] == RenderPage(result[p]);
    assert v[p].sections[q] == RenderSection(result[p].data[q]);
  }
}
