/**
 * The shape of a scraped result as the backend sends it inside a `scrapedData` message:
 * pages made of titled sections made of tagged text items.
 */
module Document {

  /** One piece of text; `tag` is the HTML-like kind the backend chose ("p", "li", "pre", or anything else). */
  datatype ContentItem = ContentItem(tag: string, text: string)

  /** A titled group of items, in rendering order. */
  datatype Section = Section(title: string, content: seq<ContentItem>)

  /** The output for one crawled page. */
  datatype PageResult = PageResult(url: string, data: seq<Section>)
}
