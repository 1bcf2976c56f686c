/**
  The metadata effect: document title, description and robots meta tags, and the `lang`
  attribute of the root element, taken from the store's current page data.
 */
module MetadataSync {
  import opened PageDataModel

  /** The parts of the document the effect writes. A meta tag is `None` when the page has no
      such tag and `Some(content)` otherwise. */
  datatype Document = Document(title: string, description: Option<string>, robots: Option<string>, lang: string)

  const IndexFollow: string := "index, follow"
  const NoIndexNoFollow: string := "noindex, nofollow"

  /** The robots directive for a page. */
  function RobotsContent(p: PageData): (r: string)
    ensures r == IndexFollow <==> AllowsIndexing(p)
    ensures r == NoIndexNoFollow <==> !AllowsIndexing(p)
  {
    if AllowsIndexing(p) then IndexFollow else NoIndexNoFollow
  }

  /** The document after the effect has run with `current` in the store. */
  function SyncedDocument(current: Option<PageData>, doc: Document): (r: Document)
    ensures current.None? ==> r == doc
    ensures r.description.Some? <==> doc.description.Some?
    ensures r.robots.Some? <==> doc.robots.Some?
    ensures current.Some? && Present(Title(current.value)) ==> r.title == Title(current.value).value
    ensures r.title != doc.title ==> current.Some? && Present(Title(current.value))
    ensures current.Some? && doc.description.Some? && Present(Description(current.value))
         ==> r.description == Description(current.value)
    ensures r.description != doc.description
         ==> current.Some? && doc.description.Some? && Present(Description(current.value))
    ensures current.Some? && doc.robots.Some? ==> r.robots == Some(RobotsContent(current.value))
    ensures current.Some? && Present(current.value.lang) ==> r.lang == current.value.lang.value
    ensures r.lang != doc.lang ==> current.Some? && Present(current.value.lang)
  {
    match current
    case None => doc
    case Some(p) =>
      Document(
        if Present(Title(p)) then Title(p).value else doc.title,
        if doc.description.Some? && Present(Description(p)) then Description(p) else doc.description,
        if doc.robots.Some? then Some(RobotsContent(p)) else doc.robots,
        if Present(p.lang) then p.lang.value else doc.lang)
  }

  /** Running the effect a second time with the same data changes nothing more. */
  lemma SyncIsIdempotent(current: Option<PageData>, doc: Document)
    ensures SyncedDocument(current, SyncedDocument(current, doc)) == SyncedDocument(current, doc)
  {
  }
}
