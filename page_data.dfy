/**
  The page data the soft-navigation layer moves around: the `PageData` type of the CMS
  utilities. Only the fields the layer reads are modelled; everything else a page carries
  is folded into `content`, which the layer never inspects.
 */
module PageDataModel {

  datatype Option<T> = None | Some(value: T)

  /** `seo_metadata`: every field is optional in the data the server sends. */
  datatype SeoMetadata = SeoMetadata(
    title: Option<string>,
    description: Option<string>,
    allowIndexing: Option<bool>)

  datatype PageData = PageData(lang: Option<string>, seo: Option<SeoMetadata>, content: string)

  /** JavaScript truthiness of an optional string: present and not empty. */
  predicate Present(s: Option<string>) {
    s.Some? && s.value != ""
  }

  /** `seo_metadata?.title` */
  function Title(p: PageData): Option<string> {
    if p.seo.Some? then p.seo.value.title else None
  }

  /** `seo_metadata?.description` */
  function Description(p: PageData): Option<string> {
    if p.seo.Some? then p.seo.value.description else None
  }

  /** Truthiness of `seo_metadata?.allow_indexing`. */
  predicate AllowsIndexing(p: PageData) {
    p.seo.Some? && p.seo.value.allowIndexing == Some(true)
  }
}
