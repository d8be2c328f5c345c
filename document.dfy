/** The fetched page as the checkers see it once `requests` and BeautifulSoup
    have done their work: the raw markup, the document text, and every element
    in document order. */
module Document {
  import opened Wrappers
  import opened Collections

  /** A tag: its name, its attributes, `get_text(strip=True)` and `.string`
      (the single string it holds, if it holds exactly one). */
  datatype Element = Element(
    tag: string,
    attrs: map<string, string>,
    text: string,
    soleString: Option<string>)

  /** `resp.text`, `soup.get_text(separator=" ")` and `soup.find_all()`. */
  datatype Page = Page(html: string, text: string, elements: seq<Element>)

  /** The HTTP GET and parse of a normalized address; `Err` carries the text
      of the exception the HTTP request or the parser raised (network error,
      timeout, unparsable response). */
  type Fetcher = string -> Result<Page>

  /** `el.get(name)` */
  function Get(e: Element, name: string): Option<string> {
    if name in e.attrs then Some(e.attrs[name]) else None
  }

  /** Python truthiness of an attribute lookup: present and non-empty. */
  predicate Truthy(v: Option<string>) {
    v.Some? && v.value != ""
  }

  /** `soup.find_all(tag)` */
  function Tagged(els: seq<Element>, tag: string): seq<Element> {
    Filter(els, (e: Element) => e.tag == tag)
  }

  /** `soup.find_all(attrs={name: True})` */
  function HavingAttr(els: seq<Element>, name: string): seq<Element> {
    Filter(els, (e: Element) => name in e.attrs)
  }

  /** `soup.find(tag)`: the first element with that tag. */
  function First(els: seq<Element>, tag: string): (r: Option<Element>)
    ensures r.Some? ==> r.value in els && r.value.tag == tag
    ensures r.None? ==> forall i :: 0 <= i < |els| ==> els[i].tag != tag
  {
    if els == [] then None else if els[0].tag == tag then Some(els[0]) else First(els[1..], tag)
  }
}
