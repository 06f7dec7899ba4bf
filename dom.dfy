/**
 * Parsed pages, seen through the BeautifulSoup queries the scrapers make.
 *
 * A document is not a tree here: it is the answers the code's selector calls
 * would give on it (`select`, `find`, `find_all`, `find_next_sibling`), in
 * document order. A node's text is the ordered list of its text fragments.
 */
module Dom {
  import opened Results
  import opened Text

  /** The text strings under one node, in document order. */
  type Fragments = seq<string>

  /** `node.text` / `node.get_text()`: the fragments run together. */
  function GetText(f: Fragments): string {
    if f == [] then [] else GetText(f[..|f| - 1]) + f[|f| - 1]
  }

  /** `node.get_text(strip=True)`: every fragment stripped, then run together. */
  function GetTextStripped(f: Fragments): string {
    if f == [] then [] else GetTextStripped(f[..|f| - 1]) + Strip(f[|f| - 1])
  }

  /** The text of two runs of fragments, one after the other, is their texts run together. */
  lemma {:induction false} GetTextAppend(f: Fragments, g: Fragments)
    ensures GetText(f + g) == GetText(f) + GetText(g)
    decreases |g|
  {
    if g == [] {
      assert f + g == f;
    } else {
      var init := g[..|g| - 1];
      GetTextAppend(f, init);
      assert (f + g)[..|f + g| - 1] == f + init;
    }
  }

  /**
   * `get_text(strip=True)` is `.get_text()` of the fragments each stripped
   * first: it strips every text string, not the text as a whole.
   */
  lemma {:induction false} StrippedTextStripsEachFragment(f: Fragments)
    ensures GetTextStripped(f) == GetText(seq(|f|, i requires 0 <= i < |f| => Strip(f[i])))
  {
    if f != [] {
      var init := f[..|f| - 1];
      StrippedTextStripsEachFragment(init);
      var stripped := seq(|f|, i requires 0 <= i < |f| => Strip(f[i]));
      assert stripped[..|f| - 1] == seq(|init|, i requires 0 <= i < |init| => Strip(init[i]));
    }
  }

  /** `[str(n.get_text().strip()) for n in nodes]`. */
  function StrippedTexts(nodes: seq<Fragments>): (r: seq<string>)
    ensures |r| == |nodes|
    ensures forall i :: 0 <= i < |nodes| ==> r[i] == Strip(GetText(nodes[i]))
  {
    seq(|nodes|, i requires 0 <= i < |nodes| => Strip(GetText(nodes[i])))
  }

  /**
   * One job item of a listing page: a `li` card or an `a` posting anchor.
   * `attrs` are its HTML attributes; `cardText` answers
   * `find("div", class_="job-card__text")` and `positionTitle` answers
   * `find("h3", class_="posting-title__position")` inside it.
   */
  datatype Item = Item(
    attrs: map<string, string>,
    cardText: Option<Fragments>,
    positionTitle: Option<Fragments>)

  /** `item[name]` when `item.has_attr(name)`, else `None`. */
  function Attr(item: Item, name: string): Option<string> {
    if name in item.attrs then Some(item.attrs[name]) else None
  }

  /** The `nfj-read-more` element after a heading; `div` answers its `.div`. */
  datatype ReadMore = ReadMore(div: Option<Fragments>)

  /** An `h2` element with its `find_next_sibling("nfj-read-more")`. */
  datatype Heading = Heading(text: Fragments, readMore: Option<ReadMore>)

  /**
   * The `img alt="technologies"` element; `nextDiv` answers
   * `img.parent.find_next_sibling("div")` with the texts of that div's spans.
   */
  datatype TechImage = TechImage(nextDiv: Option<seq<Fragments>>)

  /** A parsed page, as the answers to every query the scrapers make on it. */
  datatype Soup = Soup(
    jobCards: seq<Item>,              // select("ul.job-cards > li")
    postingItems: seq<Item>,          // find_all("a", class_="posting-list-item")
    techImage: Option<TechImage>,     // find("img", alt="technologies")
    musts: Option<seq<Fragments>>,    // find("section", {"branch": "musts"}), its li texts
    companyAnchor: Option<Fragments>, // find("a", id="postingCompanyUrl")
    headings: seq<Heading>)           // find_all("h2")

  /** What `requests.get(url, headers=headers)` gives: a response, or it raises. */
  datatype Reply = Reply(status: int, soup: Soup) | ConnectionFailed

  /** The web as the scrapers see it: each URL's reply. */
  type Fetch = string -> Reply

  /** The only status code the scrapers treat as success. */
  const HttpOk := 200
}
