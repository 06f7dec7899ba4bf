/**
 * The per-site HTML extraction steps. Both scraper generations run the same
 * code for these (the function modules and the Scraper subclasses), so each
 * is defined once here.
 */
module Extraction {
  import opened Results
  import opened Text
  import opened Dom

  /**
   * The prf tech stack of a subpage: find `img alt="technologies"`, then the
   * `div` after its parent, then the stripped text of every span in it.
   * Either lookup failing gives the empty list, never an exception.
   */
  function PrfTechStack(soup: Soup): (r: seq<string>)
    ensures soup.techImage.None? ==> r == []
    ensures soup.techImage.Some? && soup.techImage.value.nextDiv.None? ==> r == []
    ensures soup.techImage.Some? && soup.techImage.value.nextDiv.Some? ==>
              var spans := soup.techImage.value.nextDiv.value;
              |r| == |spans| && forall i :: 0 <= i < |spans| ==> r[i] == Strip(GetText(spans[i]))
  {
    match soup.techImage
    case None => []
    case Some(image) =>
      match image.nextDiv
      case None => []
      case Some(spans) => StrippedTexts(spans)
  }

  /**
   * The nof tech stack of a subpage: the stripped `li` texts of the
   * `section branch="musts"`, in order. A section with no `li` gives the empty
   * list; a page without the section raises (`None.find_all`).
   */
  function NofTechStack(soup: Soup): (r: Outcome<seq<string>>)
    ensures r.Raised? <==> soup.musts.None?
    ensures r.Raised? ==> r.error == AttributeError
    ensures r.Ok? ==> |r.value| == |soup.musts.value|
    ensures r.Ok? ==> forall i :: 0 <= i < |r.value| ==> r.value[i] == Strip(GetText(soup.musts.value[i]))
  {
    match soup.musts
    case None => Raised(AttributeError)
    case Some(items) =>
      if items == [] then Ok([]) else Ok(StrippedTexts(items))
  }

  /**
   * The nof company name: the stripped text of `a id="postingCompanyUrl"`;
   * a page without it raises (`None.text`).
   */
  function NofCompany(soup: Soup): (r: Outcome<string>)
    ensures r.Raised? <==> soup.companyAnchor.None?
    ensures r.Raised? ==> r.error == AttributeError
    ensures r.Ok? ==> r.value == Strip(GetText(soup.companyAnchor.value))
  {
    match soup.companyAnchor
    case None => Raised(AttributeError)
    case Some(anchor) => Ok(Strip(GetText(anchor)))
  }

  /** The marker the nof summary heading ("projekt rövid leírása") contains. */
  const SummaryMarker := "projekt r"

  /**
   * An `h2` the summary search stops at: its stripped text contains the
   * marker and the `nfj-read-more` after it has a `div`.
   */
  predicate Qualifies(h: Heading) {
    Contains(Strip(GetText(h.text)), SummaryMarker)
    && h.readMore.Some? && h.readMore.value.div.Some?
  }

  /** The summary a qualifying heading yields: its read-more div's text. */
  function SummaryText(h: Heading): string
    requires Qualifies(h)
  {
    GetTextStripped(h.readMore.value.div.value)
  }

  /** The nof summary: the text under the first qualifying `h2`, else "". */
  function SummaryOf(headings: seq<Heading>): string {
    if headings == [] then ""
    else if Qualifies(headings[0]) then SummaryText(headings[0])
    else SummaryOf(headings[1..])
  }

  /** The summary is taken from the first qualifying heading; later ones are ignored. */
  lemma {:induction false} SummaryIsFirstQualifying(headings: seq<Heading>, k: nat)
    requires k < |headings| && Qualifies(headings[k])
    requires forall j :: 0 <= j < k ==> !Qualifies(headings[j])
    ensures SummaryOf(headings) == SummaryText(headings[k])
  {
    if k > 0 {
      var rest := headings[1..];
      assert !Qualifies(headings[0]);
      forall j | 0 <= j < k - 1 ensures !Qualifies(rest[j]) {
        assert rest[j] == headings[j + 1];
      }
      SummaryIsFirstQualifying(rest, k - 1);
    }
  }

  /** With no qualifying heading the summary stays "". */
  lemma {:induction false} SummaryEmptyWithoutQualifying(headings: seq<Heading>)
    requires forall j :: 0 <= j < |headings| ==> !Qualifies(headings[j])
    ensures SummaryOf(headings) == ""
  {
    if headings != [] {
      var rest := headings[1..];
      assert forall j :: 0 <= j < |rest| ==> rest[j] == headings[j + 1];
      SummaryEmptyWithoutQualifying(rest);
    }
  }

  /**
   * `extract_job_summary_from_result`: scan the `h2`s in order; at the first
   * whose text holds the marker and whose read-more has a div, take that
   * text and `break`; other headings are skipped.
   */
  method ExtractJobSummary(headings: seq<Heading>) returns (summary: string)
    ensures summary == SummaryOf(headings)
  {
    summary := "";
    var i := 0;
    while i < |headings|
      invariant 0 <= i <= |headings|
      invariant SummaryOf(headings[i..]) == SummaryOf(headings)
      invariant summary == ""
    {
      var h := headings[i];
      if Contains(Strip(GetText(h.text)), SummaryMarker) {
        if h.readMore.Some? && h.readMore.value.div.Some? {
          summary := GetTextStripped(h.readMore.value.div.value);
          break;
        }
      }
      assert headings[i..][1..] == headings[i + 1..];
      i := i + 1;
    }
  }
}
