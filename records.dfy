/**
 * The five-key job record and the record-collecting loop every scraper
 * generation shares: one record per item, in item order, and the first
 * item whose extraction raises aborts the whole list.
 */
module Records {
  import opened Results
  import opened Dom

  /**
   * One job as the dict `{"job_title", "company_name", "job_summary",
   * "job_link", "job_tech_stack"}`; `None` is a key whose value stayed `None`.
   */
  datatype JobRecord = JobRecord(
    title: Option<string>,
    company: Option<string>,
    summary: Option<string>,
    link: Option<string>,
    techStack: Option<seq<string>>)

  /** A DataFrame built from a list of records, row by row. */
  type Table = seq<JobRecord>

  /** What a subpage scrape returns: `(company_name, job_summary, tech_stack_list)`. */
  datatype Enrichment = Enrichment(company: string, summary: string, techStack: seq<string>)

  /** The subpage triple returned when the subpage's status is not 200. */
  const NoEnrichment := Enrichment("", "", [])

  /**
   * `job_info = []; for item in items: job_info.append(extract(item))`,
   * where `extract` may raise: the list of records, or the first exception.
   */
  function Collect(items: seq<Item>, extract: Item -> Outcome<JobRecord>): (r: Outcome<Table>)
    ensures r.Ok? <==> forall i :: 0 <= i < |items| ==> extract(items[i]).Ok?
    ensures r.Ok? ==> |r.value| == |items|
    ensures r.Ok? ==> forall i :: 0 <= i < |items| ==> r.value[i] == extract(items[i]).value
    decreases |items|
  {
    if items == [] then Ok([])
    else
      var prefix := items[..|items| - 1];
      assert forall i :: 0 <= i < |prefix| ==> prefix[i] == items[i];
      match Collect(prefix, extract)
      case Raised(e) => Raised(e)
      case Ok(done) =>
        match extract(items[|items| - 1])
        case Raised(e) => Raised(e)
        case Ok(rec) => Ok(done + [rec])
  }

  /** Once some prefix of the items raises, the whole collection raises the same. */
  lemma {:induction false} CollectKeepsFirstError(items: seq<Item>, extract: Item -> Outcome<JobRecord>, n: nat)
    requires n <= |items|
    requires Collect(items[..n], extract).Raised?
    ensures Collect(items, extract) == Collect(items[..n], extract)
    decreases |items| - n
  {
    if n < |items| {
      CollectKeepsFirstError(items, extract, n + 1);
      assert items[..n + 1][..n] == items[..n];
    } else {
      assert items[..n] == items;
    }
  }

  /**
   * The exception the collection raises is the one of the first item that
   * raises.
   */
  lemma CollectRaisesFirstError(items: seq<Item>, extract: Item -> Outcome<JobRecord>, k: nat)
    requires k < |items| && extract(items[k]).Raised?
    requires forall j :: 0 <= j < k ==> extract(items[j]).Ok?
    ensures Collect(items, extract) == Raised(extract(items[k]).error)
  {
    var front := items[..k + 1];
    assert front[..k] == items[..k];
    assert Collect(items[..k], extract).Ok?;
    assert Collect(front, extract) == Raised(extract(items[k]).error);
    CollectKeepsFirstError(items, extract, k + 1);
  }

  /** Collecting one more item appends its record, or raises its exception. */
  lemma CollectStep(items: seq<Item>, extract: Item -> Outcome<JobRecord>, i: nat, done: Table)
    requires i < |items|
    requires Collect(items[..i], extract) == Ok(done)
    ensures Collect(items[..i + 1], extract) ==
            match extract(items[i])
            case Raised(e) => Raised(e)
            case Ok(rec) => Ok(done + [rec])
  {
    assert items[..i + 1][..i] == items[..i];
  }

  /**
   * The loop itself: append each item's record in turn, and return the
   * exception of the first item that raises.
   */
  method CollectRecords(items: seq<Item>, extract: Item -> Outcome<JobRecord>) returns (r: Outcome<Table>)
    ensures r == Collect(items, extract)
  {
    var jobInfo: Table := [];
    var i := 0;
    while i < |items|
      invariant 0 <= i <= |items|
      invariant Collect(items[..i], extract) == Ok(jobInfo)
    {
      var rec := extract(items[i]);
      CollectStep(items, extract, i, jobInfo);
      if rec.Raised? {
        CollectKeepsFirstError(items, extract, i + 1);
        return Raised(rec.error);
      }
      jobInfo := jobInfo + [rec.value];
      i := i + 1;
    }
    assert items[..i] == items;
    r := Ok(jobInfo);
  }
}
