/**
 * The execution logs page: the filter parameters, the defaults taken when a
 * response lacks logs or pagination, the previous/next page clamps, the
 * status shown for a log, and the preview of a log's response.
 */
module LogsPage {
  import opened Common

  const PreviewLength: nat := 500

  // ---------------------------------------------------------------------------
  // Parameters and defaults

  datatype LogQuery = LogQuery(status: Option<string>, jobId: Option<string>, page: int, limit: nat)

  /** "all" for either select sends no parameter; 20 logs per page. */
  function Query(statusFilter: string, jobFilter: string, page: int): (q: LogQuery)
    ensures q.status.None? <==> statusFilter == "all"
    ensures q.jobId.None? <==> jobFilter == "all"
    ensures q.status.Some? ==> q.status.value == statusFilter
    ensures q.jobId.Some? ==> q.jobId.value == jobFilter
    ensures q.page == page && q.limit == 20
  {
    LogQuery(AllAsNone(statusFilter), AllAsNone(jobFilter), page, 20)
  }

  /** `data?.logs || []` */
  function LogsOrEmpty<T>(logs: Option<seq<T>>): (r: seq<T>)
    ensures logs.None? ==> r == []
    ensures logs.Some? ==> r == logs.value
  {
    logs.GetOr([])
  }

  /** `data?.pagination?.totalPages || 1`: a missing or zero count is one page. */
  function TotalPagesOf(totalPages: Option<int>): (n: int)
    ensures totalPages.None? || totalPages == Some(0) ==> n == 1
    ensures totalPages.Some? && totalPages.value != 0 ==> n == totalPages.value
  {
    if totalPages.None? || totalPages.value == 0 then 1 else totalPages.value
  }

  // ---------------------------------------------------------------------------
  // Pagination

  /** `Math.max(1, p - 1)` */
  function PrevPage(p: int): (r: int)
    ensures r >= 1 && r >= p - 1
    ensures r == p - 1 || r == 1
  {
    if p - 1 > 1 then p - 1 else 1
  }

  /** `Math.min(totalPages, p + 1)` */
  function NextPage(p: int, totalPages: int): (r: int)
    ensures r <= totalPages && r <= p + 1
    ensures r == p + 1 || r == totalPages
  {
    if p + 1 < totalPages then p + 1 else totalPages
  }

  /** From a page in range, both buttons keep the page in range; each moves
      by one unless it is already at its end. */
  lemma PagingStaysInRange(p: int, totalPages: int)
    requires 1 <= p <= totalPages
    ensures 1 <= PrevPage(p) <= totalPages && 1 <= NextPage(p, totalPages) <= totalPages
    ensures PrevPage(p) == (if p == 1 then 1 else p - 1)
    ensures NextPage(p, totalPages) == (if p == totalPages then p else p + 1)
  {
  }

  // ---------------------------------------------------------------------------
  // Status

  datatype StatusDisplay = SuccessBadge | FailedBadge | RunningBadge

  /** `getStatusIcon`/`getStatusBadge`: success and failed ignoring case;
      everything else is shown as running. */
  function DisplayStatus(status: string): (d: StatusDisplay)
    ensures d == SuccessBadge <==> Lower(status) == "success"
    ensures d == FailedBadge <==> Lower(status) == "failed"
  {
    match ClassifyStatus(status)
    case Succeeded => SuccessBadge
    case Failed => FailedBadge
    case Running => RunningBadge
  }

  // ---------------------------------------------------------------------------
  // Response preview

  /** A log's response: text, or an object of string fields (serialised
      without escapes). */
  datatype Response = Text(text: string) | Fields(entries: seq<(string, string)>)

  function Quote(s: string): string { "\"" + s + "\"" }

  /** `JSON.stringify(o)` */
  function Compact(entries: seq<(string, string)>): string {
    "{" + CompactBody(entries) + "}"
  }

  function CompactBody(entries: seq<(string, string)>): string {
    if entries == [] then ""
    else Quote(entries[0].0) + ":" + Quote(entries[0].1) + (if |entries| > 1 then "," else "") + CompactBody(entries[1..])
  }

  /** `JSON.stringify(o, null, 2)` */
  function Pretty(entries: seq<(string, string)>): string {
    if entries == [] then "{}" else "{\n" + PrettyBody(entries) + "\n}"
  }

  function PrettyBody(entries: seq<(string, string)>): string {
    if entries == [] then ""
    else "  " + Quote(entries[0].0) + ": " + Quote(entries[0].1) + (if |entries| > 1 then ",\n" else "") + PrettyBody(entries[1..])
  }

  lemma {:induction false} BodyLengths(entries: seq<(string, string)>)
    ensures |PrettyBody(entries)| == |CompactBody(entries)| + 3 * |entries| + (if entries == [] then 0 else |entries| - 1)
  {
    if entries != [] {
      BodyLengths(entries[1..]);
    }
  }

  /** Indenting adds four characters per field and one more for a non-empty object. */
  lemma PrettyLonger(entries: seq<(string, string)>)
    ensures |Pretty(entries)| == |Compact(entries)| + (if entries == [] then 0 else 4 * |entries| + 1)
  {
    BodyLengths(entries);
  }

  function Prefix(s: string, n: nat): (r: string)
    ensures |r| <= n && |r| <= |s| && r == s[..|r|]
    ensures |s| <= n ==> r == s
    ensures |s| > n ==> |r| == n
  {
    if |s| <= n then s else s[..n]
  }

  /** The text the preview displays: text as it is, objects indented. */
  function Displayed(r: Response): string {
    match r
    case Text(t) => t
    case Fields(es) => Pretty(es)
  }

  /** The shown text and whether "..." follows it. */
  datatype Preview = Preview(shown: string, ellipsis: bool)

  /** The page as written: objects are displayed indented, but the length
      test for "..." measures the unindented form. A missing or empty
      response shows no preview. */
  function PreviewAsWritten(r: Option<Response>): (p: Option<Preview>)
    ensures p.None? <==> r.None? || r == Some(Text(""))
    ensures p.Some? ==> p.value.shown == Prefix(Displayed(r.value), PreviewLength)
  {
    match r
    case None => None
    case Some(Text(t)) => if t == "" then None else Some(Preview(Prefix(t, PreviewLength), |t| > PreviewLength))
    case Some(Fields(es)) => Some(Preview(Prefix(Pretty(es), PreviewLength), |Compact(es)| > PreviewLength))
  }

  /** One field holding 490 characters: 498 characters unindented, 503
      indented, so the preview is cut at 500 with no "...". */
  lemma PreviewCutWithoutEllipsis()
    ensures var r := Some(Fields([("a", seq(490, _ => 'x'))]));
      && PreviewAsWritten(r).Some?
      && PreviewAsWritten(r).value.shown != Displayed(r.value)
      && !PreviewAsWritten(r).value.ellipsis
  {
    var es := [("a", seq(490, _ => 'x'))];
    assert |CompactBody(es)| == 496 by {
      assert CompactBody(es[1..]) == "";
    }
    PrettyLonger(es);
    assert |Pretty(es)| == 503;
  }

  /** "..." follows exactly when the displayed text was cut. */
  function ResponsePreview(r: Option<Response>): (p: Option<Preview>)
    ensures p.None? <==> r.None? || r == Some(Text(""))
    ensures p.Some? ==> p.value.shown == Prefix(Displayed(r.value), PreviewLength)
    ensures p.Some? ==> (p.value.ellipsis <==> p.value.shown != Displayed(r.value))
  {
    match r
    case None => None
    case Some(Text(t)) => if t == "" then None else Some(Preview(Prefix(t, PreviewLength), |t| > PreviewLength))
    case Some(Fields(es)) => Some(Preview(Prefix(Pretty(es), PreviewLength), |Pretty(es)| > PreviewLength))
  }

  /** The page's test errs in one direction only: whenever it shows "...",
      the text was indeed cut. */
  lemma AsWrittenEllipsisIsSound(r: Option<Response>)
    ensures PreviewAsWritten(r).Some? && PreviewAsWritten(r).value.ellipsis ==> ResponsePreview(r).value.ellipsis
    ensures PreviewAsWritten(r).Some? ==> PreviewAsWritten(r).value.shown == ResponsePreview(r).value.shown
  {
    if r.Some? && r.value.Fields? {
      PrettyLonger(r.value.entries);
    }
  }
}
