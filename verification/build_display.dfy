/**
 * The pure decisions around a ticket page: whether `_get_build` looks for
 * a build at all, and how `filter_stream` labels and colours a build status.
 */
module BuildDisplay {
  import opened Wrappers

  /** Names of the terminal build outcomes, indexed by status code. */
  const Results: seq<string> := ["Success", "Warnings", "Failure", "Skipped", "Exception", "Retry"]

  /** The ticket fields the hook reads. */
  datatype Ticket = Ticket(status: string, branch: string)

  /**
   * `_get_build`'s guards: the branch to resolve, or `None` for the empty
   * answer `()`. A preview never resolves; with `extraChecks` the request
   * must name a ticket id and the ticket must be under review; an empty
   * branch field resolves nothing.
   */
  function Gate(args: map<string, string>, ticket: Ticket, extraChecks: bool): (branch: Option<string>)
    ensures "preview" in args ==> branch.None?
    ensures extraChecks && "id" !in args ==> branch.None?
    ensures extraChecks && ticket.status != "needs_review" && ticket.status != "positive_review" ==> branch.None?
    ensures ticket.branch == "" ==> branch.None?
    ensures branch.Some? ==> branch.value == ticket.branch
  {
    if "preview" in args then None
    else if extraChecks && "id" !in args then None
    else if extraChecks && ticket.status !in ["needs_review", "positive_review"] then None
    else if ticket.branch == "" then None
    else Some(ticket.branch)
  }

  /** The guards are the only reasons `_get_build` gives up before resolving. */
  lemma GateOpens(args: map<string, string>, ticket: Ticket, extraChecks: bool)
    requires "preview" !in args && ticket.branch != ""
    requires extraChecks ==> "id" in args && ticket.status in ["needs_review", "positive_review"]
    ensures Gate(args, ticket, extraChecks) == Some(ticket.branch)
  {
  }

  /** What the ticket page shows for a build: its label and, for a finished or running build, the CSS class of the link. */
  datatype Badge = Badge(caption: string, colour: Option<string>)

  /** `RESULTS[rc]` outside Python's index range. */
  datatype DisplayError = IndexError(rc: int)

  /**
   * `filter_stream`'s classification of a status code: `None` is queued,
   * `-1` in progress, anything else indexes `RESULTS`, with Python's
   * negative indices wrapping from the end.
   */
  function StatusBadge(rc: Option<int>): (r: Result<Badge, DisplayError>)
    ensures rc.None? ==> r == Ok(Badge("Queued", None))
    ensures rc == Some(-1) ==> r == Ok(Badge("In progress", Some("needs_review")))
    ensures r.Err? <==> rc.Some? && (rc.value < -|Results| || |Results| <= rc.value)
    ensures r.Ok? && rc.Some? && rc.value != -1 ==>
      r.value.caption in Results &&
      r.value.colour == Some(if rc.value == 0 then "positive_review" else "needs_work")
  {
    match rc
    case None => Ok(Badge("Queued", None))
    case Some(code) =>
      if code == -1 then Ok(Badge("In progress", Some("needs_review")))
      else if code < -|Results| || |Results| <= code then Err(IndexError(code))
      else
        var caption := if code >= 0 then Results[code] else Results[|Results| + code];
        Ok(Badge(caption, Some(if code != 0 then "needs_work" else "positive_review")))
  }

  /** The status code whose outcome is called `caption`, if any: the reading of a badge. */
  function StatusCode(caption: string): (rc: Option<nat>)
    ensures rc.Some? ==> rc.value < |Results| && Results[rc.value] == caption
    ensures rc.None? ==> caption !in Results
  {
    if caption == Results[0] then Some(0)
    else if caption == Results[1] then Some(1)
    else if caption == Results[2] then Some(2)
    else if caption == Results[3] then Some(3)
    else if caption == Results[4] then Some(4)
    else if caption == Results[5] then Some(5)
    else None
  }

  /** Codes 0 to 5 are shown as Success, Warnings, Failure, Skipped, Exception, Retry, and read back as the same code. */
  lemma {:induction false} OutcomeLabelRoundTrip(code: nat)
    requires code < |Results|
    ensures StatusBadge(Some(code)).Ok?
    ensures StatusBadge(Some(code)).value.caption == Results[code]
    ensures StatusCode(StatusBadge(Some(code)).value.caption) == Some(code)
  {
    assert Results[code] in Results;
  }

  /**
   * Codes -6 to -2 count back from the end of `RESULTS`, as Python's
   * negative indices do (-2 is Exception, -6 Success), but are always
   * coloured needs_work: the colour tests the code, not the caption.
   */
  lemma NegativeCodesCountFromEnd(rc: int)
    requires -|Results| <= rc <= -2
    ensures StatusBadge(Some(rc)) == Ok(Badge(Results[|Results| + rc], Some("needs_work")))
    ensures StatusBadge(Some(rc)).value.caption == StatusBadge(Some(|Results| + rc)).value.caption
    ensures rc == -|Results| ==> StatusBadge(Some(rc)) != StatusBadge(Some(0))
  {
  }

  /** Queued, in progress and the six outcomes are all told apart by their badge. */
  lemma BadgesDistinguishStatuses(rc1: Option<int>, rc2: Option<int>)
    requires rc1.None? || -1 <= rc1.value < |Results|
    requires rc2.None? || -1 <= rc2.value < |Results|
    requires StatusBadge(rc1) == StatusBadge(rc2)
    ensures rc1 == rc2
  {
    if rc1.Some? && rc1.value >= 0 {
      OutcomeLabelRoundTrip(rc1.value);
    }
    if rc2.Some? && rc2.value >= 0 {
      OutcomeLabelRoundTrip(rc2.value);
    }
  }
}
