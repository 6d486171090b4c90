/** The run as the window starts it: normalise the inputs, then paginate
    with the resulting game id, threshold and page cap. */
module Session {
  import opened Wrappers
  import opened Reviews
  import opened Fetch
  import opened Paginator
  import opened Settings

  /** `start_parsing` followed by `parse_reviews_async`. Rejected input
      starts no run; otherwise the run requests at most 150 pages, follows
      the normalised configuration and collects every accepted text of its
      completed pages. */
  method StartRun(choice: string, appIdField: Field, hoursField: Field, pagesField: Field, net: Network)
    returns (r: Result<Run, InputError>)
    ensures r.Failure? <==> StartParsing(choice, appIdField, hoursField, pagesField).Failure?
    ensures r.Failure? ==> r.error == StartParsing(choice, appIdField, hoursField, pagesField).error
    ensures r.Success? ==>
              var cfg := StartParsing(choice, appIdField, hoursField, pagesField).value;
              && WellShaped(r.value)
              && 1 <= |r.value.cursors| <= PAGE_LIMIT
              && r.value.pagesDone <= cfg.maxPages
              && r.value.cursors[0] == FIRST_CURSOR
              && FollowsRetryPolicy(r.value, cfg.appId, net)
              && r.value.collected == Collect(r.value.pages, cfg.minHours * SECONDS_PER_HOUR)
              && RunContract(r.value, cfg.appId, cfg.maxPages, cfg.minHours * SECONDS_PER_HOUR, net)
  {
    var cfg := StartParsing(choice, appIdField, hoursField, pagesField);
    if cfg.Failure? {
      return Failure(cfg.error);
    }
    var run := ParseReviews(cfg.value.appId, cfg.value.minHours, cfg.value.maxPages, net);
    r := Success(run);
  }
}
