/** The pagination loop of `parse_reviews_async`: follows the server's
    cursor page by page, filters every successful page into the collected
    texts and reports progress, until the page cap, the end of the cursor
    chain, a page whose three attempts all failed, or a body whose
    `success` is not 1. */
module Paginator {
  import opened Wrappers
  import opened Reviews
  import opened Fetch

  /** The cursor of the first request. */
  const FIRST_CURSOR := "*"

  /** Pacing between pages, in hundredths of a second (`asyncio.sleep(0.01)`). */
  const PACING: nat := 1

  /** A cursor that leads to a further page: neither empty nor the first-page sentinel. */
  predicate Live(c: string)
  {
    c != "" && c != FIRST_CURSOR
  }

  /** The loop's `next_cursor` after a page: the body's cursor when it is
      live, `None` when it is absent, empty or `"*"`. */
  function NextCursor(b: Body): (c: Option<string>)
    ensures c.Some? <==> b.cursor.Some? && Live(b.cursor.value)
    ensures c.Some? ==> c == b.cursor
  {
    match b.cursor
    case None => None
    case Some(s) => if s == "" || s == FIRST_CURSOR then None else Some(s)
  }

  /** Python truthiness of `next_cursor`: present and non-empty. */
  predicate Truthy(c: Option<string>)
  {
    c.Some? && c.value != ""
  }

  /** A progress update sent to the window after a page: pages done, the
      cap they are measured against, and the number of texts so far. */
  datatype Report = Report(pagesDone: nat, maxPages: int, collectedCount: nat)

  /** Why the loop ended: its guard failed (page cap reached or no live
      cursor), a page's three attempts all failed, or a body had a
      `success` other than 1. */
  datatype Stop = Finished | RetriesExhausted | NotSuccessful

  /** The loop's state `(pages_done, next_cursor, reviews_collected)`, with
      the trace that led to it: the bodies of the completed pages, the
      cursor sent for each requested page, the attempts made for each
      requested page, the progress updates, the total backoff and pacing in
      hundredths of a second, and the reason the loop ended. */
  datatype Run = Run(
    collected: seq<string>,
    pagesDone: nat,
    cursor: Option<string>,
    pages: seq<Body>,
    cursors: seq<string>,
    logs: seq<seq<Attempt>>,
    reports: seq<Report>,
    waitCost: nat,
    stop: Stop)

  /** One body per completed page and one cursor and attempt log per
      requested page; at most one requested page did not complete. */
  predicate WellShaped(run: Run)
  {
    && run.pagesDone == |run.pages|
    && |run.cursors| == |run.logs|
    && run.pagesDone <= |run.cursors| <= run.pagesDone + 1
  }

  /** The page cap bounds the number of pages requested, whatever cursors
      the server returns. */
  predicate Bounded(run: Run, maxPages: int)
  {
    && (maxPages <= 0 ==> |run.cursors| == 0)
    && (maxPages > 0 ==> |run.cursors| <= maxPages)
  }

  /** The first request carries `"*"` and every later one the cursor of
      the page before it, which was live. */
  predicate Chained(pages: seq<Body>, cursors: seq<string>)
    requires |cursors| <= |pages| + 1
  {
    && (|cursors| > 0 ==> cursors[0] == FIRST_CURSOR)
    && (forall i :: 0 <= i < |cursors| - 1 ==>
          pages[i].cursor == Some(cursors[i + 1]) && Live(cursors[i + 1]))
  }

  /** `next_cursor` after the completed pages `pages`. */
  function CurrentCursor(pages: seq<Body>): Option<string>
  {
    if |pages| == 0 then Some(FIRST_CURSOR) else NextCursor(pages[|pages| - 1])
  }

  /** The requests are chained by cursor, and the current cursor is the
      last completed page's. */
  predicate ChainedCursors(run: Run)
    requires WellShaped(run)
  {
    Chained(run.pages, run.cursors) && run.cursor == CurrentCursor(run.pages)
  }

  /** Each page's attempts obey the retry policy and are the network's
      answers to that page's request. */
  predicate Logged(logs: seq<seq<Attempt>>, cursors: seq<string>, appId: int, net: Network)
    requires |logs| == |cursors|
  {
    && (forall i :: 0 <= i < |logs| ==> RetryLog(logs[i]))
    && (forall i, j :: 0 <= i < |logs| && 0 <= j < |logs[i]| ==>
          logs[i][j] == net(Request(appId, cursors[i]), i, j))
  }

  /** Every completed page is the successful body of its attempts, with
      `success` equal to 1. */
  predicate Completed(pages: seq<Body>, logs: seq<seq<Attempt>>)
    requires |pages| <= |logs|
  {
    forall i :: 0 <= i < |pages| ==> Fetched(logs[i]) == Some(pages[i]) && pages[i].success == Some(1)
  }

  /** Every requested page went through the retry policy against the
      network, and every completed page is the successful body of its
      attempts, with `success` equal to 1. */
  predicate FollowsRetryPolicy(run: Run, appId: int, net: Network)
    requires WellShaped(run)
  {
    Logged(run.logs, run.cursors, appId, net) && Completed(run.pages, run.logs)
  }

  /** The loop ended for the reason recorded: on `Finished` its guard is
      false and every requested page completed; on `RetriesExhausted` the
      last requested page had three failed attempts; on `NotSuccessful` it
      decoded a body whose `success` is not 1. */
  predicate StopsCorrectly(run: Run, maxPages: int)
    requires WellShaped(run)
  {
    && (run.stop == Finished <==> |run.cursors| == run.pagesDone)
    && (run.stop == Finished ==> !(run.pagesDone < maxPages && Truthy(run.cursor)))
    && (run.stop == RetriesExhausted ==> Fetched(run.logs[|run.logs| - 1]).None?)
    && (run.stop == NotSuccessful ==>
          var b := Fetched(run.logs[|run.logs| - 1]);
          b.Some? && b.value.success != Some(1))
  }

  /** After page `i + 1` the window shows `i + 1` pages of `maxPages` and
      the number of texts the first `i + 1` pages gave. */
  predicate Reported(reports: seq<Report>, pages: seq<Body>, maxPages: int, minSec: int)
  {
    && |reports| == |pages|
    && forall i :: 0 <= i < |reports| ==>
         reports[i] == Report(i + 1, maxPages, |Collect(pages[..i + 1], minSec)|)
  }

  predicate ReportsProgress(run: Run, maxPages: int, minSec: int)
  {
    Reported(run.reports, run.pages, maxPages, minSec)
  }

  /** The total backoff over all requested pages. */
  function RunBackoff(logs: seq<seq<Attempt>>): nat
    decreases |logs|
  {
    if |logs| == 0 then 0 else RunBackoff(logs[..|logs| - 1]) + TotalBackoff(logs[|logs| - 1])
  }

  /** Appends the stripped text of every accepted record of `revs` to
      `collected`, in record order: the inner `for rev in ...` loop. */
  method AppendAccepted(collected: seq<string>, revs: seq<RawReview>, minSec: int)
    returns (out: seq<string>)
    ensures out == collected + FilterReviews(revs, minSec)
  {
    out := collected;
    var k := 0;
    while k < |revs|
      invariant 0 <= k <= |revs|
      invariant out == collected + FilterReviews(revs[..k], minSec)
    {
      var rev := revs[k];
      var text := Stripped(rev);
      FilterSnoc(revs, k, minSec);
      if Playtime(rev) >= minSec && text != "" {
        out := out + [text];
      }
      k := k + 1;
    }
    assert revs[..k] == revs;
  }

  /** Requesting one more page, with the current cursor, keeps the chain. */
  lemma ChainExtend(pages: seq<Body>, cursors: seq<string>, cursor: string, pages': seq<Body>)
    requires |cursors| == |pages| && Chained(pages, cursors)
    requires CurrentCursor(pages) == Some(cursor)
    requires |pages| <= |pages'| <= |pages| + 1 && pages'[..|pages|] == pages
    ensures Chained(pages', cursors + [cursor])
  {
  }

  /** Appending a page's attempts keeps every attempt log faithful to the
      network and to the retry policy. */
  lemma LogsExtend(logs: seq<seq<Attempt>>, cursors: seq<string>, cursor: string, log: seq<Attempt>,
                   appId: int, net: Network)
    requires |logs| == |cursors| && Logged(logs, cursors, appId, net)
    requires RetryLog(log)
    requires forall j :: 0 <= j < |log| ==> log[j] == net(Request(appId, cursor), |logs|, j)
    ensures Logged(logs + [log], cursors + [cursor], appId, net)
  {
  }

  /** A completed page adds its body after the earlier ones. */
  lemma CompletedExtend(pages: seq<Body>, logs: seq<seq<Attempt>>, log: seq<Attempt>, data: Body)
    requires |pages| == |logs| && Completed(pages, logs)
    requires Fetched(log) == Some(data) && data.success == Some(1)
    ensures Completed(pages + [data], logs + [log])
  {
  }

  /** A page that did not complete leaves the completed pages as they were. */
  lemma CompletedKeep(pages: seq<Body>, logs: seq<seq<Attempt>>, log: seq<Attempt>)
    requires |pages| == |logs| && Completed(pages, logs)
    ensures Completed(pages, logs + [log])
  {
  }

  /** A completed page's texts follow the earlier pages' texts. */
  lemma CollectStep(pages: seq<Body>, data: Body, minSec: int)
    ensures Collect(pages + [data], minSec) == Collect(pages, minSec) + Accepted(data, minSec)
  {
  }

  /** A completed page adds one progress update for itself. */
  lemma ReportStep(reports: seq<Report>, pages: seq<Body>, data: Body, maxPages: int, minSec: int)
    requires Reported(reports, pages, maxPages, minSec)
    ensures Reported(reports + [Report(|pages| + 1, maxPages, |Collect(pages + [data], minSec)|)],
                     pages + [data], maxPages, minSec)
  {
    var reports' := reports + [Report(|pages| + 1, maxPages, |Collect(pages + [data], minSec)|)];
    var pages' := pages + [data];
    forall i | 0 <= i < |reports'|
      ensures reports'[i] == Report(i + 1, maxPages, |Collect(pages'[..i + 1], minSec)|)
    {
      if i < |pages| {
        assert pages'[..i + 1] == pages[..i + 1];
        assert reports'[i] == reports[i];
      } else {
        assert pages'[..i + 1] == pages';
      }
    }
  }

  /** Adding a page's attempts adds their backoff to the total. */
  lemma WaitStep(logs: seq<seq<Attempt>>, log: seq<Attempt>)
    ensures RunBackoff(logs + [log]) == RunBackoff(logs) + TotalBackoff(log)
  {
  }

  /** What holds at the head of every iteration of the loop. */
  predicate Invariant(run: Run, appId: int, maxPages: int, minSec: int, net: Network)
  {
    && WellShaped(run)
    && |run.cursors| == run.pagesDone
    && run.stop == Finished
    && (maxPages <= 0 ==> run.pagesDone == 0)
    && (maxPages > 0 ==> run.pagesDone <= maxPages)
    && ChainedCursors(run)
    && FollowsRetryPolicy(run, appId, net)
    && run.collected == Collect(run.pages, minSec)
    && ReportsProgress(run, maxPages, minSec)
    && run.waitCost == RunBackoff(run.logs) + run.pagesDone * PACING
  }

  /** The loop's postcondition. */
  predicate RunContract(run: Run, appId: int, maxPages: int, minSec: int, net: Network)
  {
    && WellShaped(run)
    && Bounded(run, maxPages)
    && ChainedCursors(run)
    && FollowsRetryPolicy(run, appId, net)
    && StopsCorrectly(run, maxPages)
    && run.collected == Collect(run.pages, minSec)
    && ReportsProgress(run, maxPages, minSec)
    && run.waitCost == RunBackoff(run.logs) + run.pagesDone * PACING
  }

  /** The body of a successful iteration: filters the page's records into
      the collected texts, moves to the page's cursor, counts the page and
      reports progress. */
  method CompletePage(run: Run, cursor: string, log: seq<Attempt>, wait: nat, data: Body,
                      appId: int, maxPages: int, minSec: int, net: Network)
    returns (next: Run)
    requires Invariant(run, appId, maxPages, minSec, net)
    requires run.pagesDone < maxPages && run.cursor == Some(cursor)
    requires RetryLog(log) && Fetched(log) == Some(data) && data.success == Some(1)
    requires forall j :: 0 <= j < |log| ==> log[j] == net(Request(appId, cursor), run.pagesDone, j)
    requires wait == TotalBackoff(log)
    ensures Invariant(next, appId, maxPages, minSec, net)
    ensures next.pagesDone == run.pagesDone + 1
    ensures next.pages == run.pages + [data] && next.cursor == NextCursor(data)
  {
    ChainExtend(run.pages, run.cursors, cursor, run.pages + [data]);
    LogsExtend(run.logs, run.cursors, cursor, log, appId, net);
    CompletedExtend(run.pages, run.logs, log, data);
    CollectStep(run.pages, data, minSec);
    ReportStep(run.reports, run.pages, data, maxPages, minSec);
    WaitStep(run.logs, log);

    var collected := AppendAccepted(run.collected, ReviewsOf(data), minSec);
    var pagesDone := run.pagesDone + 1;
    next := Run(collected, pagesDone, NextCursor(data), run.pages + [data],
                run.cursors + [cursor], run.logs + [log],
                run.reports + [Report(pagesDone, maxPages, |collected|)],
                run.waitCost + wait + PACING, Finished);
  }

  /** The end of the loop at a page that did not complete: three failed
      attempts (`for ... else: break`) or `success != 1` (`break`). */
  method AbandonPage(run: Run, cursor: string, log: seq<Attempt>, wait: nat,
                     appId: int, maxPages: int, minSec: int, net: Network)
    returns (last: Run)
    requires Invariant(run, appId, maxPages, minSec, net)
    requires run.pagesDone < maxPages && run.cursor == Some(cursor)
    requires RetryLog(log) && (Fetched(log).None? || Fetched(log).value.success != Some(1))
    requires forall j :: 0 <= j < |log| ==> log[j] == net(Request(appId, cursor), run.pagesDone, j)
    requires wait == TotalBackoff(log)
    ensures RunContract(last, appId, maxPages, minSec, net)
    ensures last.stop != Finished
    ensures last.collected == run.collected && last.pages == run.pages
  {
    ChainExtend(run.pages, run.cursors, cursor, run.pages);
    LogsExtend(run.logs, run.cursors, cursor, log, appId, net);
    CompletedKeep(run.pages, run.logs, log);
    WaitStep(run.logs, log);
    var stop := if Fetched(log).None? then RetriesExhausted else NotSuccessful;
    last := run.(cursors := run.cursors + [cursor], logs := run.logs + [log],
                 waitCost := run.waitCost + wait, stop := stop);
  }

  /** Runs the pagination loop for the game `appId`, keeping reviews whose
      author played at least `minHours` hours, for at most `maxPages` pages. */
  method ParseReviews(appId: int, minHours: int, maxPages: int, net: Network) returns (run: Run)
    ensures WellShaped(run)
    ensures Bounded(run, maxPages)
    ensures ChainedCursors(run)
    ensures FollowsRetryPolicy(run, appId, net)
    ensures StopsCorrectly(run, maxPages)
    ensures run.collected == Collect(run.pages, minHours * SECONDS_PER_HOUR)
    ensures ReportsProgress(run, maxPages, minHours * SECONDS_PER_HOUR)
    ensures run.waitCost == RunBackoff(run.logs) + run.pagesDone * PACING
  {
    var minSec := minHours * SECONDS_PER_HOUR;
    run := Run([], 0, Some(FIRST_CURSOR), [], [], [], [], 0, Finished);

    while run.pagesDone < maxPages && Truthy(run.cursor)
      invariant Invariant(run, appId, maxPages, minSec, net)
      decreases maxPages - run.pagesDone
    {
      var cursor := run.cursor.value;
      var got, log, wait := FetchPage(net, Request(appId, cursor), run.pagesDone);
      if got.None? || got.value.success != Some(1) {
        run := AbandonPage(run, cursor, log, wait, appId, maxPages, minSec, net);
        return;
      }
      run := CompletePage(run, cursor, log, wait, got.value, appId, maxPages, minSec, net);
    }
  }
}
