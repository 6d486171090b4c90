/** Consequences of the pagination loop's contract: what a caller of
    `ParseReviews` can rely on about any run, whatever the server returns. */
module RunProperties {
  import opened Wrappers
  import opened Reviews
  import opened Fetch
  import opened Paginator

  /** Once a completed page carries a cursor that is absent, empty or
      `"*"`, no further page is requested. */
  lemma NoRequestAfterEnd(run: Run, i: nat)
    requires WellShaped(run) && ChainedCursors(run)
    requires i < run.pagesDone
    requires run.pages[i].cursor.None? || !Live(run.pages[i].cursor.value)
    ensures |run.cursors| == i + 1
  {
  }

  /** Progress updates count the pages strictly upward from 1 and never
      past the cap, the running number of texts never decreases, and the
      last update shows the final number of texts. */
  lemma {:induction false} ReportsIncrease(run: Run, maxPages: int, minSec: int)
    requires WellShaped(run) && Bounded(run, maxPages)
    requires run.collected == Collect(run.pages, minSec)
    requires ReportsProgress(run, maxPages, minSec)
    ensures forall i :: 0 <= i < |run.reports| ==>
              0 < run.reports[i].pagesDone <= maxPages && run.reports[i].maxPages == maxPages
    ensures forall i, j :: 0 <= i < j < |run.reports| ==>
              run.reports[i].pagesDone < run.reports[j].pagesDone
              && run.reports[i].collectedCount <= run.reports[j].collectedCount
    ensures |run.reports| > 0 ==> run.reports[|run.reports| - 1].collectedCount == |run.collected|
  {
    forall i, j | 0 <= i < j < |run.reports|
      ensures run.reports[i].collectedCount <= run.reports[j].collectedCount
    {
      var pj := run.pages[..j + 1];
      assert pj[..i + 1] == run.pages[..i + 1];
      CollectPrefix(pj, i + 1, minSec);
    }
    if |run.reports| > 0 {
      assert run.pages[..|run.reports|] == run.pages;
    }
  }

  /** Texts collected from earlier pages are never removed or reordered:
      the texts of the first `k` completed pages are a prefix of the result. */
  lemma EarlierPagesKept(run: Run, minSec: int)
    requires run.collected == Collect(run.pages, minSec)
    ensures forall k :: 0 <= k <= |run.pages| ==> Collect(run.pages[..k], minSec) <= run.collected
  {
    forall k | 0 <= k <= |run.pages| ensures Collect(run.pages[..k], minSec) <= run.collected {
      CollectPrefix(run.pages, k, minSec);
    }
  }

  /** The number of attempts over all requested pages. */
  function TotalAttempts(logs: seq<seq<Attempt>>): nat
    decreases |logs|
  {
    if |logs| == 0 then 0 else TotalAttempts(logs[..|logs| - 1]) + |logs[|logs| - 1]|
  }

  /** Every page request makes at most three attempts, and no attempt waits more than 2 s. */
  lemma {:induction false} AttemptBounds(logs: seq<seq<Attempt>>)
    requires forall i :: 0 <= i < |logs| ==> RetryLog(logs[i])
    ensures TotalAttempts(logs) <= MAX_ATTEMPTS * |logs|
    ensures RunBackoff(logs) <= MAX_ATTEMPTS * BACKOFF_TOO_MANY * |logs|
    decreases |logs|
  {
    if |logs| > 0 {
      var front := logs[..|logs| - 1];
      assert forall i :: 0 <= i < |front| ==> front[i] == logs[i];
      AttemptBounds(front);
      TotalBackoffBound(logs[|logs| - 1]);
    }
  }

  /** A run with page cap `maxPages` makes at most `3 * maxPages` attempts
      and waits at most 6.01 s per page, whatever the server does. */
  lemma RunBounds(run: Run, appId: int, maxPages: int, net: Network)
    requires WellShaped(run) && Bounded(run, maxPages)
    requires FollowsRetryPolicy(run, appId, net)
    requires run.waitCost == RunBackoff(run.logs) + run.pagesDone * PACING
    ensures maxPages > 0 ==> TotalAttempts(run.logs) <= MAX_ATTEMPTS * maxPages
    ensures maxPages > 0 ==> run.waitCost <= (MAX_ATTEMPTS * BACKOFF_TOO_MANY + PACING) * maxPages
    ensures maxPages <= 0 ==> TotalAttempts(run.logs) == 0 && run.waitCost == 0
  {
    AttemptBounds(run.logs);
  }

  /** A run that gave up on a page made exactly three attempts for it, none
      of them a success, so that page yielded no body. */
  lemma ExhaustedAfterThree(run: Run, appId: int, maxPages: int, minSec: int, net: Network)
    requires WellShaped(run) && FollowsRetryPolicy(run, appId, net) && StopsCorrectly(run, maxPages)
    requires run.collected == Collect(run.pages, minSec)
    requires run.stop == RetriesExhausted
    ensures |run.cursors| == run.pagesDone + 1
    ensures var last := run.logs[|run.logs| - 1];
            |last| == MAX_ATTEMPTS && forall j :: 0 <= j < |last| ==> !last[j].Ok?
    ensures Fetched(run.logs[|run.logs| - 1]).None?
  {
  }

  /** A body whose `success` is not 1 was not retried: it came from the
      first successful attempt for its page, which is not among the
      completed pages. */
  lemma UnsuccessfulNotRetried(run: Run, appId: int, maxPages: int, net: Network)
    requires WellShaped(run) && FollowsRetryPolicy(run, appId, net) && StopsCorrectly(run, maxPages)
    requires run.stop == NotSuccessful
    ensures |run.cursors| == run.pagesDone + 1
    ensures var last := run.logs[|run.logs| - 1];
            && last[|last| - 1].Ok? && last[|last| - 1].body.success != Some(1)
            && forall j :: 0 <= j < |last| - 1 ==> !last[j].Ok?
  {
  }

  /** A server that answers every attempt with HTTP 429 ends the run after
      the first page's three attempts, 6 s of backoff and no texts. */
  lemma AllRateLimited(run: Run, appId: int, maxPages: int, minSec: int, net: Network)
    requires forall r, p, a :: net(r, p, a) == TooMany
    requires maxPages > 0
    requires WellShaped(run) && Bounded(run, maxPages) && ChainedCursors(run)
    requires FollowsRetryPolicy(run, appId, net) && StopsCorrectly(run, maxPages)
    requires run.collected == Collect(run.pages, minSec)
    requires run.waitCost == RunBackoff(run.logs) + run.pagesDone * PACING
    ensures run.stop == RetriesExhausted
    ensures run.pagesDone == 0 && |run.logs| == 1 && |run.logs[0]| == MAX_ATTEMPTS
    ensures run.collected == []
    ensures run.waitCost == MAX_ATTEMPTS * BACKOFF_TOO_MANY
  {
    var log := run.logs[0];
    assert log == [TooMany, TooMany, TooMany];
    assert log[..2] == [TooMany, TooMany] && log[..2][..1] == [TooMany];
    assert TotalBackoff(log[..1]) == BACKOFF_TOO_MANY;
    assert TotalBackoff(log[..2]) == 2 * BACKOFF_TOO_MANY;
    assert TotalBackoff(log) == 3 * BACKOFF_TOO_MANY;
    assert run.logs[..0] == [];
  }
}
