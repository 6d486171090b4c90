# Steam review parser — model of the fetch-and-filter pipeline

The program downloads the user reviews of one Steam game page by page from
the store's `appreviews` endpoint, keeps the reviews whose author played at
least a given number of hours and whose text is not blank, and writes the
kept texts to a file. This project models its deterministic core in Dafny:

- the **review filter** (`Reviews`): playtime and stripped text of a raw
  record, with absent fields defaulting to 0 and `""`; Python's
  `str.strip()` is modelled in `Text` with the `str.isspace()` character set;
- the **retry policy** of one page request (`Fetch`): up to three attempts,
  2 s backoff after HTTP 429, 1 s after any other status or exception;
- the **pagination loop** of `parse_reviews_async` (`Paginator`): the state
  `(pages_done, next_cursor, reviews_collected)`, the cursor starting at
  `"*"`, the guard `pages_done < max_pages and next_cursor`, the two
  early exits (all attempts failed; `success != 1`), the end of the cursor
  chain (absent, empty or `"*"`), and the progress updates;
- the **input normalisation** of `get_app_id` and `start_parsing`
  (`Settings`): the `POPULAR_GAMES` table with fallback 252490, the blank
  defaults, and the clamping of the page cap into [1, 150];
- the composition of the two (`Session`).

The network is a parameter: a total function `Network` from the request
(game id and cursor), the page number and the attempt number to the
attempt's outcome — `Ok(body)` for HTTP 200 with a body that decodes,
`TooMany` for HTTP 429, `OtherStatus` for any other status, `Raised` for a
transport exception or a 200 whose body fails to decode. Sleeps are kept as
an integer wait cost in hundredths of a second (200 after a 429, 100 after
other failures, 1 of pacing after each completed page). The loop's result
`Run` carries, besides the three state variables, the trace that led to
it: the completed pages' bodies, the cursor sent for each requested page,
each page's attempt outcomes, the progress updates and the reason the loop
ended. The lemmas in `RunProperties` are stated about any `Run` satisfying
the loop's contract.

Behaviour worth noting, as the code has it: a 200 whose body decodes but
whose `success` is not 1 stops pagination at once, without a retry, whereas
a 200 whose body fails to decode raises inside the `try` and costs one
attempt; any integer typed as an AppID is accepted, zero and negative ones
included; a negative number of hours is accepted and lets every record
whose playtime is not negative pass the playtime test.

## Model

| member | source | states |
|---|---|---|
| Text.StripSpec | main.py:181 | the stripped text is never longer than the raw text; it is the infix of the raw text that starts and ends with a non-whitespace character, only whitespace lies outside it, and it is empty exactly when the raw text is all whitespace |
| Text.TrimStartSpec | main.py:181 | removing leading whitespace leaves a suffix preceded only by whitespace that does not itself start with whitespace |
| Text.TrimEndSpec | main.py:181 | removing trailing whitespace leaves a prefix followed only by whitespace that does not itself end with whitespace |
| Text.StripIdempotent | main.py:181 | a stripped text has nothing left to strip |
| Reviews.Playtime | main.py:179-180 | the playtime is `playtime_forever`, or 0 when the author object or that key is absent |
| Reviews.Stripped | main.py:181 | the stored text is the stripped `review`, or `""` when the key is absent |
| Reviews.AcceptIff | main.py:182 | a record is kept exactly when its playtime reaches the threshold in seconds and its raw text is present and holds a non-whitespace character |
| Reviews.ReviewsOf | main.py:178 | a body without `reviews` contributes no records |
| Reviews.FilterReviews | main.py:178-183 | a page contributes at most one text per record, and never an empty one |
| Reviews.FilterMembership | main.py:178-183 | a text is contributed by a page exactly when some accepted record of it strips to that text |
| Reviews.FilterLength | main.py:178-183 | a page contributes exactly as many texts as it has accepted records |
| Reviews.FilterAppend | main.py:178-183 | filtering keeps record order: the texts of earlier records come first |
| Reviews.CollectAppend | main.py:178-183 | the texts of a sequence of pages are those of its parts, in page order |
| Reviews.CollectPrefix | main.py:183 | later pages only append: the texts of the first k pages are a prefix of the texts of all pages |
| Reviews.CollectMembership | main.py:178-183 | a text is collected exactly when one of the completed pages contributes it |
| Reviews.OneHourExample | main.py:132 | with a one-hour threshold a 5000-second review is kept and a 100-second one is dropped |
| Fetch.Backoff | main.py:163-171 | a 429 is followed by a 2 s wait, any other status or an exception by 1 s, a success by none |
| Fetch.FetchPage | main.py:153-173 | one page request makes one to three attempts against the network in order, stops at the first success and returns its body, and gives up only after three failures; the wait is the sum of the failures' backoffs |
| Fetch.TotalBackoffBound | main.py:163-170 | a page's attempts wait at most 2 s each |
| Paginator.NextCursor | main.py:185-187 | the next cursor is the body's cursor when it is present, non-empty and not `"*"`, and none otherwise |
| Paginator.AppendAccepted | main.py:178-183 | the inner loop appends exactly the page's filtered texts, in record order, after the texts already collected |
| Paginator.CompletePage | main.py:178-192 | a successful page is appended to the completed pages, its filtered texts to the collected ones, its cursor becomes the next one, the page count rises by one and one progress update is added, and the loop invariant is kept |
| Paginator.AbandonPage | main.py:172-176 | a page whose three attempts failed, or whose body's `success` is not 1, ends the run without changing the collected texts or the completed pages, with the reason recorded |
| Paginator.ParseReviews | main.py:131-194 | the loop requests at most `max_pages` pages whatever cursors come back; the first request carries `"*"` and each later one the live cursor of the page before; every request follows the retry policy; every completed page had `success` 1; the collected texts are the filtered texts of the completed pages in page and record order; one progress update per completed page; the loop ends only when its guard fails, a page's three attempts all failed, or a body's `success` is not 1 |
| RunProperties.NoRequestAfterEnd | main.py:185-187 | after a page whose cursor is absent, empty or `"*"`, no further page is requested |
| RunProperties.ReportsIncrease | main.py:189-191 | progress updates count pages strictly upward within (0, max_pages], their text counts never decrease, and the last shows the final count |
| RunProperties.EarlierPagesKept | main.py:134-183 | texts from earlier pages are never removed or reordered |
| RunProperties.AttemptBounds | main.py:153-171 | over any number of page requests, at most three attempts and at most 6 s of backoff per request |
| RunProperties.RunBounds | main.py:143-194 | a run makes at most 3 × max_pages attempts and waits at most 6.01 s per page of the cap; a cap below 1 makes no request |
| RunProperties.ExhaustedAfterThree | main.py:153-173 | a run that gave up made exactly three failed attempts for its last page, which yielded no body |
| RunProperties.UnsuccessfulNotRetried | main.py:175-176 | a body with `success` other than 1 comes from the first successful attempt of its page, is not retried and does not count as a completed page |
| RunProperties.AllRateLimited | main.py:153-173 | a server answering every attempt with 429 ends the run after three attempts on the first page, with 6 s of backoff and no texts |
| Settings.GameId | main.py:99 | a known game name gives its table id, any other name gives 252490 |
| Settings.GameTable | main.py:11-20 | the table's eight ids, all positive and pairwise distinct; the selector's "other" entry is not a game name; the fallback id is Rust's |
| Settings.AppId | main.py:90-99 | with the "other" entry selected the typed integer is the id and a blank or non-integer field is an error; otherwise the table lookup |
| Settings.MinHours | main.py:104 | a blank hours field means 0, an integer is taken as is, anything else is an error |
| Settings.MaxPages | main.py:105-107 | the page cap lies in [1, 150]: blank or below 1 gives 20, above 150 gives 150, otherwise unchanged; a non-integer is an error |
| Settings.MaxPagesIdempotent | main.py:105-107 | normalising an already normalised cap changes nothing |
| Settings.StartParsing | main.py:101-110 | the inputs are accepted exactly when the id resolves and both numbers parse; the first failing input names the error; an accepted configuration carries the resolved id, the parsed hours and the normalised page cap, which lies in [1, 150] |
| Session.StartRun | main.py:101-126 | rejected input starts no run; otherwise the run makes between 1 and 150 page requests, at most the normalised page cap, and meets the whole pagination contract (cursor chain, retry policy, stop reasons, collected texts, progress updates, wait) under the normalised configuration |

## Left out

- The window, its widgets, message boxes and the `root.after` hand-over of updates to the UI thread (main.py:22-88, 112-115, 144, 191-192, 201-206): user interface. Progress updates are kept as the pair of pages done and page cap with the text count.
- The worker thread, `asyncio.run`, the semaphore of 12 and the HTTP connector and session (main.py:117-141, 155-159): the loop is sequential, so at most one request is ever in flight and the semaphore bound holds trivially.
- Sleeping as real time (main.py:164, 167, 170, 194): kept only as an integer wait cost.
- Building the HTTP request and decoding JSON (main.py:146-151, 161): replaced by the `Network` function; a 200 whose body does not decode is `Raised`.
- Python's `int()` grammar for the text fields (main.py:94, 104-105): fields arrive as blank, an integer, or not an integer.
- A decoded body that is not a JSON object, or a `review` that is `null` (main.py:175, 181): both raise outside the `try`, end the worker with an error dialog and write no file; the model's records and bodies are always well-typed.
- Writing the output file and computing its path (main.py:196-200): input/output.
- The float `pages_done / max_pages` (main.py:190): kept as the integer pair in `Report`.
