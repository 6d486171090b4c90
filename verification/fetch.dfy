/** One page request and its retry policy: up to three attempts, with a
    fixed backoff after every failed one. */
module Fetch {
  import opened Wrappers
  import opened Reviews

  /** The query of one page request. The fixed parameters (`json=1`,
      `language=russian`, `num_per_page=20`) are the same for every request
      and are not carried. */
  datatype Request = Request(appId: int, cursor: string)

  /** The outcome of one attempt: HTTP 200 with a body that decodes, HTTP
      429, any other status, or an exception raised by the transport or by
      decoding the body of a 200. */
  datatype Attempt = Ok(body: Body) | TooMany | OtherStatus | Raised

  /** The review server: the outcome of attempt number `attempt` (from 0)
      of the request for page number `page` (from 0). Every run is
      deterministic given this function, so it may model any sequence of
      responses. */
  type Network = (Request, nat, nat) -> Attempt

  /** Attempts per page: `for attempt in range(3)`. */
  const MAX_ATTEMPTS: nat := 3

  /** Backoff in hundredths of a second after a failed attempt. */
  const BACKOFF_TOO_MANY: nat := 200
  const BACKOFF_OTHER: nat := 100

  /** The wait that follows an attempt: 2 s after a 429, 1 s after any other
      failure, none after a success. */
  function Backoff(a: Attempt): (w: nat)
    ensures a.Ok? <==> w == 0
    ensures a.TooMany? ==> w == BACKOFF_TOO_MANY
    ensures a.OtherStatus? || a.Raised? ==> w == BACKOFF_OTHER
    ensures w <= BACKOFF_TOO_MANY
  {
    match a
    case Ok(_) => 0
    case TooMany => BACKOFF_TOO_MANY
    case OtherStatus => BACKOFF_OTHER
    case Raised => BACKOFF_OTHER
  }

  /** The total backoff of a sequence of attempts. */
  function TotalBackoff(log: seq<Attempt>): (w: nat)
    decreases |log|
  {
    if |log| == 0 then 0 else TotalBackoff(log[..|log| - 1]) + Backoff(log[|log| - 1])
  }

  /** The attempts of one page obey the retry policy: at least one and at
      most three, every attempt but the last failed, and the attempts stop
      early only on a success. */
  predicate RetryLog(log: seq<Attempt>)
  {
    && 1 <= |log| <= MAX_ATTEMPTS
    && (forall j :: 0 <= j < |log| - 1 ==> !log[j].Ok?)
    && (log[|log| - 1].Ok? || |log| == MAX_ATTEMPTS)
  }

  /** The body a page's attempts produced, if the last one succeeded. */
  function Fetched(log: seq<Attempt>): (b: Option<Body>)
  {
    if |log| > 0 && log[|log| - 1].Ok? then Some(log[|log| - 1].body) else None
  }

  /** Fetches one page, retrying up to three times. Returns the decoded
      body of the first successful attempt, or `None` when all three failed;
      `log` lists the outcomes of the attempts made and `wait` the backoff
      spent. */
  method FetchPage(net: Network, req: Request, page: nat)
    returns (got: Option<Body>, log: seq<Attempt>, wait: nat)
    ensures RetryLog(log)
    ensures forall j :: 0 <= j < |log| ==> log[j] == net(req, page, j)
    ensures got == Fetched(log)
    ensures got.None? ==> |log| == MAX_ATTEMPTS
    ensures wait == TotalBackoff(log)
  {
    log := [];
    wait := 0;
    var attempt := 0;
    while attempt < MAX_ATTEMPTS
      invariant 0 <= attempt <= MAX_ATTEMPTS
      invariant |log| == attempt
      invariant forall j :: 0 <= j < attempt ==> log[j] == net(req, page, j) && !log[j].Ok?
      invariant wait == TotalBackoff(log)
    {
      var a := net(req, page, attempt);
      log := log + [a];
      assert log[..|log| - 1] == log[..attempt];
      if a.Ok? {
        got := Some(a.body);
        return;
      }
      wait := wait + Backoff(a);
      attempt := attempt + 1;
    }
    got := None;
  }

  /** A page's attempts cost at most three 429 backoffs. */
  lemma {:induction false} TotalBackoffBound(log: seq<Attempt>)
    ensures TotalBackoff(log) <= |log| * BACKOFF_TOO_MANY
    decreases |log|
  {
    if |log| > 0 {
      TotalBackoffBound(log[..|log| - 1]);
    }
  }
}
