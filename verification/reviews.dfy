/** One page of the review API and the filter applied to its records. */
module Reviews {
  import opened Wrappers
  import opened Text

  /** The `author` object of a review record. */
  datatype Author = Author(playtimeForever: Option<int>)

  /** One element of a page's `reviews` array; every key may be absent. */
  datatype RawReview = RawReview(author: Option<Author>, review: Option<string>)

  /** A decoded response body: `success`, `reviews` and `cursor`, each of
      which may be absent (an absent or null `cursor` is `None`). */
  datatype Body = Body(success: Option<int>, reviews: Option<seq<RawReview>>, cursor: Option<string>)

  /** Seconds per hour: the threshold is entered in hours and compared in seconds. */
  const SECONDS_PER_HOUR := 3600

  /** The author's total playtime in seconds; 0 when the author object or
      its `playtime_forever` key is absent. */
  function Playtime(rev: RawReview): (p: int)
    ensures rev.author.None? ==> p == 0
    ensures rev.author.Some? && rev.author.value.playtimeForever.None? ==> p == 0
    ensures rev.author.Some? && rev.author.value.playtimeForever.Some? ==>
              p == rev.author.value.playtimeForever.value
  {
    rev.author.GetOr(Author(None)).playtimeForever.GetOr(0)
  }

  /** The review text with surrounding whitespace stripped; "" when absent. */
  function Stripped(rev: RawReview): (t: string)
    ensures rev.review.None? ==> t == ""
    ensures rev.review.Some? ==> t == Strip(rev.review.value)
  {
    Strip(rev.review.GetOr(""))
  }

  /** The filter: enough playtime and a text that is not blank. */
  predicate Accept(rev: RawReview, minSec: int)
  {
    Playtime(rev) >= minSec && Stripped(rev) != ""
  }

  /** A record is accepted exactly when its author's playtime reaches the
      threshold and its raw text holds a non-whitespace character; absent
      fields never pass a positive threshold or count as text. */
  lemma AcceptIff(rev: RawReview, minSec: int)
    ensures Accept(rev, minSec) <==>
              && Playtime(rev) >= minSec
              && rev.review.Some?
              && exists i :: 0 <= i < |rev.review.value| && !IsSpace(rev.review.value[i])
  {
    if rev.review.Some? {
      StripSpec(rev.review.value);
    }
  }

  /** The records of a page; a body without `reviews` has none. */
  function ReviewsOf(b: Body): (rs: seq<RawReview>)
    ensures b.reviews.None? ==> rs == []
    ensures b.reviews.Some? ==> rs == b.reviews.value
  {
    b.reviews.GetOr([])
  }

  /** The stripped texts of the accepted records of `rs`, in record order. */
  function FilterReviews(rs: seq<RawReview>, minSec: int): (out: seq<string>)
    ensures |out| <= |rs|
    ensures "" !in out
    decreases |rs|
  {
    if |rs| == 0 then []
    else
      var last := rs[|rs| - 1];
      var front := FilterReviews(rs[..|rs| - 1], minSec);
      if Accept(last, minSec) then front + [Stripped(last)]
      else front
  }

  /** Filtering one more record appends its text when it is accepted. */
  lemma FilterSnoc(rs: seq<RawReview>, k: nat, minSec: int)
    requires k < |rs|
    ensures FilterReviews(rs[..k + 1], minSec) ==
              FilterReviews(rs[..k], minSec) + (if Accept(rs[k], minSec) then [Stripped(rs[k])] else [])
  {
    assert rs[..k + 1][..k] == rs[..k];
  }

  /** Filtering distributes over concatenation: the records of `a` are
      processed, and appear, before those of `b`. */
  lemma {:induction false} FilterAppend(a: seq<RawReview>, b: seq<RawReview>, minSec: int)
    ensures FilterReviews(a + b, minSec) == FilterReviews(a, minSec) + FilterReviews(b, minSec)
    decreases |b|
  {
    if |b| == 0 {
      assert a + b == a;
    } else {
      var b' := b[..|b| - 1];
      assert (a + b)[..|a + b| - 1] == a + b';
      assert (a + b)[|a + b| - 1] == b[|b| - 1];
      FilterAppend(a, b', minSec);
    }
  }

  /** A text is in the filtered output exactly when some accepted record
      strips to it. */
  lemma {:induction false} FilterMembership(rs: seq<RawReview>, minSec: int, t: string)
    ensures t in FilterReviews(rs, minSec) <==>
              exists i :: 0 <= i < |rs| && Accept(rs[i], minSec) && Stripped(rs[i]) == t
    decreases |rs|
  {
    if |rs| > 0 {
      var front := rs[..|rs| - 1];
      var last := rs[|rs| - 1];
      FilterMembership(front, minSec, t);
      var out := FilterReviews(rs, minSec);
      var outFront := FilterReviews(front, minSec);
      assert out == (if Accept(last, minSec) then outFront + [Stripped(last)] else outFront);
      if t in out {
        if t in outFront {
          var i :| 0 <= i < |front| && Accept(front[i], minSec) && Stripped(front[i]) == t;
          assert rs[i] == front[i];
        } else {
          assert Accept(rs[|rs| - 1], minSec) && Stripped(rs[|rs| - 1]) == t;
        }
      }
      if exists i :: 0 <= i < |rs| && Accept(rs[i], minSec) && Stripped(rs[i]) == t {
        var i :| 0 <= i < |rs| && Accept(rs[i], minSec) && Stripped(rs[i]) == t;
        if i < |rs| - 1 {
          assert front[i] == rs[i];
          assert t in outFront;
        }
      }
    }
  }

  /** The number of accepted records among `rs`. */
  function CountAccepted(rs: seq<RawReview>, minSec: int): (n: nat)
    decreases |rs|
  {
    if |rs| == 0 then 0
    else CountAccepted(rs[..|rs| - 1], minSec) + (if Accept(rs[|rs| - 1], minSec) then 1 else 0)
  }

  /** The page contributes one text per accepted record, no more, no fewer. */
  lemma {:induction false} FilterLength(rs: seq<RawReview>, minSec: int)
    ensures |FilterReviews(rs, minSec)| == CountAccepted(rs, minSec)
    decreases |rs|
  {
    if |rs| > 0 {
      FilterLength(rs[..|rs| - 1], minSec);
    }
  }

  /** The texts a successful page contributes. */
  function Accepted(b: Body, minSec: int): seq<string>
  {
    FilterReviews(ReviewsOf(b), minSec)
  }

  /** The texts of a sequence of pages, in page order and, within each
      page, in record order. */
  function Collect(pages: seq<Body>, minSec: int): (out: seq<string>)
    decreases |pages|
  {
    if |pages| == 0 then []
    else Collect(pages[..|pages| - 1], minSec) + Accepted(pages[|pages| - 1], minSec)
  }

  /** Collecting distributes over concatenation of page sequences. */
  lemma {:induction false} CollectAppend(a: seq<Body>, b: seq<Body>, minSec: int)
    ensures Collect(a + b, minSec) == Collect(a, minSec) + Collect(b, minSec)
    decreases |b|
  {
    if |b| == 0 {
      assert a + b == a;
    } else {
      var b', x := b[..|b| - 1], b[|b| - 1];
      var ab := a + b';
      assert a + b == ab + [x];
      assert (ab + [x])[..|ab|] == ab;
      CollectAppend(a, b', minSec);
      assert Collect(b, minSec) == Collect(b', minSec) + Accepted(x, minSec);
    }
  }

  /** Later pages only add: the texts of the first `k` pages are a prefix
      of the texts of all pages, so no earlier text is dropped or moved. */
  lemma CollectPrefix(pages: seq<Body>, k: nat, minSec: int)
    requires k <= |pages|
    ensures Collect(pages[..k], minSec) <= Collect(pages, minSec)
  {
    assert pages == pages[..k] + pages[k..];
    CollectAppend(pages[..k], pages[k..], minSec);
  }

  /** A record is collected exactly when it sits on one of the pages and passes the filter. */
  lemma {:induction false} CollectMembership(pages: seq<Body>, minSec: int, t: string)
    ensures t in Collect(pages, minSec) <==>
              exists p :: 0 <= p < |pages| && t in Accepted(pages[p], minSec)
    decreases |pages|
  {
    if |pages| > 0 {
      var front := pages[..|pages| - 1];
      CollectMembership(front, minSec, t);
      if exists p :: 0 <= p < |pages| && t in Accepted(pages[p], minSec) {
        var p :| 0 <= p < |pages| && t in Accepted(pages[p], minSec);
        if p < |pages| - 1 {
          assert front[p] == pages[p];
        }
      }
    }
  }

  /** With a one-hour threshold, a 5000-second review is kept and a
      100-second one is dropped. */
  lemma OneHourExample()
    ensures FilterReviews([RawReview(Some(Author(Some(5000))), Some("good text")),
                           RawReview(Some(Author(Some(100))), Some("short"))],
                          1 * SECONDS_PER_HOUR) == ["good text"]
  {
  }
}
