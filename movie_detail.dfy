/**
 * frontend/src/app/movie-detail-page/movie-detail-page.component.ts: the movie
 * detail page. Its logic is the five-star vector of a rating, a watchlist flag
 * the button flips, and the user's own rating; each action announces itself in
 * an alert, recorded here in order.
 */
module MovieDetail {
  import opened Seqs

  /** `getStars`: star `i` is full below the rating's floor, half below the rating, otherwise empty. */
  function GetStars(rating: real): (r: seq<real>)
    ensures |r| == 5
    ensures forall i :: 0 <= i < 5 ==> r[i] == 1.0 || r[i] == 0.5 || r[i] == 0.0
  {
    seq(5, i requires 0 <= i < 5 => if i < rating.Floor then 1.0 else if (i as real) < rating then 0.5 else 0.0)
  }

  /** What star `i` is, by where `i` lies against the rating and its floor. */
  lemma StarsSpec(rating: real, i: int)
    requires 0 <= i < 5
    ensures GetStars(rating)[i] == 1.0 <==> i < rating.Floor
    ensures GetStars(rating)[i] == 0.5 <==> rating.Floor <= i && (i as real) < rating
    ensures GetStars(rating)[i] == 0.0 <==> (i as real) >= rating
  {
    assert (i as real) < rating <== i < rating.Floor;
  }

  /** Stars never increase from left to right, and at most one is a half star. */
  lemma StarsShape(rating: real)
    ensures forall i, j :: 0 <= i < j < 5 ==> GetStars(rating)[i] >= GetStars(rating)[j]
    ensures forall i, j :: 0 <= i < 5 && 0 <= j < 5 && GetStars(rating)[i] == 0.5 && GetStars(rating)[j] == 0.5 ==> i == j
  {
    forall i, j | 0 <= i < j < 5 ensures GetStars(rating)[i] >= GetStars(rating)[j] {
      StarsSpec(rating, i);
      StarsSpec(rating, j);
    }
    forall i, j | 0 <= i < 5 && 0 <= j < 5 && GetStars(rating)[i] == 0.5 && GetStars(rating)[j] == 0.5 ensures i == j {
      StarsSpec(rating, i);
      StarsSpec(rating, j);
      assert rating.Floor as real <= rating < rating.Floor as real + 1.0;
    }
  }

  /** The full stars are exactly the first `k`, so there are `k` of them. */
  lemma {:induction false} CountLeadingFull(s: seq<real>, k: int)
    requires forall i :: 0 <= i < |s| ==> (s[i] == 1.0 <==> i < k)
    ensures Count(s, 1.0) == if k < 0 then 0 else if k > |s| then |s| else k
  {
    if s != [] {
      CountLeadingFull(s[1..], k - 1);
    }
  }

  /** The number of full stars is the rating's floor, clamped to between 0 and 5. */
  lemma FullStars(rating: real)
    ensures Count(GetStars(rating), 1.0) == if rating.Floor < 0 then 0 else if rating.Floor > 5 then 5 else rating.Floor
  {
    forall i | 0 <= i < 5 ensures GetStars(rating)[i] == 1.0 <==> i < rating.Floor {
      StarsSpec(rating, i);
    }
    CountLeadingFull(GetStars(rating), rating.Floor);
  }

  class MovieDetailPageComponent {
    const title: string
    var isInWatchlist: bool
    var userRating: real
    /** The alerts shown, in order. */
    var alerts: seq<string>
    /** The texts written to the clipboard, in order. */
    var clipboard: seq<string>

    constructor (title: string)
      ensures this.title == title && !isInWatchlist && userRating == 0.0 && alerts == [] && clipboard == []
    {
      this.title := title;
      isInWatchlist := false;
      userRating := 0.0;
      alerts := [];
      clipboard := [];
    }

    /** Announces the redirect to the player. */
    method WatchNow()
      modifies this`alerts
      ensures alerts == old(alerts) + ["Redirecting to watch " + title]
    {
      alerts := alerts + ["Redirecting to watch " + title];
    }

    /**
     * Shares the page at `url`. Without the Web Share API (`navigator.share?.`
     * short-circuits) nothing happens, nor when the share succeeds. When the
     * share is rejected, the URL goes to the clipboard and an alert says so.
     */
    method Share(url: string, shareAvailable: bool, shareRejected: bool)
      modifies this`alerts, this`clipboard
      ensures shareAvailable && shareRejected ==>
        clipboard == old(clipboard) + [url] && alerts == old(alerts) + ["Movie link copied to clipboard!"]
      ensures !(shareAvailable && shareRejected) ==> clipboard == old(clipboard) && alerts == old(alerts)
    {
      if shareAvailable && shareRejected {
        clipboard := clipboard + [url];
        alerts := alerts + ["Movie link copied to clipboard!"];
      }
    }

    /** Flips the watchlist flag and announces which way it went. */
    method AddToWatchlist()
      modifies this`isInWatchlist, this`alerts
      ensures isInWatchlist == !old(isInWatchlist)
      ensures alerts == old(alerts) + [title + " " + (if isInWatchlist then "added to" else "removed from") + " watchlist"]
    {
      isInWatchlist := !isInWatchlist;
      var action := if isInWatchlist then "added to" else "removed from";
      alerts := alerts + [title + " " + action + " watchlist"];
    }

    /** Records the user's rating and announces it. */
    method RateMovie(rating: int)
      modifies this`userRating, this`alerts
      ensures userRating == rating as real
      ensures alerts == old(alerts) + ["You rated " + title + " " + IntText(rating) + " stars"]
    {
      userRating := rating as real;
      alerts := alerts + ["You rated " + title + " " + IntText(rating) + " stars"];
    }
  }

  /**
   * The decimal text of an integer, as a template literal writes it: a minus
   * sign for a negative number, then the digits of its magnitude, most
   * significant first, with no leading zero.
   */
  function IntText(n: int): (r: string)
    ensures r != []
    ensures n >= 0 ==> AllDigits(r) && DecimalValue(r) == n
    ensures n > 0 ==> r[0] != '0'
    ensures n < 0 ==> r[0] == '-' && AllDigits(r[1..]) && DecimalValue(r[1..]) == -n && r[1] != '0'
    decreases if n < 0 then -n + 1 else n
  {
    if n < 0 then
      var t := IntText(-n);
      assert ("-" + t)[1..] == t;
      "-" + t
    else if n < 10 then
      assert [Digit(n)][..0] == [];
      [Digit(n)]
    else
      var t := IntText(n / 10);
      assert (t + [Digit(n % 10)])[..|t|] == t;
      t + [Digit(n % 10)]
  }

  function Digit(d: int): (c: char)
    requires 0 <= d < 10
    ensures '0' <= c <= '9' && DigitValue(c) == d
  {
    (48 + d) as char
  }

  predicate AllDigits(s: string) {
    forall k :: 0 <= k < |s| ==> '0' <= s[k] <= '9'
  }

  function DigitValue(c: char): int {
    c as int - 48
  }

  /** The number a string of decimal digits spells, most significant digit first. */
  function DecimalValue(s: string): int {
    if s == [] then 0 else 10 * DecimalValue(s[..|s| - 1]) + DigitValue(s[|s| - 1])
  }
}
