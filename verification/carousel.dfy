/** The skip carousel: screen-size breakpoints, skips per page, page count,
    wrap-around paging and the slice of skips each page shows. JavaScript's
    `%` is modelled as it behaves: truncating, and `NaN` (here `None`) for a
    zero divisor. */
module Carousel {
  import opened Wrappers

  datatype ScreenSize = Small | Medium | Large

  /** `updateScreenSize`: below 640 px is small, below 1024 px medium. */
  function ScreenSizeFor(innerWidth: int): (sz: ScreenSize)
    ensures sz == Small <==> innerWidth < 640
    ensures sz == Medium <==> 640 <= innerWidth < 1024
    ensures sz == Large <==> 1024 <= innerWidth
  {
    if innerWidth < 640 then Small
    else if innerWidth < 1024 then Medium
    else Large
  }

  /** `getSkipsPerPage`: one skip per page on small screens, three otherwise. */
  function SkipsPerPage(sz: ScreenSize): (n: int)
    ensures n >= 1
    ensures n == 1 <==> sz == Small
    ensures n == 1 || n == 3
  {
    if sz == Small then 1 else 3
  }

  /** Wider screens never show fewer skips per page. */
  lemma SkipsPerPageMonotone(w1: int, w2: int)
    requires w1 <= w2
    ensures SkipsPerPage(ScreenSizeFor(w1)) <= SkipsPerPage(ScreenSizeFor(w2))
  {
  }

  /** `Math.ceil(n / perPage)`: the fewest pages of `perPage` that hold `n`. */
  function TotalPages(n: nat, perPage: int): (t: nat)
    requires perPage >= 1
    ensures t * perPage >= n
    ensures t > 0 ==> (t - 1) * perPage < n
    ensures t == 0 <==> n == 0
  {
    (n + perPage - 1) / perPage
  }

  function Abs(x: int): int {
    if x < 0 then -x else x
  }

  /** JavaScript's integer quotient, truncated toward zero. */
  function TruncQuot(a: int, b: int): int
    requires b != 0
  {
    if a >= 0 then a / b else -((-a) / b)
  }

  /** JavaScript's `a % b`: the remainder left by the truncated quotient, so it
      takes the sign of `a`; a zero divisor gives `NaN`. */
  function JsRem(a: int, b: int): (r: Option<int>)
    ensures r.None? <==> b == 0
    ensures r.Some? && a >= 0 ==> 0 <= r.value < Abs(b)
    ensures r.Some? && a < 0 ==> -Abs(b) < r.value <= 0
  {
    if b == 0 then None
    else if a >= 0 then Some(a % b)
    else Some(-((-a) % b))
  }

  /** The remainder is what the truncated quotient leaves: `a == q * b + r`. */
  lemma JsRemQuotient(a: int, b: int)
    requires b != 0
    ensures a == TruncQuot(a, b) * b + JsRem(a, b).value
  {
    if a < 0 {
      assert -a == ((-a) / b) * b + (-a) % b;
    }
  }

  lemma MulAtLeast(k: int, m: int)
    requires k >= 1 && m > 0
    ensures k * m >= m
  {
  }

  /** Quotient and remainder of a Euclidean division are unique. */
  lemma ModUnique(a: int, m: int, q: int, r: int)
    requires 0 < m && 0 <= r < m && a == q * m + r
    ensures a % m == r
  {
    var q', r' := a / m, a % m;
    assert a == q' * m + r';
    if q > q' {
      MulAtLeast(q - q', m);
    } else if q < q' {
      MulAtLeast(q' - q, m);
    }
  }

  lemma ModSmall(x: int, m: int)
    requires 0 <= x < m
    ensures x % m == x
  {
    ModUnique(x, m, 0, x);
  }

  lemma ModShift(x: int, m: int)
    requires 0 < m
    ensures (x + m) % m == x % m
  {
    assert x == (x / m) * m + x % m;
    assert x + m == (x / m + 1) * m + x % m;
    ModUnique(x + m, m, x / m + 1, x % m);
  }

  /** `nextSlide`: `(prev + 1) % totalPages`. */
  function NextSlide(prev: int, totalPages: int): (r: Option<int>)
    ensures r.None? <==> totalPages == 0
    ensures prev >= 0 && totalPages > 0 ==> 0 <= r.value < totalPages
  {
    JsRem(prev + 1, totalPages)
  }

  /** `prevSlide`: `(prev - 1 + totalPages) % totalPages`. */
  function PrevSlide(prev: int, totalPages: int): (r: Option<int>)
    ensures r.None? <==> totalPages == 0
    ensures prev >= 0 && totalPages > 0 ==> 0 <= r.value < totalPages
  {
    JsRem(prev - 1 + totalPages, totalPages)
  }

  /** Either button keeps an in-range index in range; with no pages the index
      becomes `NaN`. */
  lemma SlidesStayInRange(idx: int, totalPages: int)
    requires 0 <= idx < totalPages
    ensures NextSlide(idx, totalPages).Some? && 0 <= NextSlide(idx, totalPages).value < totalPages
    ensures PrevSlide(idx, totalPages).Some? && 0 <= PrevSlide(idx, totalPages).value < totalPages
    ensures NextSlide(idx, totalPages).value == if idx + 1 == totalPages then 0 else idx + 1
    ensures PrevSlide(idx, totalPages).value == if idx == 0 then totalPages - 1 else idx - 1
  {
    assert NextSlide(idx, totalPages) == Some((idx + 1) % totalPages);
    assert PrevSlide(idx, totalPages) == Some((idx - 1 + totalPages) % totalPages);
    if idx + 1 == totalPages {
      ModUnique(idx + 1, totalPages, 1, 0);
    } else {
      ModSmall(idx + 1, totalPages);
    }
    if idx > 0 {
      ModShift(idx - 1, totalPages);
      ModSmall(idx - 1, totalPages);
    } else {
      ModSmall(totalPages - 1, totalPages);
    }
  }

  lemma NoPagesGivesNaN(idx: int)
    ensures NextSlide(idx, 0).None? && PrevSlide(idx, 0).None?
  {
  }

  /** Next and previous undo each other on in-range indices. */
  lemma SlidesInverse(idx: int, totalPages: int)
    requires 0 <= idx < totalPages
    ensures PrevSlide(NextSlide(idx, totalPages).value, totalPages) == Some(idx)
    ensures NextSlide(PrevSlide(idx, totalPages).value, totalPages) == Some(idx)
  {
    SlidesStayInRange(idx, totalPages);
    SlidesStayInRange(NextSlide(idx, totalPages).value, totalPages);
    SlidesStayInRange(PrevSlide(idx, totalPages).value, totalPages);
  }

  /** `k` presses of next (or autoplay ticks); `NaN` stays `NaN`. */
  function NextTimes(idx: Option<int>, totalPages: int, k: nat): Option<int>
    decreases k
  {
    if k == 0 then idx
    else match idx
      case None => None
      case Some(i) => NextTimes(NextSlide(i, totalPages), totalPages, k - 1)
  }

  lemma {:induction false} NextTimesAdvances(idx: int, totalPages: int, k: nat)
    requires 0 <= idx < totalPages
    ensures NextTimes(Some(idx), totalPages, k) == Some((idx + k) % totalPages)
    decreases k
  {
    if k > 0 {
      SlidesStayInRange(idx, totalPages);
      var next := NextSlide(idx, totalPages).value;
      assert next == (idx + 1) % totalPages;
      NextTimesAdvances(next, totalPages, k - 1);
      ModAddOne(idx, totalPages, k - 1);
    }
  }

  lemma ModAddOne(idx: int, m: int, k: nat)
    requires 0 <= idx < m
    ensures ((idx + 1) % m + k) % m == (idx + k + 1) % m
  {
    if idx + 1 == m {
      ModUnique(idx + 1, m, 1, 0);
      assert (idx + 1) % m + k == k;
      assert idx + k + 1 == k + m;
      ModShift(k, m);
    } else {
      ModSmall(idx + 1, m);
    }
  }

  /** `totalPages` presses of next return to the starting page. */
  lemma NextCycleReturns(idx: int, totalPages: int)
    requires 0 <= idx < totalPages
    ensures NextTimes(Some(idx), totalPages, totalPages) == Some(idx)
  {
    NextTimesAdvances(idx, totalPages, totalPages);
    ModShift(idx, totalPages);
    ModSmall(idx, totalPages);
  }

  /** The pagination dots, one per page in page order, rendered only when
      there is more than one page. */
  function Dots(totalPages: nat): (ds: seq<int>)
    ensures |ds| == if totalPages > 1 then totalPages else 0
    ensures forall i :: 0 <= i < |ds| ==> ds[i] == i
  {
    if totalPages > 1 then seq(totalPages, i => i) else []
  }

  /** `skips.slice(page * perPage, (page + 1) * perPage)`, clamped as `slice` clamps. */
  function PageSlice<T>(s: seq<T>, page: nat, perPage: int): (r: seq<T>)
    requires perPage >= 1
    ensures |r| <= perPage
    ensures page * perPage < |s| ==> |r| >= 1
    ensures forall i :: 0 <= i < |r| ==> page * perPage + i < |s| && r[i] == s[page * perPage + i]
    ensures page * perPage + perPage <= |s| ==> |r| == perPage
  {
    var start := page * perPage;
    assert (page + 1) * perPage == start + perPage;
    var lo := if start < |s| then start else |s|;
    var hi := if start + perPage < |s| then start + perPage else |s|;
    s[lo..hi]
  }

  /** The pages the carousel renders, one per page index. */
  function Pages<T>(s: seq<T>, perPage: int): (ps: seq<seq<T>>)
    requires perPage >= 1
    ensures |ps| == TotalPages(|s|, perPage)
  {
    seq(TotalPages(|s|, perPage), p requires 0 <= p => PageSlice(s, p, perPage))
  }

  function Flatten<T>(ss: seq<seq<T>>): seq<T> {
    if |ss| == 0 then [] else ss[0] + Flatten(ss[1..])
  }

  /** The pages cover the skips exactly once and in order, and none is empty. */
  lemma PagesPartition<T>(s: seq<T>, perPage: int)
    requires perPage >= 1
    ensures Flatten(Pages(s, perPage)) == s
    ensures forall p :: 0 <= p < |Pages(s, perPage)| ==> 1 <= |Pages(s, perPage)[p]| <= perPage
  {
    PagesFrom(s, perPage, 0);
    forall p | 0 <= p < |Pages(s, perPage)|
      ensures 1 <= |Pages(s, perPage)[p]|
    {
      assert p * perPage < |s| by {
        assert p <= TotalPages(|s|, perPage) - 1;
        MulLeft(p, TotalPages(|s|, perPage) - 1, perPage);
      }
    }
  }

  lemma MulLeft(a: int, b: int, c: nat)
    requires a <= b
    ensures a * c <= b * c
  {
  }

  /** Pages `p` onward flatten to the skips from `p * perPage` onward. */
  lemma {:induction false} PagesFrom<T>(s: seq<T>, perPage: int, p: nat)
    requires perPage >= 1
    requires p <= TotalPages(|s|, perPage)
    ensures var ps := Pages(s, perPage);
      && (p * perPage <= |s| || p == TotalPages(|s|, perPage))
      && Flatten(ps[p..]) == s[if p * perPage < |s| then p * perPage else |s|..]
    decreases TotalPages(|s|, perPage) - p
  {
    var ps := Pages(s, perPage);
    var total := TotalPages(|s|, perPage);
    if p == total {
      assert ps[p..] == [];
      if p * perPage < |s| {
        assert false;
      }
    } else {
      var start := p * perPage;
      MulLeft(p, total - 1, perPage);
      assert start < |s|;
      var next := (p + 1) * perPage;
      assert next == start + perPage;
      PagesFrom(s, perPage, p + 1);
      var mid := if next < |s| then next else |s|;
      assert Flatten(ps[p + 1..]) == s[mid..];
      assert ps[p] == s[start..mid];
      assert ps[p..] == [ps[p]] + ps[p + 1..];
      assert Flatten(ps[p..]) == ps[p] + Flatten(ps[p + 1..]);
      assert s[start..] == s[start..mid] + s[mid..];
    }
  }

  /** The "Showing a-b of n" caption. */
  function ShowingRange(idx: int, perPage: int, n: int): (r: (int, int))
    ensures r.1 <= n
    ensures r.1 - r.0 < perPage
  {
    (idx * perPage + 1, if (idx + 1) * perPage < n then (idx + 1) * perPage else n)
  }

  /** On a valid page the caption is a non-empty range inside 1..n, and it
      counts exactly the skips that page shows. */
  lemma ShowingRangeBounds<T>(s: seq<T>, idx: nat, perPage: int)
    requires perPage >= 1
    requires |s| > 0 && idx < TotalPages(|s|, perPage)
    ensures var (first, last) := ShowingRange(idx, perPage, |s|);
      && 1 <= first <= last <= |s|
      && last - first + 1 == |PageSlice(s, idx, perPage)|
      && PageSlice(s, idx, perPage) == s[first - 1..last]
  {
    MulLeft(idx, TotalPages(|s|, perPage) - 1, perPage);
    assert (idx + 1) * perPage == idx * perPage + perPage;
  }

  // ---------------------------------------------------------------------------
  // The carousel's own state: the page index and the screen size

  datatype CarouselState = CarouselState(index: int, screen: ScreenSize)

  function PerPage(c: CarouselState): int {
    SkipsPerPage(c.screen)
  }

  /** A window resize (`updateScreenSize`): the screen size follows the width
      and the page index is left as it was. */
  function Resize(c: CarouselState, innerWidth: int): (r: CarouselState)
    ensures r.screen == ScreenSizeFor(innerWidth) && r.index == c.index
  {
    c.(screen := ScreenSizeFor(innerWidth))
  }

  /** `goToSlide(index)`: a pagination dot sets its page, without a range check. */
  function GoToSlide(c: CarouselState, index: int): (r: CarouselState)
    ensures r.index == index && r.screen == c.screen
  {
    c.(index := index)
  }

  /** A dot leads to a page exactly when dots are shown at all (more than one
      page) and the page is in range. */
  lemma DotsReachEveryPage(c: CarouselState, totalPages: nat, page: int)
    ensures (exists i :: 0 <= i < |Dots(totalPages)| && GoToSlide(c, Dots(totalPages)[i]).index == page)
        <==> totalPages > 1 && 0 <= page < totalPages
  {
    if totalPages > 1 && 0 <= page < totalPages {
      assert GoToSlide(c, Dots(totalPages)[page]).index == page;
    }
  }

  /** The caption as written: computed from the stored index, which nothing
      brings back in range when the page count shrinks. */
  function CaptionAsWritten(c: CarouselState, n: int): (r: (int, int))
    ensures r.1 <= n
  {
    ShowingRange(c.index, PerPage(c), n)
  }

  /** After four presses of next through five skips on a phone, widening the
      window to 1280 px leaves the index at 4 of 2 pages: "Showing 13-5 of 5". */
  lemma StaleIndexCaption()
    ensures NextTimes(Some(0), TotalPages(5, SkipsPerPage(Small)), 4) == Some(4)
    ensures var c := Resize(CarouselState(4, Small), 1280);
      && TotalPages(5, PerPage(c)) == 2
      && CaptionAsWritten(c, 5) == (13, 5)
  {
    NextTimesAdvances(0, 5, 4);
    ModSmall(4, 5);
  }

  /** An index pulled back into `[0, totalPages)`: the last page when it is
      past the end. */
  function ClampPage(idx: int, totalPages: nat): (p: int)
    ensures totalPages > 0 ==> 0 <= p < totalPages
    ensures 0 <= idx < totalPages ==> p == idx
    ensures totalPages > 0 && idx >= totalPages ==> p == totalPages - 1
  {
    if idx >= totalPages then (if totalPages > 0 then totalPages - 1 else 0)
    else if idx < 0 then 0
    else idx
  }

  /** The caption for the page actually on screen: the stored index clamped
      to the current page count. */
  function Caption(c: CarouselState, n: nat): (r: (int, int))
  {
    ShowingRange(ClampPage(c.index, TotalPages(n, PerPage(c))), PerPage(c), n)
  }

  /** Whatever resizes and re-fetches did to the index, the clamped caption is
      a non-empty range inside 1..n describing a real page, and it agrees
      with the caption as written whenever the stored index is in range. */
  lemma CaptionBounds<T>(c: CarouselState, s: seq<T>)
    requires |s| > 0
    ensures var (first, last) := Caption(c, |s|);
      var page := ClampPage(c.index, TotalPages(|s|, PerPage(c)));
      && 1 <= first <= last <= |s|
      && page >= 0
      && PageSlice(s, page, PerPage(c)) == s[first - 1..last]
    ensures 0 <= c.index < TotalPages(|s|, PerPage(c)) ==> Caption(c, |s|) == CaptionAsWritten(c, |s|)
  {
    var page := ClampPage(c.index, TotalPages(|s|, PerPage(c)));
    ShowingRangeBounds(s, page, PerPage(c));
  }
}
