/**
  Company Health scoring in numbers: what each signal weighs alone, and in which direction a better figure moves it.
*/
module HealthLaws {
  import opened Options
  import opened Text
  import opened HealthScore

  // ---- Reviews ----

  /** What the three figures of a review weigh one by one; a review weighs their sum. */
  lemma {:induction false} ReviewInFigures(review: Review)
    ensures var r := review.rating;
      var p, c := if review.recommendPercent.Some? then review.recommendPercent.value else 60,
                  if review.ceoApprovalPercent.Some? then review.ceoApprovalPercent.value else 60;
      && TotalScore([review]) ==
           (if 0.0 < r < 3.0 then -8 else if 3.0 <= r < 3.5 then -3 else if r >= 4.2 then 3 else 0)
           + (if p < 50 then -6 else if p >= 80 then 2 else 0) + (if c < 50 then -3 else 0)
      && TotalRisk([review]) ==
           (if 0.0 < r < 3.0 then 15 else if 3.0 <= r < 3.5 then 7 else 0)
           + (if p < 50 then 12 else 0) + (if c < 50 then 5 else 0)
  {
    assert [review][..0] == [];
  }

  /** A better figure never lowers the score and never raises the risk. */
  lemma {:induction false} BetterReview(worse: Review, better: Review)
    requires 0.0 < worse.rating <= better.rating
    requires worse.recommendPercent.Some? && better.recommendPercent.Some?
    requires worse.recommendPercent.value <= better.recommendPercent.value
    requires worse.ceoApprovalPercent.Some? && better.ceoApprovalPercent.Some?
    requires worse.ceoApprovalPercent.value <= better.ceoApprovalPercent.value
    ensures ScoreEffect(worse) <= ScoreEffect(better) && RiskEffect(worse) >= RiskEffect(better)
  {
  }

  /** A review counts exactly when it moves the score or the risk. */
  lemma {:induction false} CountsIffItMoves(review: Review)
    ensures Counts(review) <==> TotalScore([review]) != 0 || TotalRisk([review]) != 0
  {
    ReviewInFigures(review);
  }

  /** Reviews add up, in whatever order they come. */
  lemma {:induction false} ReviewsAddUp(a: seq<Review>, b: seq<Review>)
    ensures TotalScore(a + b) == TotalScore(a) + TotalScore(b) && TotalRisk(a + b) == TotalRisk(a) + TotalRisk(b)
    decreases |b|
  {
    if b == [] {
      assert a + b == a;
    } else {
      ReviewsAddUp(a, b[..|b| - 1]);
      assert (a + b)[..|a + b| - 1] == a + b[..|b| - 1];
    }
  }

  // ---- Bands, penalty, adjustment ----

  /** The bands in numbers, and a score cut to 0..100. */
  lemma BandsInNumbers(risk: Risk)
    ensures var r := UpdateLevel(risk);
      && r.score == (if risk.score < 0 then 0 else if risk.score > 100 then 100 else risk.score)
      && (r.level == Critical <==> r.score >= 75) && (r.level == High <==> 50 <= r.score < 75)
      && (r.level == Medium <==> 25 <= r.score < 50) && (r.level == Low <==> r.score < 25)
  {
  }

  /** The penalty in numbers: 30, 15, 5 or nothing by band, then at most 40 or 55, and never out of 0..100. */
  lemma PenaltyInNumbers(score: int, risk: int)
    ensures var taken, cap :=
              if risk >= 75 then 30 else if risk >= 50 then 15 else if risk >= 25 then 5 else 0,
              if risk >= 75 then 40 else if risk >= 50 then 55 else 100;
      FinalScore(score, risk) == if score - taken < 0 then 0 else if score - taken > cap then cap else score - taken
  {
  }

  /** The adjustment in numbers: the request, ten at most either way, as far as 0 and the cap of the risk allow. */
  lemma AdjustmentInNumbers(score: int, risk: Option<Risk>, requested: int)
    ensures var wanted := score + if requested > 10 then 10 else if requested < -10 then -10 else requested;
      var at := if risk.Some? then risk.value.score else 0;
      var cap := if at >= 75 then 40 else if at >= 50 then 55 else 100;
      AdjustedScore(score, risk, requested) == if wanted < 0 then 0 else if wanted > cap then cap else wanted
  {
  }

  // ---- Which requests are granted ----

  predicate Slashes(s: string) {
    forall i :: 0 <= i < |s| ==> s[i] == '/'
  }

  lemma {:induction false} SlashesGo(core: string, slashes: string)
    requires Slashes(slashes) && (core != "" ==> core[|core| - 1] != '/')
    ensures TrimSlashes(core + slashes) == core
    decreases |slashes|
  {
    var s := core + slashes;
    if slashes == "" {
      assert s == core;
    } else {
      assert s[..|s| - 1] == core + slashes[..|slashes| - 1] && s[|s| - 1] == slashes[|slashes| - 1];
      SlashesGo(core, slashes[..|slashes| - 1]);
    }
  }

  /** Two links are one story when they differ only in case, surrounding space and slashes at the end. */
  lemma {:induction false} StoryKeyIgnores(link: string, core: string, slashes: string)
    requires Trim(link) == core + slashes && Slashes(slashes) && (core != "" ==> core[|core| - 1] != '/')
    ensures StoryKey(link) == Lower(core)
  {
    assert Lower(core + slashes) == Lower(core) + slashes;
    assert core != "" ==> Lower(core)[|core| - 1] != '/';
    SlashesGo(Lower(core), slashes);
  }

  /** A source that is a fetched article and was reviewed as related. */
  ghost predicate Backed(articles: seq<string>, reviews: seq<ArticleReview>, source: string) {
    && StoryKey(source) != ""
    && (exists j :: 0 <= j < |articles| && StoryKey(articles[j]) == StoryKey(source))
    && (exists h :: 0 <= h < |reviews| && reviews[h].related && StoryKey(reviews[h].url) == StoryKey(source))
  }

  /**
    A request is granted exactly when it asks for a change, names sources that are all fetched articles reviewed as
    related, and brings a fact of at least twenty characters that no title contains.
  */
  lemma {:induction false} GrantedIff(articles: seq<string>, titles: seq<string>, reviews: seq<ArticleReview>,
      modifier: Option<int>, fact: string, sources: seq<string>)
    ensures Granted(articles, titles, reviews, modifier, fact, sources) <==>
      && modifier.Some? && modifier.value != 0 && sources != []
      && (forall i :: 0 <= i < |sources| ==> Backed(articles, reviews, sources[i]))
      && |Trim(fact)| >= 20
      && (forall t :: 0 <= t < |titles| ==> !ContainsText(Lower(Trim(titles[t])), Lower(Trim(fact))))
  {
    forall i | 0 <= i < |sources|
      ensures IsRelated(articles, reviews, StoryKey(sources[i])) <==> Backed(articles, reviews, sources[i])
    {
      BackedIff(articles, reviews, sources[i]);
    }
  }

  lemma BackedIff(articles: seq<string>, reviews: seq<ArticleReview>, source: string)
    ensures IsRelated(articles, reviews, StoryKey(source)) <==> Backed(articles, reviews, source)
  {
  }

  // ---- Layoffs ----

  lemma DaysAgo(now: real, days: nat)
    ensures Trunc((now - (now - (days as real) * 24.0)) / 24.0) == days
  {
    var d := days as real;
    assert (now - (now - d * 24.0)) == d * 24.0;
    assert (d * 24.0) / 24.0 == d;
  }

  /** A layoff weighs half as much again in its first 30 days, and three tenths more in its first 90. */
  lemma {:induction false} RecencyInDays(now: real, days: nat)
    ensures RecencyMultiplier(now, Some(now - (days as real) * 24.0)) ==
      if days < 30 then 1.5 else if days < 90 then 1.3 else 1.0
    ensures RecencyMultiplier(now, None) == 1.0
  {
    DaysAgo(now, days);
  }

  lemma NumbersTruncate()
    ensures Trunc(25.0) == 25 && Trunc(37.5) == 37 && Trunc(93.75) == 93 && Trunc(62.5) == 62 && Trunc(32.5) == 32
  {
  }

  /** A single layoff: 25 to begin with, 37 when fresh, 62 for a fifth of the people, and 75 for both. */
  lemma {:induction false} OneLayoff(now: real, cut: int, employees: int, days: nat)
    requires cut > 0 && employees > 0 && cut * 5 >= employees
    ensures var recent, fifth := Some(now - (days as real) * 24.0), Some(cut);
      && LayoffRisk(now, [Layoff(None, None)], Some(employees)) == 25
      && LayoffRisk(now, [Layoff(fifth, None)], Some(employees)) == 62
      && (days < 30 ==> LayoffRisk(now, [Layoff(None, recent)], Some(employees)) == 37)
      && (30 <= days < 90 ==> LayoffRisk(now, [Layoff(None, recent)], Some(employees)) == 32)
      && (days < 30 ==> LayoffRisk(now, [Layoff(fifth, recent)], Some(employees)) == 75)
  {
    NumbersTruncate();
    RecencyInDays(now, days);
    ScaleByCounts(cut, Some(employees));
    OneFact(Layoff(None, None));
    OneFact(Layoff(Some(cut), None));
    OneFact(Layoff(None, Some(now - (days as real) * 24.0)));
    OneFact(Layoff(Some(cut), Some(now - (days as real) * 24.0)));
  }

  lemma OneFact(layoff: Layoff)
    ensures LatestDate([layoff]) == layoff.date
    ensures LargestCut([layoff]) == if layoff.employeeCount.Some? && layoff.employeeCount.value > 0
                                    then layoff.employeeCount.value else 0
  {
    assert [layoff][..0] == [];
  }

  // ---- Stock, filings, news ----

  /** The stock adds risk exactly when, over 200 prices, it stands 30% below its high or lost a fifth over the year. */
  lemma {:induction false} StockRiskIff(prices: seq<real>)
    ensures StockRisk(prices) > 0 <==>
      && |prices| > 200 && prices[0] > 0.0
      && (prices[|prices| - 1] < 0.7 * Highest(prices) || prices[|prices| - 1] < 0.8 * prices[0])
  {
    if |prices| > 200 && prices[0] > 0.0 {
      var start, end, high := prices[0], prices[|prices| - 1], Highest(prices);
      DropIff(high, end);
      LossIff(start, end);
    }
  }

  lemma AtMost(a: real, b: real, scale: real)
    requires a <= b && scale > 0.0
    ensures a * scale <= b * scale
  {
  }

  lemma DropIff(high: real, end: real)
    requires high > 0.0
    ensures (high - end) / high > 0.30 <==> end < 0.7 * high
    ensures (high - end) / high > 0.30 ==> Trunc(((high - end) / high - 0.20) * 50.0) >= 5
  {
    var drop := (high - end) / high;
    assert drop * high == high - end;
    if drop > 0.30 {
      assert drop * high > 0.30 * high;
    } else {
      AtMost(drop, 0.30, high);
    }
  }

  lemma LossIff(start: real, end: real)
    requires start > 0.0
    ensures (end - start) / start < -0.20 <==> end < 0.8 * start
    ensures (end - start) / start < -0.20 ==> Trunc(-((end - start) / start) * 50.0) >= 10
  {
    var change := (end - start) / start;
    assert change * start == end - start;
    if change < -0.20 {
      assert change * start < -0.20 * start;
    } else {
      AtMost(-0.20, change, start);
    }
  }

  lemma TruncMonotone(a: real, b: real)
    requires 0.0 <= a <= b
    ensures Trunc(a) <= Trunc(b)
  {
  }

  lemma ShareMonotone(a: real, b: real, whole: real)
    requires a <= b && whole > 0.0
    ensures a / whole <= b / whole
  {
    var x, y := a / whole, b / whole;
    assert x * whole == a && y * whole == b;
    SignOfFactor(y - x, whole);
  }

  lemma SignOfFactor(a: real, scale: real)
    requires scale > 0.0
    ensures a * scale >= 0.0 ==> a >= 0.0
  {
  }

  /** A lower last price never lowers the risk, and a stock that lost everything adds the full 40. */
  lemma {:induction false} LowerPriceHigherRisk(prices: seq<real>, lower: seq<real>)
    requires |prices| == |lower| > 200 && prices[..|prices| - 1] == lower[..|lower| - 1]
    requires lower[|lower| - 1] <= prices[|prices| - 1] && Highest(prices) == Highest(lower)
    ensures StockRisk(prices) <= StockRisk(lower)
  {
    assert prices[0] == prices[..|prices| - 1][0] == lower[0];
    var start, end, low, high := prices[0], prices[|prices| - 1], lower[|lower| - 1], Highest(prices);
    if start > 0.0 && high > 0.0 {
      ShareMonotone(high - end, high - low, high);
      ShareMonotone(low - start, end - start, start);
      var drop, more := (high - end) / high, (high - low) / high;
      var change, worse := (end - start) / start, (low - start) / start;
      if drop > 0.30 {
        TruncMonotone((drop - 0.20) * 50.0, (more - 0.20) * 50.0);
      }
      if change < -0.20 {
        TruncMonotone(-change * 50.0, -worse * 50.0);
      }
    }
  }

  lemma WholeOf(a: real, whole: real)
    requires whole > 0.0 && (a == whole || a == -whole)
    ensures a / whole == if a == whole then 1.0 else -1.0
  {
    var x := a / whole;
    assert x * whole == a;
    assert a == -whole ==> (x + 1.0) * whole == 0.0;
  }

  lemma {:induction false} LostEverything(prices: seq<real>)
    requires |prices| > 200 && prices[0] > 0.0 && prices[|prices| - 1] == 0.0
    ensures StockRisk(prices) == 40
  {
    var start, high := prices[0], Highest(prices);
    WholeOf(high, high);
    WholeOf(0.0 - start, start);
    assert Trunc(50.0) == 50 && Trunc(40.0) == 40;
  }

  lemma ShareIs(part: real, whole: real, p: int)
    requires whole > 0.0 && 100.0 * part == p as real * whole
    ensures part / whole == p as real / 100.0
  {
    var share := part / whole;
    assert share * whole == part;
    assert (100.0 * share - p as real) * whole == 0.0;
  }

  lemma HalfTruncates(p: int)
    requires p >= 0
    ensures Trunc(p as real / 100.0 * 50.0) == p / 2
  {
    assert p as real / 100.0 * 50.0 == p as real / 2.0;
  }

  /** The stock's risk from how far it stands below its high and what it lost over the year, as shares. */
  lemma StockInShares(prices: seq<real>, drop: real, loss: real)
    requires |prices| > 200 && prices[0] > 0.0 && Highest(prices) > 0.0
    requires drop == (Highest(prices) - prices[|prices| - 1]) / Highest(prices)
    requires -loss == (prices[|prices| - 1] - prices[0]) / prices[0]
    ensures drop > 0.30 && loss <= 0.20 ==> StockRisk(prices) == Min(40, Max(0, Trunc((drop - 0.20) * 50.0)))
    ensures drop <= 0.30 && loss > 0.20 ==> StockRisk(prices) == Min(40, Max(0, Trunc(loss * 50.0)))
  {
  }

  lemma LossShare(start: real, end: real)
    requires start > 0.0
    ensures (end - start) / start == -((start - end) / start)
    ensures (start - end) / start <= 0.20 <==> end >= 0.8 * start
  {
    Negated(start - end, start);
    LossIff(start, end);
  }

  /** A stock p percent below its high, without a loss of a fifth over the year, adds half of p - 20. */
  lemma {:induction false} DropInPercent(prices: seq<real>, p: int)
    requires |prices| > 200 && prices[0] > 0.0 && Highest(prices) > 0.0 && 30 < p < 100
    requires 100.0 * (Highest(prices) - prices[|prices| - 1]) == p as real * Highest(prices)
    requires prices[|prices| - 1] >= 0.8 * prices[0]
    ensures StockRisk(prices) == (p - 20) / 2
  {
    var start, end, high := prices[0], prices[|prices| - 1], Highest(prices);
    ShareIs(high - end, high, p);
    LossShare(start, end);
    StockInShares(prices, (high - end) / high, (start - end) / start);
    DropTruncates(p);
  }

  lemma DropTruncates(p: int)
    requires 30 < p < 100
    ensures p as real / 100.0 > 0.30 && Trunc((p as real / 100.0 - 0.20) * 50.0) == (p - 20) / 2
  {
    assert (p as real / 100.0 - 0.20) * 50.0 == (p - 20) as real / 2.0;
  }

  lemma LossTruncates(q: int)
    requires 20 < q <= 100
    ensures q as real / 100.0 > 0.20 && Trunc(q as real / 100.0 * 50.0) == q / 2
  {
    HalfTruncates(q);
  }

  /** A stock that lost q percent over the year and stands near its high adds half of q, at most 40. */
  lemma {:induction false} LossInPercent(prices: seq<real>, q: int)
    requires |prices| > 200 && prices[0] > 0.0 && Highest(prices) > 0.0 && 20 < q <= 100
    requires 100.0 * (prices[0] - prices[|prices| - 1]) == q as real * prices[0]
    requires prices[|prices| - 1] >= 0.7 * Highest(prices)
    ensures StockRisk(prices) == if q > 80 then 40 else q / 2
  {
    var start, end, high := prices[0], prices[|prices| - 1], Highest(prices);
    ShareIs(start - end, start, q);
    LossShare(start, end);
    DropIff(high, end);
    LossTruncates(q);
    StockInShares(prices, (high - end) / high, (start - end) / start);
  }

  lemma Negated(a: real, whole: real)
    requires whole > 0.0
    ensures (-a) / whole == -(a / whole)
  {
    var x, y := a / whole, (-a) / whole;
    assert x * whole == a && y * whole == -a;
    assert (x + y) * whole == 0.0;
  }

  /** The four signals add up to at most 100: filings weigh 5 each and 20 at most, predominantly bad news weighs 10. */
  lemma {:induction false} SignalsAddUp(now: real, layoffs: seq<Layoff>, prices: seq<real>, secTerms: int, newsNeg: int,
      newsPos: int, employees: Option<int>)
    ensures var sum := LayoffRisk(now, layoffs, employees) + StockRisk(prices)
                       + (if secTerms <= 0 then 0 else if secTerms >= 4 then 20 else 5 * secTerms)
                       + (if newsNeg >= newsPos + 3 then 10 else 0);
      RiskScore(now, layoffs, prices, secTerms, newsNeg, newsPos, employees) == if sum > 100 then 100 else sum
  {
  }
}
