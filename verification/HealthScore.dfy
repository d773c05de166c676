/**
  Company Health scoring: employment risk, employer reviews, the risk penalty with its caps, and the later
  adjustment by an LLM. Amounts are reals, truncated where the source converts to int.
*/
module HealthScore {
  import opened Options
  import opened Text

  datatype Level = Unset | Low | Medium | High | Critical

  datatype Risk = Risk(level: Level, score: int)

  /** A layoff: the people affected and its date in hours, where known. */
  datatype Layoff = Layoff(employeeCount: Option<int>, date: Option<real>)

  /** An employer review; rating 0 stands for a missing or unreadable one. */
  datatype Review = Review(rating: real, recommendPercent: Option<int>, ceoApprovalPercent: Option<int>)

  /** Go's conversion of a float to int. */
  function Trunc(x: real): (n: int)
    ensures x >= 0.0 ==> 0 <= n && n as real <= x < n as real + 1.0
  {
    if x >= 0.0 then x.Floor else -((-x).Floor)
  }

  function Min(a: int, b: int): int {
    if a < b then a else b
  }

  function Max(a: int, b: int): int {
    if a > b then a else b
  }

  function LevelFor(score: int): Level {
    if score >= 75 then Critical else if score >= 50 then High else if score >= 25 then Medium else Low
  }

  /** A risk in 0..100 whose level is that of its band. */
  predicate Graded(risk: Risk) {
    0 <= risk.score <= 100 && risk.level == LevelFor(risk.score)
  }

  /** `updateEmploymentRiskLevel`. */
  function UpdateLevel(risk: Risk): (r: Risk)
    ensures Graded(r)
  {
    var score := if risk.score > 100 then 100 else if risk.score < 0 then 0 else risk.score;
    Risk(LevelFor(score), score)
  }

  // ---- Employment risk ----

  /** The largest positive number of people affected, 0 when none is known. */
  function LargestCut(layoffs: seq<Layoff>): (n: int)
    ensures n >= 0
    ensures n > 0 ==> exists i :: 0 <= i < |layoffs| && layoffs[i].employeeCount == Some(n)
    ensures forall i :: 0 <= i < |layoffs| && layoffs[i].employeeCount.Some? ==> layoffs[i].employeeCount.value <= n
  {
    if layoffs == [] then 0
    else
      var before, count := LargestCut(layoffs[..|layoffs| - 1]), layoffs[|layoffs| - 1].employeeCount;
      if count.Some? && count.value > before then
        assert layoffs[|layoffs| - 1].employeeCount == Some(count.value);
        count.value
      else
        before
  }

  function LatestDate(layoffs: seq<Layoff>): (d: Option<real>)
    ensures forall i :: 0 <= i < |layoffs| && layoffs[i].date.Some? ==> d.Some? && layoffs[i].date.value <= d.value
    ensures d.Some? ==> exists i :: 0 <= i < |layoffs| && layoffs[i].date == d
  {
    if layoffs == [] then None
    else
      var before, date := LatestDate(layoffs[..|layoffs| - 1]), layoffs[|layoffs| - 1].date;
      assert forall i :: 0 <= i < |layoffs| - 1 ==> layoffs[..|layoffs| - 1][i] == layoffs[i];
      if date.Some? && (before.None? || date.value > before.value) then date else before
  }

  function ScaleMultiplier(count: int, employees: Option<int>): (m: real)
    ensures 1.0 <= m <= 2.5
  {
    if count <= 0 then 1.0
    else
      var percent :=
        if employees.Some? && employees.value > 0 then count as real / employees.value as real * 100.0 else 0.0;
      if percent >= 20.0 then 2.5
      else if percent >= 10.0 then 1.8
      else if count >= 1000 then 2.0
      else if count >= 100 then 1.2
      else 1.0
  }

  function RecencyMultiplier(now: real, latest: Option<real>): (m: real)
    ensures 1.0 <= m <= 1.5
  {
    if latest.None? then 1.0
    else
      var daysAgo := Trunc((now - latest.value) / 24.0);
      if daysAgo < 30 then 1.5 else if daysAgo < 90 then 1.3 else 1.0
  }

  lemma ScaledLayoff(s: real, r: real)
    requires 1.0 <= s && 1.0 <= r
    ensures 25.0 * s * r >= 25.0
  {
    assert 25.0 * s >= 25.0;
    assert 25.0 * s * r >= 25.0 * s * 1.0;
  }

  function LayoffScore(now: real, largest: int, latest: Option<real>, employees: Option<int>): (n: int)
    ensures n >= 25
  {
    ScaledLayoff(ScaleMultiplier(largest, employees), RecencyMultiplier(now, latest));
    Trunc(25.0 * ScaleMultiplier(largest, employees) * RecencyMultiplier(now, latest))
  }

  function LayoffRisk(now: real, layoffs: seq<Layoff>, employees: Option<int>): (n: int)
    ensures 0 <= n <= 75 && (layoffs != [] ==> n >= 25)
  {
    if layoffs == [] then 0 else Min(75, LayoffScore(now, LargestCut(layoffs), LatestDate(layoffs), employees))
  }

  /** The highest price, 0 when none is positive. */
  function Highest(prices: seq<real>): (h: real)
    ensures h >= 0.0
    ensures forall i :: 0 <= i < |prices| ==> prices[i] <= h
    ensures h > 0.0 ==> exists i :: 0 <= i < |prices| && prices[i] == h
  {
    if prices == [] then 0.0
    else
      assert forall i :: 0 <= i < |prices| - 1 ==> prices[..|prices| - 1][i] == prices[i];
      var before, last := Highest(prices[..|prices| - 1]), prices[|prices| - 1];
      if last > before then last else before
  }

  /** The worse of the drop from the year's high and the change over the year, 40 at most. */
  function StockRisk(prices: seq<real>): (n: int)
    ensures 0 <= n <= 40
  {
    if |prices| <= 200 then 0
    else
      var start, end, high := prices[0], prices[|prices| - 1], Highest(prices);
      if start <= 0.0 || high <= 0.0 then 0
      else
        var drop, change := (high - end) / high, (end - start) / start;
        var fromHigh := if drop > 0.30 then Max(0, Trunc((drop - 0.20) * 50.0)) else 0;
        Min(40, if change < -0.20 then Max(fromHigh, Trunc(-change * 50.0)) else fromHigh)
  }

  function RiskScore(now: real, layoffs: seq<Layoff>, prices: seq<real>, secTerms: int, newsNeg: int,
      newsPos: int, employees: Option<int>): (n: int)
    ensures 0 <= n <= 100
    ensures layoffs != [] ==> n >= 25
    ensures layoffs == [] && |prices| <= 200 && secTerms <= 0 && newsNeg <= newsPos + 2 ==> n == 0
  {
    var sum := LayoffRisk(now, layoffs, employees) + StockRisk(prices)
      + (if secTerms > 0 then Min(20, secTerms * 5) else 0)
      + (if newsNeg > newsPos + 2 then 10 else 0);
    Min(sum, 100)
  }

  method LayoffFacts(layoffs: seq<Layoff>) returns (largest: int, latest: Option<real>)
    ensures largest == LargestCut(layoffs) && latest == LatestDate(layoffs)
  {
    largest, latest := 0, None;
    for i := 0 to |layoffs|
      invariant largest == LargestCut(layoffs[..i]) && latest == LatestDate(layoffs[..i])
    {
      assert layoffs[..i + 1][..i] == layoffs[..i];
      var l := layoffs[i];
      if l.employeeCount.Some? && l.employeeCount.value > largest {
        largest := l.employeeCount.value;
      }
      if l.date.Some? {
        if latest.None? || l.date.value > latest.value {
          latest := l.date;
        }
      }
    }
    assert layoffs[..|layoffs|] == layoffs;
  }

  method StockRiskOf(prices: seq<real>) returns (stockRisk: int)
    ensures stockRisk == StockRisk(prices)
  {
    stockRisk := 0;
    if |prices| > 200 {
      var start, end := prices[0], prices[|prices| - 1];
      var yearHigh := 0.0;
      for i := 0 to |prices|
        invariant yearHigh == Highest(prices[..i])
      {
        assert prices[..i + 1][..i] == prices[..i];
        if prices[i] > yearHigh {
          yearHigh := prices[i];
        }
      }
      assert prices[..|prices|] == prices;
      if start > 0.0 && yearHigh > 0.0 {
        var dropFromHigh := (yearHigh - end) / yearHigh;
        var yoyChange := (end - start) / start;
        if dropFromHigh > 0.30 {
          stockRisk := Max(stockRisk, Trunc((dropFromHigh - 0.20) * 50.0));
        }
        if yoyChange < -0.20 {
          stockRisk := Max(stockRisk, Trunc(-yoyChange * 50.0));
        }
        stockRisk := Min(40, stockRisk);
      }
    }
  }

  method CalculateEmploymentRisk(now: real, layoffs: seq<Layoff>, prices: seq<real>, secTerms: int, newsNeg: int,
      newsPos: int,
                                 employees: Option<int>) returns (risk: Risk)
    ensures Graded(risk)
    ensures risk.score == RiskScore(now, layoffs, prices, secTerms, newsNeg, newsPos, employees)
  {
    risk := Risk(Unset, 0);
    if |layoffs| > 0 {
      var largest, latest := LayoffFacts(layoffs);
      risk := risk.(score := risk.score + Min(75, LayoffScore(now, largest, latest, employees)));
    }
    var stockRisk := StockRiskOf(prices);
    risk := risk.(score := risk.score + stockRisk);
    if secTerms > 0 {
      risk := risk.(score := risk.score + Min(20, secTerms * 5));
    }
    if newsNeg > newsPos + 2 {
      risk := risk.(score := risk.score + 10);
    }
    if risk.score > 100 {
      risk := risk.(score := 100);
    }
    risk := UpdateLevel(risk);
  }

  // ---- Employer reviews ----

  /** What one review adds to the score. */
  function ScoreEffect(review: Review): (n: int)
    ensures -17 <= n <= 5
  {
    (if review.rating <= 0.0 then 0
     else if review.rating < 3.0 then -8
     else if review.rating < 3.5 then -3
     else if review.rating >= 4.2 then 3
     else 0)
    + (if review.recommendPercent.None? then 0
       else if review.recommendPercent.value < 50 then -6
       else if review.recommendPercent.value >= 80 then 2
       else 0)
    + (if review.ceoApprovalPercent.Some? && review.ceoApprovalPercent.value < 50 then -3 else 0)
  }

  /** What one review adds to the risk. */
  function RiskEffect(review: Review): (n: int)
    ensures 0 <= n <= 32
  {
    (if review.rating <= 0.0 then 0 else if review.rating < 3.0 then 15 else if review.rating < 3.5 then 7 else 0)
    + (if review.recommendPercent.Some? && review.recommendPercent.value < 50 then 12 else 0)
    + (if review.ceoApprovalPercent.Some? && review.ceoApprovalPercent.value < 50 then 5 else 0)
  }

  /** A review counts when any of its figures is clearly bad or clearly good. */
  predicate Counts(review: Review) {
    || 0.0 < review.rating < 3.5
    || review.rating >= 4.2
    || (review.recommendPercent.Some? && !(50 <= review.recommendPercent.value < 80))
    || (review.ceoApprovalPercent.Some? && review.ceoApprovalPercent.value < 50)
  }

  function TotalScore(reviews: seq<Review>): int {
    if reviews == [] then 0 else TotalScore(reviews[..|reviews| - 1]) + ScoreEffect(reviews[|reviews| - 1])
  }

  function TotalRisk(reviews: seq<Review>): (n: int)
    ensures n >= 0
  {
    if reviews == [] then 0 else TotalRisk(reviews[..|reviews| - 1]) + RiskEffect(reviews[|reviews| - 1])
  }

  predicate AnyCounts(reviews: seq<Review>) {
    exists i :: 0 <= i < |reviews| && Counts(reviews[i])
  }

  /** The risk after the reviews: raised and graded when any counts, else as it was. */
  function RiskAfter(before: Risk, reviews: seq<Review>): Risk {
    if AnyCounts(reviews) then UpdateLevel(before.(score := before.score + TotalRisk(reviews))) else before
  }

  method EffectOfReview(review: Review) returns (score: int, risk: int, applied: bool)
    ensures score == ScoreEffect(review) && risk == RiskEffect(review) && applied == Counts(review)
  {
    score, risk, applied := 0, 0, false;
    if review.rating > 0.0 {
      if review.rating < 3.0 {
        score, risk, applied := score - 8, risk + 15, true;
      } else if review.rating < 3.5 {
        score, risk, applied := score - 3, risk + 7, true;
      } else if review.rating >= 4.2 {
        score, applied := score + 3, true;
      }
    }
    if review.recommendPercent.Some? {
      if review.recommendPercent.value < 50 {
        score, risk, applied := score - 6, risk + 12, true;
      } else if review.recommendPercent.value >= 80 {
        score, applied := score + 2, true;
      }
    }
    if review.ceoApprovalPercent.Some? && review.ceoApprovalPercent.value < 50 {
      score, risk, applied := score - 3, risk + 5, true;
    }
  }

  method SumReviews(reviews: seq<Review>) returns (score: int, risk: int, applied: bool)
    ensures score == TotalScore(reviews) && risk == TotalRisk(reviews) && applied == AnyCounts(reviews)
  {
    score, risk, applied := 0, 0, false;
    for i := 0 to |reviews|
      invariant score == TotalScore(reviews[..i]) && risk == TotalRisk(reviews[..i])
      invariant applied <==> exists h :: 0 <= h < i && Counts(reviews[h])
    {
      assert reviews[..i + 1][..i] == reviews[..i];
      var scoreDelta, riskDelta, counts := EffectOfReview(reviews[i]);
      score, risk, applied := score + scoreDelta, risk + riskDelta, applied || counts;
    }
    assert reviews[..|reviews|] == reviews;
  }

  // ---- The final score ----

  /** The caps the score respects: 0..100, at most 40 in the critical band and 55 in the high one. */
  predicate Capped(score: int, risk: int) {
    0 <= score <= 100 && (risk >= 75 ==> score <= 40) && (risk >= 50 ==> score <= 55)
  }

  function FinalScore(score: int, risk: int): (r: int)
    ensures Capped(r, risk)
  {
    var penalized :=
      if risk >= 75 then Min(score - 30, 40)
      else if risk >= 50 then Min(score - 15, 55)
      else if risk >= 25 then score - 5
      else score;
    Min(Max(penalized, 0), 100)
  }

  /** `clampHealthScoreForRisk`. */
  function ClampForRisk(score: int, risk: Option<Risk>): (r: int)
    ensures Capped(r, if risk.Some? then risk.value.score else 0)
  {
    var capped :=
      if risk.Some? && risk.value.score >= 75 && score > 40 then 40
      else if risk.Some? && risk.value.score >= 50 && score > 55 then 55
      else score;
    if capped < 0 then 0 else if capped > 100 then 100 else capped
  }

  // ---- The LLM's adjustment ----

  function TrimSlashes(s: string): string {
    if s != "" && s[|s| - 1] == '/' then TrimSlashes(s[..|s| - 1]) else s
  }

  function StoryKey(url: string): string {
    TrimSlashes(Lower(Trim(url)))
  }

  datatype ArticleReview = ArticleReview(url: string, related: bool)

  predicate IsRelated(articles: seq<string>, reviews: seq<ArticleReview>, k: string) {
    && k != ""
    && (exists i :: 0 <= i < |articles| && StoryKey(articles[i]) == k)
    && (exists j :: 0 <= j < |reviews| && reviews[j].related && StoryKey(reviews[j].url) == k)
  }

  method ArticleKeys(articles: seq<string>) returns (keys: set<string>)
    ensures forall k :: k in keys <==> k != "" && exists i :: 0 <= i < |articles| && StoryKey(articles[i]) == k
  {
    keys := {};
    for i := 0 to |articles|
      invariant forall k :: k in keys <==> k != "" && exists h :: 0 <= h < i && StoryKey(articles[h]) == k
    {
      var key := StoryKey(articles[i]);
      if key != "" {
        keys := keys + {key};
      }
    }
  }

  method RelatedArticleURLSet(articles: seq<string>, reviews: seq<ArticleReview>) returns (related: set<string>)
    ensures forall k :: k in related <==> IsRelated(articles, reviews, k)
  {
    var articleURLs := ArticleKeys(articles);
    related := {};
    for j := 0 to |reviews|
      invariant forall k :: k in related <==>
        k in articleURLs && exists h :: 0 <= h < j && reviews[h].related && StoryKey(reviews[h].url) == k
    {
      var key := StoryKey(reviews[j].url);
      if key == "" || !reviews[j].related || key !in articleURLs {
        continue;
      }
      related := related + {key};
    }
  }

  method ModifierUsesOnlyAllowedSources(sources: seq<string>, allowed: set<string>) returns (ok: bool)
    ensures ok <==>
      && sources != []
      && forall i :: 0 <= i < |sources| ==> StoryKey(sources[i]) != "" && StoryKey(sources[i]) in allowed
  {
    if |sources| == 0 || |allowed| == 0 {
      assert sources != [] ==> StoryKey(sources[0]) !in allowed;
      return false;
    }
    for i := 0 to |sources|
      invariant forall h :: 0 <= h < i ==> StoryKey(sources[h]) != "" && StoryKey(sources[h]) in allowed
    {
      var key := StoryKey(sources[i]);
      if key == "" || key !in allowed {
        return false;
      }
    }
    return true;
  }

  predicate IsNovel(fact: string, titles: seq<string>) {
    && |Trim(fact)| >= 20
    && forall i :: 0 <= i < |titles| ==> !ContainsText(Lower(Trim(titles[i])), Lower(Trim(fact)))
  }

  method NovelModifierFactValid(fact: string, titles: seq<string>) returns (ok: bool)
    ensures ok <==> IsNovel(fact, titles)
  {
    if |Trim(fact)| < 20 {
      return false;
    }
    var foldedFact := Lower(Trim(fact));
    for i := 0 to |titles|
      invariant forall h :: 0 <= h < i ==> !ContainsText(Lower(Trim(titles[h])), foldedFact)
    {
      var title := Lower(Trim(titles[i]));
      if title != "" && (foldedFact == title || ContainsText(title, foldedFact)) {
        assert foldedFact == title ==> OccursAt(title, foldedFact, 0);
        return false;
      }
    }
    return true;
  }

  /** What the LLM returned and the adjustment may clear. */
  class Assessment {
    var articleReviews: seq<ArticleReview>
    var storyInsight: string
    var modifier: Option<int>
    var reason: string
    var novelFact: string
    var sources: seq<string>

    constructor (reviews: seq<ArticleReview>, insight: string, modifier: Option<int>, reason: string,
        fact: string, sources: seq<string>)
      ensures this.articleReviews == reviews && this.storyInsight == insight && this.modifier == modifier
      ensures this.reason == reason && this.novelFact == fact && this.sources == sources
    {
      this.articleReviews, this.storyInsight, this.modifier := reviews, insight, modifier;
      this.reason, this.novelFact, this.sources := reason, fact, sources;
    }

    ghost predicate Cleared()
      reads this
    {
      modifier.None? && reason == "" && novelFact == "" && sources == []
    }

    method ClearScoreModifierFields()
      modifies this
      ensures Cleared() && articleReviews == old(articleReviews) && storyInsight == old(storyInsight)
    {
      modifier, reason, novelFact, sources := None, "", "", [];
    }
  }

  ghost predicate AnyRelated(articles: seq<string>, reviews: seq<ArticleReview>) {
    exists k :: IsRelated(articles, reviews, k)
  }

  lemma NothingRelated(articles: seq<string>, titles: seq<string>, reviews: seq<ArticleReview>,
      modifier: Option<int>, fact: string, sources: seq<string>)
    requires !AnyRelated(articles, reviews)
    ensures !Granted(articles, titles, reviews, modifier, fact, sources)
  {
    if sources != [] {
      assert !IsRelated(articles, reviews, StoryKey(sources[0]));
    }
  }

  function LimitTen(requested: int): int {
    if requested > 10 then 10 else if requested < -10 then -10 else requested
  }

  function AdjustedScore(score: int, risk: Option<Risk>, requested: int): int {
    ClampForRisk(score + LimitTen(requested), risk)
  }

  /** The request as the adjustment judges it: non-zero, from related articles only, with a novel fact. */
  ghost predicate Granted(articles: seq<string>, titles: seq<string>, reviews: seq<ArticleReview>,
      modifier: Option<int>, fact: string, sources: seq<string>) {
    && modifier.Some? && modifier.value != 0
    && sources != []
    && (forall i :: 0 <= i < |sources| ==> IsRelated(articles, reviews, StoryKey(sources[i])))
    && IsNovel(fact, titles)
  }

  method JudgeModifier(articles: seq<string>, titles: seq<string>, reviews: seq<ArticleReview>,
                       modifier: Option<int>, fact: string, sources: seq<string>) returns (related: bool, granted: bool)
    ensures related <==> AnyRelated(articles, reviews)
    ensures granted <==> Granted(articles, titles, reviews, modifier, fact, sources)
    ensures granted ==> related
  {
    var allowed := RelatedArticleURLSet(articles, reviews);
    if |allowed| == 0 {
      NothingRelated(articles, titles, reviews, modifier, fact, sources);
      return false, false;
    }
    var some :| some in allowed;
    related, granted := true, false;
    if modifier.Some? && modifier.value != 0 {
      var onlyAllowed := ModifierUsesOnlyAllowedSources(sources, allowed);
      if onlyAllowed {
        granted := NovelModifierFactValid(fact, titles);
      }
    }
  }

  /** The health result: its score, its employment risk and the evidence both adjustments look at. */
  class CompanyHealth {
    var score: int
    var risk: Option<Risk>
    var reviews: seq<Review>
    var articles: seq<string>
    var titles: seq<string>

    constructor (score: int, reviews: seq<Review>, articles: seq<string>, titles: seq<string>)
      ensures this.score == score && risk.None? && this.reviews == reviews && this.articles == articles
      ensures this.titles == titles
    {
      this.score, risk, this.reviews, this.articles, this.titles := score, None, reviews, articles, titles;
    }

    method ApplyEmployerReviewHealthSignals()
      modifies this`score, this`risk
      ensures score == old(score) + TotalScore(reviews)
      ensures reviews == [] ==> risk == old(risk)
      ensures reviews != [] ==>
            risk == Some(RiskAfter(if old(risk).Some? then old(risk).value else Risk(Unset, 0), reviews))
    {
      if |reviews| == 0 {
        return;
      }
      if risk.None? {
        risk := Some(Risk(Unset, 0));
      }
      var scoreDelta, riskDelta, applied := SumReviews(reviews);
      score := score + scoreDelta;
      if !applied {
        return;
      }
      risk := Some(UpdateLevel(risk.value.(score := risk.value.score + riskDelta)));
    }

    /** The tail of the assessment, after the risk is known. */
    method PenalizeAndClamp()
      requires risk.Some?
      modifies this`score
      ensures score == FinalScore(old(score), risk.value.score)
    {
      if risk.value.score >= 75 {
        score := score - 30;
        if score > 40 {
          score := 40;
        }
      } else if risk.value.score >= 50 {
        score := score - 15;
        if score > 55 {
          score := 55;
        }
      } else if risk.value.score >= 25 {
        score := score - 5;
      }
      if score < 0 {
        score := 0;
      }
      if score > 100 {
        score := 100;
      }
    }

    method ScoreTail(now: real, layoffs: seq<Layoff>, prices: seq<real>, secTerms: int, newsNeg: int,
        newsPos: int, employees: Option<int>)
      modifies this`score, this`risk
      ensures risk.Some? && Graded(risk.value) && Capped(score, risk.value.score)
      ensures risk.value.score
            == Min(RiskScore(now, layoffs, prices, secTerms, newsNeg, newsPos, employees) + TotalRisk(reviews), 100)
      ensures score == FinalScore(old(score) + TotalScore(reviews), risk.value.score)
    {
      var employment := CalculateEmploymentRisk(now, layoffs, prices, secTerms, newsNeg, newsPos, employees);
      risk := Some(employment);
      NoEffectUnlessCounted(reviews);
      ApplyEmployerReviewHealthSignals();
      PenalizeAndClamp();
    }

    method ApplyLLMScoreModifier(a: Assessment)
      modifies this`score, a
      ensures AnyRelated(articles, old(a.articleReviews)) ==>
            a.articleReviews == old(a.articleReviews) && a.storyInsight == old(a.storyInsight)
      ensures !AnyRelated(articles, old(a.articleReviews)) ==>
            a.articleReviews == [] && a.storyInsight == "" && a.Cleared()
      ensures Granted(articles, titles, old(a.articleReviews), old(a.modifier), old(a.novelFact), old(a.sources))
        ==> score == AdjustedScore(old(score), risk, old(a.modifier).value)
      ensures !Granted(articles, titles, old(a.articleReviews), old(a.modifier), old(a.novelFact), old(a.sources)) ==>
            score == old(score)
      ensures a.modifier == if score != old(score) then Some(score - old(score)) else None
    {
      var related, granted := JudgeModifier(articles, titles, a.articleReviews, a.modifier, a.novelFact, a.sources);
      if !related {
        a.articleReviews, a.storyInsight := [], "";
        a.ClearScoreModifierFields();
        return;
      }
      if Trim(a.storyInsight) == "" && a.modifier.None? {
        return;
      }
      if !granted {
        a.ClearScoreModifierFields();
        return;
      }
      var delta := LimitTen(a.modifier.value);
      var newScore := ClampForRisk(score + delta, risk);
      var actualDelta := newScore - score;
      if actualDelta == 0 {
        a.ClearScoreModifierFields();
        return;
      }
      score := newScore;
      a.modifier := Some(actualDelta);
    }
  }

  lemma {:induction false} NoEffectUnlessCounted(reviews: seq<Review>)
    ensures !AnyCounts(reviews) ==> TotalScore(reviews) == 0 && TotalRisk(reviews) == 0
  {
    if reviews != [] && !AnyCounts(reviews) {
      assert !Counts(reviews[|reviews| - 1]);
      assert forall i :: 0 <= i < |reviews| - 1 ==> reviews[..|reviews| - 1][i] == reviews[i];
      NoEffectUnlessCounted(reviews[..|reviews| - 1]);
    }
  }

  // ---- What scoring guarantees ----

  /** A layoff alone puts a company in the medium band or above. */
  lemma LayoffsRaiseTheLevel(now: real, layoffs: seq<Layoff>, prices: seq<real>, secTerms: int, newsNeg: int,
      newsPos: int, employees: Option<int>)
    requires layoffs != []
    ensures LevelFor(RiskScore(now, layoffs, prices, secTerms, newsNeg, newsPos, employees)) in {Medium, High, Critical}
  {
    assert RiskScore(now, layoffs, prices, secTerms, newsNeg, newsPos, employees) >= 25;
  }

  lemma AtLeastPercent(count: int, employees: int, percent: int)
    requires employees > 0
    ensures count as real / employees as real * 100.0 >= percent as real <==> count * 100 >= percent * employees
  {
    var share := count as real / employees as real;
    assert share * employees as real == count as real;
    if share * 100.0 >= percent as real {
      assert share * 100.0 * employees as real >= percent as real * employees as real;
      assert share * 100.0 * employees as real == count as real * 100.0;
    } else {
      assert share * 100.0 * employees as real < percent as real * employees as real;
      assert share * 100.0 * employees as real == count as real * 100.0;
    }
  }

  /** The multiplier in whole numbers. */
  lemma ScaleByCounts(count: int, employees: Option<int>)
    ensures var known, e := employees.Some? && employees.value > 0, if employees.Some? then employees.value else 0;
      ScaleMultiplier(count, employees) ==
        if count <= 0 then 1.0
        else if known && count * 100 >= 20 * e then 2.5
        else if known && count * 100 >= 10 * e then 1.8
        else if count >= 1000 then 2.0
        else if count >= 100 then 1.2
        else 1.0
  {
    if employees.Some? && employees.value > 0 {
      AtLeastPercent(count, employees.value, 20);
      AtLeastPercent(count, employees.value, 10);
    }
  }

  /** A larger cut never weighs less. */
  ghost predicate ScaleIsMonotone(employees: Option<int>) {
    forall a, b :: a <= b ==> ScaleMultiplier(a, employees) <= ScaleMultiplier(b, employees)
  }

  /**
    It holds exactly up to 10000 employees: above that a cut of a thousand people short of a tenth of the workforce
    weighs more than one of a tenth.
  */
  lemma ScaleIsMonotoneIff(employees: Option<int>)
    ensures ScaleIsMonotone(employees) <==> employees.None? || employees.value <= 10000
  {
    if employees.Some? && employees.value > 10000 {
      var tenth := (employees.value + 9) / 10;
      ScaleByCounts(1000, employees);
      ScaleByCounts(tenth, employees);
      assert ScaleMultiplier(1000, employees) > ScaleMultiplier(tenth, employees);
    } else {
      forall a, b | a <= b ensures ScaleMultiplier(a, employees) <= ScaleMultiplier(b, employees) {
        ScaleByCounts(a, employees);
        ScaleByCounts(b, employees);
      }
    }
  }

  /**
    Reviews keep a graded risk graded and never lower it; one they create is graded exactly when some review
    counts.
  */
  lemma {:induction false} ReviewsKeepGrade(before: Risk, reviews: seq<Review>)
    requires Graded(before) || before == Risk(Unset, 0)
    ensures Graded(RiskAfter(before, reviews)) <==> Graded(before) || AnyCounts(reviews)
    ensures RiskAfter(before, reviews).score == Min(before.score + TotalRisk(reviews), 100)
  {
    NoEffectUnlessCounted(reviews);
  }

  /** More risk never gives a better final score, and a better score before the penalty never a worse one. */
  lemma PenaltyIsMonotone(score: int, better: int, risk: int, higher: int)
    requires score <= better && risk <= higher
    ensures FinalScore(score, higher) <= FinalScore(better, risk)
  {
  }

  /** A retained modifier has the sign that was requested, is at most ten and is the real change. */
  predicate ModifierIsHonest(score: int, risk: Option<Risk>, requested: int) {
    var change := AdjustedScore(score, risk, requested) - score;
    change != 0 ==> -10 <= change <= 10 && (change > 0 <==> requested > 0)
  }

  /** On a score within its caps every retained modifier is honest, and on no other score is that so. */
  lemma HonestIffCapped(score: int, risk: Option<Risk>)
    ensures Capped(score, if risk.Some? then risk.value.score else 0) <==>
      forall requested :: requested != 0 ==> ModifierIsHonest(score, risk, requested)
  {
    if !Capped(score, if risk.Some? then risk.value.score else 0) {
      assert !ModifierIsHonest(score, risk, if score < 0 then -1 else 1);
    }
  }

  /** The whole way: whatever the signals and whatever the LLM asks, the score ends within the caps of its risk. */
  lemma {:induction false} ScoreStaysCapped(raw: int, base: Risk, reviews: seq<Review>, requested: int)
    requires Graded(base)
    ensures var risk := RiskAfter(base, reviews);
            var score := FinalScore(raw + TotalScore(reviews), risk.score);
      && ModifierIsHonest(score, Some(risk), requested)
      && 0 <= AdjustedScore(score, Some(risk), requested) <= 100
      && (risk.level.Critical? ==> AdjustedScore(score, Some(risk), requested) <= 40)
      && (risk.level.High? ==> AdjustedScore(score, Some(risk), requested) <= 55)
  {
    ReviewsKeepGrade(base, reviews);
    HonestIffCapped(FinalScore(raw + TotalScore(reviews), RiskAfter(base, reviews).score),
        Some(RiskAfter(base, reviews)));
  }
}
