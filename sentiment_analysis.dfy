/** The sentiment aggregator (service/SentimentAnalysisService.java): it
    classifies each article's sentiment label, tallies and averages them,
    and writes a news digest and a market-impact paragraph. The loops of
    the source are methods here, proved equal to the functions that specify
    them; the properties of the aggregator are lemmas about those
    functions. */
module SentimentAnalysis {
  import opened Model
  import opened Report
  import opened Decimal

  // ---------------------------------------------------------------------
  // Classifying a label

  /** The class of a sentiment label. */
  datatype Tone = Bullish | Bearish | Neutral

  /** Upper case of a character, for the ASCII letters. */
  function UpperChar(c: char): char
  {
    if 'a' <= c <= 'z' then (c as int - 32) as char else c
  }

  /** String.toUpperCase, for ASCII text. */
  function ToUpper(s: string): string
  {
    seq(|s|, i requires 0 <= i < |s| => UpperChar(s[i]))
  }

  /** `part` occurs in `s` starting at index i. */
  predicate OccursAt(s: string, part: string, i: nat)
  {
    i + |part| <= |s| && s[i..i + |part|] == part
  }

  /** String.contains. */
  predicate Contains(s: string, part: string)
  {
    exists i: nat | i <= |s| :: OccursAt(s, part, i)
  }

  /** A label is classified on its upper-cased text: "BULLISH" anywhere in
      it makes it bullish, otherwise "BEARISH" anywhere makes it bearish,
      otherwise it is neutral. */
  function Classify(tag: string): Tone
  {
    var upper := ToUpper(tag);
    if Contains(upper, "BULLISH") then Bullish
    else if Contains(upper, "BEARISH") then Bearish
    else Neutral
  }

  /** The class of an article, or None when it has no label. */
  function ToneOf(news: NewsData): Option<Tone>
  {
    match news.sentiment
    case None => None
    case Some(tag) => Some(Classify(tag))
  }

  lemma ToUpperIdempotent(s: string)
    ensures ToUpper(ToUpper(s)) == ToUpper(s)
  {
  }

  /** Classification ignores case: a label and its upper-cased form are
      in the same class. */
  lemma ClassifyIgnoresCase(tag: string)
    ensures Classify(ToUpper(tag)) == Classify(tag)
  {
    ToUpperIdempotent(tag);
  }

  /** The provider's bullish labels classify as bullish. */
  lemma BullishLabels()
    ensures Classify("Bullish") == Bullish
    ensures Classify("Somewhat-Bullish") == Bullish
  {
    assert ToUpper("Bullish") == "BULLISH";
    assert OccursAt("BULLISH", "BULLISH", 0);
    assert ToUpper("Somewhat-Bullish") == "SOMEWHAT-BULLISH";
    assert OccursAt("SOMEWHAT-BULLISH", "BULLISH", 9);
  }

  /** The provider's bearish labels classify as bearish. */
  lemma BearishLabels()
    ensures Classify("Bearish") == Bearish
    ensures Classify("Somewhat-Bearish") == Bearish
  {
    assert ToUpper("Bearish") == "BEARISH";
    assert OccursAt("BEARISH", "BEARISH", 0);
    BearishLacksBullish();
    assert ToUpper("Somewhat-Bearish") == "SOMEWHAT-BEARISH";
    assert OccursAt("SOMEWHAT-BEARISH", "BEARISH", 9);
    SomewhatBearishLacksBullish();
  }

  lemma BearishLacksBullish()
    ensures !Contains("BEARISH", "BULLISH")
  {
    forall i: nat | i <= 7 ensures !OccursAt("BEARISH", "BULLISH", i) {
      if i == 0 {
        assert "BEARISH"[..7][1] != "BULLISH"[1];
      }
    }
  }

  lemma SomewhatBearishLacksBullish()
    ensures !Contains("SOMEWHAT-BEARISH", "BULLISH")
  {
    forall i: nat | i <= 16 ensures !OccursAt("SOMEWHAT-BEARISH", "BULLISH", i) {
      if i + 7 <= 16 {
        if i == 9 {
          assert "SOMEWHAT-BEARISH"[9..16][1] != "BULLISH"[1];
        } else {
          assert "SOMEWHAT-BEARISH"[i..i + 7][0] != "BULLISH"[0];
        }
      }
    }
  }

  /** The provider's neutral label classifies as neutral. */
  lemma NeutralLabel()
    ensures Classify("Neutral") == Neutral
  {
    assert ToUpper("Neutral") == "NEUTRAL";
    forall i: nat, part | i <= 7 && part in {"BULLISH", "BEARISH"} ensures !OccursAt("NEUTRAL", part, i) {
      if i == 0 {
        assert "NEUTRAL"[..7][0] != part[0];
      }
    }
  }

  /** A label naming both sides counts as bullish, because "BULLISH" is
      looked for first. */
  lemma BullishWinsOverBearish(tag: string)
    requires Contains(ToUpper(tag), "BULLISH") && Contains(ToUpper(tag), "BEARISH")
    ensures Classify(tag) == Bullish
  {
  }

  /** An instance: the label "Bearish/Bullish", in any case, is bullish. */
  lemma MixedLabelIsBullish()
    ensures Classify("Bearish/Bullish") == Bullish
  {
    assert ToUpper("Bearish/Bullish") == "BEARISH/BULLISH";
    assert OccursAt("BEARISH/BULLISH", "BULLISH", 8);
    assert OccursAt("BEARISH/BULLISH", "BEARISH", 0);
    BullishWinsOverBearish("Bearish/Bullish");
  }

  // ---------------------------------------------------------------------
  // Tallying a batch

  /** The number of labelled articles of class `t`. */
  function CountTone(news: seq<NewsData>, t: Tone): nat
  {
    if news == [] then 0
    else CountTone(news[..|news| - 1], t) + (if ToneOf(news[|news| - 1]) == Some(t) then 1 else 0)
  }

  /** The number of articles with a label. */
  function CountLabelled(news: seq<NewsData>): nat
  {
    if news == [] then 0
    else CountLabelled(news[..|news| - 1]) + (if news[|news| - 1].sentiment.Some? then 1 else 0)
  }

  /** The sum of the scores that are present. */
  function ScoreSum(news: seq<NewsData>): real
  {
    if news == [] then 0.0
    else
      ScoreSum(news[..|news| - 1])
      + (match news[|news| - 1].sentimentScore case Some(v) => v case None => 0.0)
  }

  /** The number of scores that are present. */
  function ScoreCount(news: seq<NewsData>): nat
  {
    if news == [] then 0
    else ScoreCount(news[..|news| - 1]) + (if news[|news| - 1].sentimentScore.Some? then 1 else 0)
  }

  /** The mean of the scores that are present, or 0 when none is. */
  function AverageScore(news: seq<NewsData>): real
  {
    if ScoreCount(news) > 0 then ScoreSum(news) / ScoreCount(news) as real else 0.0
  }

  /** The overall sentiment by strict plurality. */
  function Overall(positive: int, negative: int, neutral: int): string
  {
    if positive > negative && positive > neutral then "BULLISH"
    else if negative > positive && negative > neutral then "BEARISH"
    else "NEUTRAL"
  }

  /** calculateSentiment. */
  method CalculateSentiment(newsData: seq<NewsData>) returns (result: SentimentResult)
    ensures result.positiveCount == CountTone(newsData, Bullish)
    ensures result.negativeCount == CountTone(newsData, Bearish)
    ensures result.neutralCount == CountTone(newsData, Neutral)
    ensures result.totalArticles == |newsData|
    ensures result.averageScore == AverageScore(newsData)
    ensures result.overallSentiment == Overall(result.positiveCount, result.negativeCount, result.neutralCount)
    ensures newsData == [] ==> result == SentimentResult("NEUTRAL", 0.0, 0, 0, 0, 0)
  {
    if |newsData| == 0 {
      return SentimentResult("NEUTRAL", 0.0, 0, 0, 0, 0);
    }
    var positive, negative, neutral := 0, 0, 0;
    var totalScore := 0.0;
    var validScores := 0;
    for i := 0 to |newsData|
      invariant positive == CountTone(newsData[..i], Bullish)
      invariant negative == CountTone(newsData[..i], Bearish)
      invariant neutral == CountTone(newsData[..i], Neutral)
      invariant totalScore == ScoreSum(newsData[..i])
      invariant validScores == ScoreCount(newsData[..i])
    {
      assert newsData[..i + 1][..i] == newsData[..i];
      var news := newsData[i];
      if news.sentiment.Some? {
        var sentiment := ToUpper(news.sentiment.value);
        if Contains(sentiment, "BULLISH") {
          positive := positive + 1;
        } else if Contains(sentiment, "BEARISH") {
          negative := negative + 1;
        } else {
          neutral := neutral + 1;
        }
      }
      if news.sentimentScore.Some? {
        totalScore := totalScore + news.sentimentScore.value;
        validScores := validScores + 1;
      }
    }
    assert newsData[..|newsData|] == newsData;
    var averageScore := if validScores > 0 then totalScore / validScores as real else 0.0;
    var overall;
    if positive > negative && positive > neutral {
      overall := "BULLISH";
    } else if negative > positive && negative > neutral {
      overall := "BEARISH";
    } else {
      overall := "NEUTRAL";
    }
    result := SentimentResult(overall, averageScore, positive, negative, neutral, |newsData|);
  }

  /** Every labelled article is in exactly one bucket, and articles without
      a label are in none, so the buckets add up to the labelled articles
      and never exceed the batch. */
  lemma {:induction false} BucketsAddUp(news: seq<NewsData>)
    ensures CountTone(news, Bullish) + CountTone(news, Bearish) + CountTone(news, Neutral) == CountLabelled(news)
    ensures CountLabelled(news) <= |news|
  {
    if news != [] {
      BucketsAddUp(news[..|news| - 1]);
    }
  }

  lemma {:induction false} ScoreSumBounds(news: seq<NewsData>, lo: real, hi: real)
    requires forall i :: 0 <= i < |news| && news[i].sentimentScore.Some? ==> lo <= news[i].sentimentScore.value <= hi
    ensures ScoreCount(news) as real * lo <= ScoreSum(news) <= ScoreCount(news) as real * hi
  {
    if news != [] {
      var init := news[..|news| - 1];
      var last := news[|news| - 1];
      ScoreSumBounds(init, lo, hi);
      var c := ScoreCount(init) as real;
      if last.sentimentScore.Some? {
        var v := last.sentimentScore.value;
        assert lo <= v <= hi;
        assert ScoreSum(news) == ScoreSum(init) + v;
        assert ScoreCount(news) as real == c + 1.0;
        OneMore(c, lo);
        OneMore(c, hi);
      } else {
        assert ScoreSum(news) == ScoreSum(init);
        assert ScoreCount(news) == ScoreCount(init);
      }
    }
  }

  lemma OneMore(c: real, v: real)
    ensures (c + 1.0) * v == c * v + v
  {
  }

  /** When every present score lies in [lo, hi] (the provider's range is
      [-1, 1]), so does the average score, or it is 0 when no article has
      a score. */
  lemma AverageScoreWithinRange(news: seq<NewsData>, lo: real, hi: real)
    requires forall i :: 0 <= i < |news| && news[i].sentimentScore.Some? ==> lo <= news[i].sentimentScore.value <= hi
    ensures ScoreCount(news) == 0 ==> AverageScore(news) == 0.0
    ensures ScoreCount(news) > 0 ==> lo <= AverageScore(news) <= hi
  {
    if ScoreCount(news) > 0 {
      ScoreSumBounds(news, lo, hi);
      AverageWithin(news, lo, hi);
    }
  }

  lemma AverageWithin(news: seq<NewsData>, lo: real, hi: real)
    requires ScoreCount(news) > 0
    requires ScoreCount(news) as real * lo <= ScoreSum(news) <= ScoreCount(news) as real * hi
    ensures lo <= AverageScore(news) <= hi
  {
    QuotientWithin(ScoreSum(news), ScoreCount(news) as real, lo, hi);
  }

  lemma QuotientWithin(s: real, n: real, lo: real, hi: real)
    requires n > 0.0 && n * lo <= s <= n * hi
    ensures lo <= s / n <= hi
  {
    DivMonotone(n * lo, s, n);
    DivMonotone(s, n * hi, n);
    assert n * lo / n == lo;
    assert n * hi / n == hi;
  }

  /** An article without a score does not move the average: the mean is
      over the scores present, not over the batch. */
  lemma UnscoredArticleKeepsAverage(news: seq<NewsData>, article: NewsData)
    requires article.sentimentScore.None?
    ensures AverageScore(news + [article]) == AverageScore(news)
  {
    assert (news + [article])[..|news|] == news;
  }

  /** The overall sentiment is exactly one of the three; a class wins only
      by strictly exceeding both others, so any tie for the lead is
      NEUTRAL. */
  lemma OverallIsStrictPlurality(positive: int, negative: int, neutral: int)
    ensures Overall(positive, negative, neutral) in {"BULLISH", "BEARISH", "NEUTRAL"}
    ensures Overall(positive, negative, neutral) == "BULLISH" <==> positive > negative && positive > neutral
    ensures Overall(positive, negative, neutral) == "BEARISH" <==> negative > positive && negative > neutral
    ensures (positive == negative && positive >= neutral) || (positive == neutral && positive >= negative)
            || (negative == neutral && negative >= positive)
            ==> Overall(positive, negative, neutral) == "NEUTRAL"
  {
  }

  /** Three bullish articles and one bearish one, all labelled: BULLISH with
      counts 3, 1, 0 out of 4. */
  lemma ThreeBullishOneBearish(bull: NewsData, bear: NewsData)
    requires bull.sentiment == Some("Bullish") && bear.sentiment == Some("Bearish")
    ensures var news := [bull, bull, bull, bear];
      && CountTone(news, Bullish) == 3 && CountTone(news, Bearish) == 1 && CountTone(news, Neutral) == 0
      && Overall(3, 1, 0) == "BULLISH"
  {
    BullishLabels();
    BearishLabels();
    assert ToneOf(bull) == Some(Bullish) && ToneOf(bear) == Some(Bearish);
    var news := [bull, bull, bull, bear];
    assert news[..3] == [bull, bull, bull];
    assert [bull, bull, bull][..2] == [bull, bull];
    assert [bull, bull][..1] == [bull];
    assert [bull][..0] == [];
    forall t: Tone ensures CountTone([bull], t) == (if t == Bullish then 1 else 0) {}
    forall t: Tone ensures CountTone([bull, bull], t) == (if t == Bullish then 2 else 0) {}
    forall t: Tone ensures CountTone([bull, bull, bull], t) == (if t == Bullish then 3 else 0) {}
  }

  // ---------------------------------------------------------------------
  // News digest

  /** The labelled articles of class `t`, in their order in the batch. */
  function Highlights(news: seq<NewsData>, t: Tone): seq<NewsData>
  {
    if news == [] then []
    else
      Highlights(news[..|news| - 1], t)
      + (if ToneOf(news[|news| - 1]) == Some(t) then [news[|news| - 1]] else [])
  }

  /** The most articles a digest bucket shows. */
  const MaxHighlights: nat := 3

  /** The longest summary shown in full. */
  const MaxSummary: nat := 100

  function Min(a: nat, b: nat): nat
  {
    if a < b then a else b
  }

  /** A summary as shown: its first 100 characters followed by "..." when
      it is longer than that, and unchanged otherwise. Characters here are
      Unicode scalar values (Dafny `char`). */
  function ShownSummary(summary: string): string
  {
    if |summary| > MaxSummary then summary[..MaxSummary] + "..." else summary
  }

  const Bullet := "• "

  /** One bullet entry of the digest. */
  function Entry(news: NewsData): Text
  {
    [Lit(Bullet), Field(news.title), Lit("\n"),
     Lit("  Source: "), Field(news.source), Lit("\n"),
     Lit("  Summary: "), Field(ShownSummary(news.summary)), Lit("\n"),
     Lit("\n")]
  }

  /** The entries of a list of articles, in order. */
  function Entries(items: seq<NewsData>): Text
  {
    if items == [] then [] else Entries(items[..|items| - 1]) + Entry(items[|items| - 1])
  }

  /** A bucket of the digest: left out when empty, otherwise its heading
      and the entries of its first three articles. */
  function Bucket(heading: string, items: seq<NewsData>): Text
  {
    if items == [] then [] else [Lit(heading)] + Entries(items[..Min(MaxHighlights, |items|)])
  }

  const PositiveHeading := "POSITIVE NEWS HIGHLIGHTS:\n"
  const NegativeHeading := "NEGATIVE NEWS HIGHLIGHTS:\n"

  function DigestHeader(news: seq<NewsData>, symbol: string): Text
  {
    [Lit("Recent News Summary for "), Field(symbol), Lit(":\n\n"),
     Lit("Total Articles Analyzed: "), Count(|news|), Lit("\n\n")]
  }

  /** The news digest: a header, then the bullish bucket, then the bearish
      one. */
  function NewsSummary(news: seq<NewsData>, symbol: string): Text
  {
    DigestHeader(news, symbol)
    + Bucket(PositiveHeading, Highlights(news, Bullish))
    + Bucket(NegativeHeading, Highlights(news, Bearish))
  }

  /** The lines of one article in the digest. The source appends "...\n"
      in one call after the first 100 characters of a long summary; here
      "..." is part of the shown summary and "\n" a piece of its own, which
      renders the same text. */
  method AppendEntry(news: NewsData) returns (entry: Text)
    ensures entry == Entry(news)
    ensures Quotes(entry, Bullet, Field(news.title))
    ensures Quotes(entry, "  Source: ", Field(news.source))
    ensures Quotes(entry, "  Summary: ", Field(ShownSummary(news.summary)))
  {
    entry := [Lit(Bullet), Field(news.title), Lit("\n"), Lit("  Source: "), Field(news.source), Lit("\n")];
    var newsSummary := news.summary;
    if |newsSummary| > MaxSummary {
      entry := entry + [Lit("  Summary: "), Field(newsSummary[..MaxSummary] + "..."), Lit("\n")];
    } else {
      entry := entry + [Lit("  Summary: "), Field(newsSummary), Lit("\n")];
    }
    entry := entry + [Lit("\n")];
    assert entry[0] == Lit(Bullet) && entry[1] == Field(news.title);
    assert entry[3] == Lit("  Source: ") && entry[4] == Field(news.source);
    assert entry[6] == Lit("  Summary: ") && entry[7] == Field(ShownSummary(news.summary));
  }

  /** Appends a bucket: nothing when it is empty, otherwise its heading
      and the entries of its first min(3, |items|) articles. */
  method AppendBucket(summary: Text, heading: string, items: seq<NewsData>) returns (out: Text)
    ensures out == summary + Bucket(heading, items)
  {
    out := summary;
    if items != [] {
      out := out + [Lit(heading)];
      ghost var start := out;
      var count := Min(MaxHighlights, |items|);
      for i := 0 to count
        invariant out == start + Entries(items[..i])
      {
        var entry := AppendEntry(items[i]);
        EntriesStep(items, i);
        SeqAppendAssoc(start, Entries(items[..i]), entry);
        out := out + entry;
      }
      SeqAppendAssoc(summary, [Lit(heading)], Entries(items[..count]));
    }
  }

  lemma EntriesStep(items: seq<NewsData>, i: nat)
    requires i < |items|
    ensures Entries(items[..i + 1]) == Entries(items[..i]) + Entry(items[i])
  {
    assert items[..i + 1][..i] == items[..i];
  }

  lemma SeqAppendAssoc(a: Text, b: Text, c: Text)
    ensures (a + b) + c == a + (b + c)
  {
  }

  /** generateNewsSummary. */
  method GenerateNewsSummary(newsData: seq<NewsData>, symbol: string) returns (summary: Text)
    ensures summary == NewsSummary(newsData, symbol)
  {
    summary := [Lit("Recent News Summary for "), Field(symbol), Lit(":\n\n")];
    summary := summary + [Lit("Total Articles Analyzed: "), Count(|newsData|), Lit("\n\n")];
    var bullishNews: seq<NewsData> := [];
    var bearishNews: seq<NewsData> := [];
    for i := 0 to |newsData|
      invariant bullishNews == Highlights(newsData[..i], Bullish)
      invariant bearishNews == Highlights(newsData[..i], Bearish)
    {
      assert newsData[..i + 1][..i] == newsData[..i];
      var news := newsData[i];
      if news.sentiment.Some? {
        var sentiment := ToUpper(news.sentiment.value);
        if Contains(sentiment, "BULLISH") {
          bullishNews := bullishNews + [news];
        } else if Contains(sentiment, "BEARISH") {
          bearishNews := bearishNews + [news];
        }
      }
    }
    assert newsData[..|newsData|] == newsData;
    summary := AppendBucket(summary, PositiveHeading, bullishNews);
    summary := AppendBucket(summary, NegativeHeading, bearishNews);
  }

  /** A shown summary is at most 103 characters; a summary of at most 100
      characters is shown unchanged; a longer one is shown as its first 100
      characters and "...". */
  lemma ShownSummaryBounds(summary: string)
    ensures |ShownSummary(summary)| <= MaxSummary + 3
    ensures |summary| <= MaxSummary ==> ShownSummary(summary) == summary
    ensures |summary| > MaxSummary ==>
      |ShownSummary(summary)| == MaxSummary + 3
      && ShownSummary(summary)[..MaxSummary] == summary[..MaxSummary]
      && ShownSummary(summary)[MaxSummary..] == "..."
  {
  }

  /** A bucket holds as many articles as the tally counted for its class. */
  lemma {:induction false} HighlightsMatchTally(news: seq<NewsData>, t: Tone)
    ensures |Highlights(news, t)| == CountTone(news, t)
  {
    if news != [] {
      HighlightsMatchTally(news[..|news| - 1], t);
    }
  }

  /** Filtering keeps the batch's order: the bucket of a concatenation is
      the concatenation of the buckets. */
  lemma {:induction false} HighlightsKeepOrder(a: seq<NewsData>, b: seq<NewsData>, t: Tone)
    ensures Highlights(a + b, t) == Highlights(a, t) + Highlights(b, t)
  {
    if b == [] {
      assert a + b == a;
    } else {
      var init := b[..|b| - 1];
      assert (a + b)[..|a + b| - 1] == a + init;
      HighlightsKeepOrder(a, init, t);
    }
  }

  /** A bucket holds only articles of the batch whose label is of its
      class. */
  lemma {:induction false} HighlightsAreOfTheirClass(news: seq<NewsData>, t: Tone)
    ensures forall x :: x in Highlights(news, t) ==> x in news && ToneOf(x) == Some(t)
  {
    if news != [] {
      var init := news[..|news| - 1];
      HighlightsAreOfTheirClass(init, t);
      assert forall x :: x in init ==> x in news;
    }
  }

  lemma {:induction false} EntriesCounts(items: seq<NewsData>)
    ensures CountLit(Entries(items), Bullet) == |items|
    ensures CountLit(Entries(items), PositiveHeading) == 0
    ensures CountLit(Entries(items), NegativeHeading) == 0
  {
    if items != [] {
      var init := items[..|items| - 1];
      EntriesCounts(init);
      var e := Entry(items[|items| - 1]);
      CountLitAppend(Entries(init), e, Bullet);
      CountLitAppend(Entries(init), e, PositiveHeading);
      CountLitAppend(Entries(init), e, NegativeHeading);
      EntryCounts(items[|items| - 1]);
    }
  }

  /** An entry has one bullet and no bucket heading. */
  lemma EntryCounts(news: NewsData)
    ensures CountLit(Entry(news), Bullet) == 1
    ensures CountLit(Entry(news), PositiveHeading) == 0
    ensures CountLit(Entry(news), NegativeHeading) == 0
  {
    var e := Entry(news);
    var rest := e[1..];
    assert e == [Lit(Bullet)] + rest;
    assert Lit(Bullet) !in rest;
    CountLitPositive(rest, Bullet);
    CountLitAppend([Lit(Bullet)], rest, Bullet);
    assert [Lit(Bullet)][..0] == [];
    assert Lit(PositiveHeading) !in e && Lit(NegativeHeading) !in e;
    CountLitPositive(e, PositiveHeading);
    CountLitPositive(e, NegativeHeading);
  }

  lemma BucketCounts(heading: string, items: seq<NewsData>)
    requires heading == PositiveHeading || heading == NegativeHeading
    ensures CountLit(Bucket(heading, items), Bullet) == Min(MaxHighlights, |items|)
    ensures CountLit(Bucket(heading, items), heading) == (if items == [] then 0 else 1)
    ensures CountLit(Bucket(heading, items), PositiveHeading) + CountLit(Bucket(heading, items), NegativeHeading)
            == (if items == [] then 0 else 1)
  {
    if items != [] {
      var shown := items[..Min(MaxHighlights, |items|)];
      EntriesCounts(shown);
      CountLitAppend([Lit(heading)], Entries(shown), Bullet);
      CountLitAppend([Lit(heading)], Entries(shown), PositiveHeading);
      CountLitAppend([Lit(heading)], Entries(shown), NegativeHeading);
      assert [Lit(heading)][..0] == [];
    }
  }

  /** The digest shows at most three bullets per bucket: exactly
      min(3, bullish) + min(3, bearish) bullets, and each bucket heading
      exactly when the bucket is not empty. */
  lemma DigestShape(news: seq<NewsData>, symbol: string)
    ensures CountLit(NewsSummary(news, symbol), Bullet)
      == Min(MaxHighlights, CountTone(news, Bullish)) + Min(MaxHighlights, CountTone(news, Bearish))
    ensures Lit(PositiveHeading) in NewsSummary(news, symbol) <==> CountTone(news, Bullish) > 0
    ensures Lit(NegativeHeading) in NewsSummary(news, symbol) <==> CountTone(news, Bearish) > 0
  {
    var header := DigestHeader(news, symbol);
    var pos := Bucket(PositiveHeading, Highlights(news, Bullish));
    var neg := Bucket(NegativeHeading, Highlights(news, Bearish));
    HighlightsMatchTally(news, Bullish);
    HighlightsMatchTally(news, Bearish);
    BucketCounts(PositiveHeading, Highlights(news, Bullish));
    BucketCounts(NegativeHeading, Highlights(news, Bearish));
    HeaderCounts(news, symbol);
    CountLitAppend(header, pos, Bullet);
    CountLitAppend(header + pos, neg, Bullet);
    CountLitAppend(header, pos, PositiveHeading);
    CountLitAppend(header + pos, neg, PositiveHeading);
    CountLitAppend(header, pos, NegativeHeading);
    CountLitAppend(header + pos, neg, NegativeHeading);
    CountLitPositive(NewsSummary(news, symbol), PositiveHeading);
    CountLitPositive(NewsSummary(news, symbol), NegativeHeading);
  }

  /** The digest's header has no bullet and no bucket heading. */
  lemma HeaderCounts(news: seq<NewsData>, symbol: string)
    ensures CountLit(DigestHeader(news, symbol), Bullet) == 0
    ensures CountLit(DigestHeader(news, symbol), PositiveHeading) == 0
    ensures CountLit(DigestHeader(news, symbol), NegativeHeading) == 0
  {
    var header := DigestHeader(news, symbol);
    assert Lit(Bullet) !in header && Lit(PositiveHeading) !in header && Lit(NegativeHeading) !in header;
    CountLitPositive(header, Bullet);
    CountLitPositive(header, PositiveHeading);
    CountLitPositive(header, NegativeHeading);
  }

  // ---------------------------------------------------------------------
  // Market impact

  /** The lines stating the aggregate. */
  function ImpactHeader(sentiment: SentimentResult): Text
  {
    [Lit("Market Impact Analysis:\n\n"),
     Lit("Overall Sentiment: "), Field(sentiment.overallSentiment), Lit("\n"),
     Lit("Average Sentiment Score: "), Fixed2(sentiment.averageScore), Lit("\n"),
     Lit("Sentiment Distribution:\n"),
     Lit("  Positive: "), Count(sentiment.positiveCount), Lit(" articles\n"),
     Lit("  Negative: "), Count(sentiment.negativeCount), Lit(" articles\n"),
     Lit("  Neutral: "), Count(sentiment.neutralCount), Lit(" articles\n\n")]
  }

  const PositiveImpact := "MARKET IMPACT: POSITIVE\n"
  const NegativeImpact := "MARKET IMPACT: NEGATIVE\n"
  const NeutralImpact := "MARKET IMPACT: NEUTRAL\n"

  const PositiveOutlook := "The predominantly positive news sentiment suggests potential upward price pressure. "
  const PositiveAdvice := "Investors may view this as a buying opportunity. Monitor for increased trading volume."
  const NegativeOutlook := "The predominantly negative news sentiment indicates potential downward price pressure. "
  const NegativeAdvice := "Investors may consider taking profits or avoiding new positions until sentiment improves."
  const NeutralOutlook := "Mixed or neutral sentiment suggests the stock may trade sideways. "
  const NeutralAdvice := "Look for catalysts or technical breakouts to determine direction."
  const HighVolumeTail := " articles) indicates increased market attention and potential volatility."
  const LowVolumeTail := " articles) suggests limited market attention."

  /** The editorial paragraph, chosen by the overall sentiment alone. */
  function ImpactParagraph(overallSentiment: string): Text
  {
    if overallSentiment == "BULLISH" then
      [Lit(PositiveImpact),
       Lit(PositiveOutlook),
       Lit(PositiveAdvice)]
    else if overallSentiment == "BEARISH" then
      [Lit(NegativeImpact),
       Lit(NegativeOutlook),
       Lit(NegativeAdvice)]
    else
      [Lit(NeutralImpact),
       Lit(NeutralOutlook),
       Lit(NeutralAdvice)]
  }

  const HighVolumeNote := "\n\nHigh news volume ("
  const LowVolumeNote := "\n\nLow news volume ("

  /** The caveat on the number of articles: above 15 high volume, below 5
      low volume, none in between. */
  function VolumeNote(newsCount: int): Text
  {
    if newsCount > 15 then
      [Lit(HighVolumeNote), Count(newsCount),
       Lit(HighVolumeTail)]
    else if newsCount < 5 then
      [Lit(LowVolumeNote), Count(newsCount), Lit(LowVolumeTail)]
    else []
  }

  function MarketImpact(sentiment: SentimentResult, newsCount: int): Text
  {
    ImpactHeader(sentiment) + ImpactParagraph(sentiment.overallSentiment) + VolumeNote(newsCount)
  }

  /** generateMarketImpact. The consecutive appends of one line are one
      append here. */
  method GenerateMarketImpact(sentiment: SentimentResult, newsData: seq<NewsData>) returns (impact: Text)
    ensures impact == MarketImpact(sentiment, |newsData|)
  {
    impact :=
      [Lit("Market Impact Analysis:\n\n"),
       Lit("Overall Sentiment: "), Field(sentiment.overallSentiment), Lit("\n"),
       Lit("Average Sentiment Score: "), Fixed2(sentiment.averageScore), Lit("\n"),
       Lit("Sentiment Distribution:\n"),
       Lit("  Positive: "), Count(sentiment.positiveCount), Lit(" articles\n"),
       Lit("  Negative: "), Count(sentiment.negativeCount), Lit(" articles\n"),
       Lit("  Neutral: "), Count(sentiment.neutralCount), Lit(" articles\n\n")];
    var overallSentiment := sentiment.overallSentiment;
    var paragraph;
    if overallSentiment == "BULLISH" {
      paragraph :=
        [Lit(PositiveImpact),
         Lit(PositiveOutlook),
         Lit(PositiveAdvice)];
    } else if overallSentiment == "BEARISH" {
      paragraph :=
        [Lit(NegativeImpact),
         Lit(NegativeOutlook),
         Lit(NegativeAdvice)];
    } else {
      paragraph :=
        [Lit(NeutralImpact),
         Lit(NeutralOutlook),
         Lit(NeutralAdvice)];
    }
    impact := impact + paragraph;
    var newsCount := |newsData|;
    if newsCount > 15 {
      impact := impact + [Lit(HighVolumeNote), Count(newsCount),
        Lit(HighVolumeTail)];
    } else if newsCount < 5 {
      impact := impact + [Lit(LowVolumeNote), Count(newsCount), Lit(LowVolumeTail)];
    }
  }

  /** The report quotes the aggregate it was given, each value right after
      its caption: the overall sentiment, the average score and the three
      counts; and it opens with those lines. */
  lemma ImpactQuotesTheAggregate(sentiment: SentimentResult, newsCount: int)
    ensures var t := MarketImpact(sentiment, newsCount);
      && t[..|ImpactHeader(sentiment)|] == ImpactHeader(sentiment)
      && Quotes(t, "Overall Sentiment: ", Field(sentiment.overallSentiment))
      && Quotes(t, "Average Sentiment Score: ", Fixed2(sentiment.averageScore))
      && Quotes(t, "  Positive: ", Count(sentiment.positiveCount))
      && Quotes(t, "  Negative: ", Count(sentiment.negativeCount))
      && Quotes(t, "  Neutral: ", Count(sentiment.neutralCount))
  {
    var t := MarketImpact(sentiment, newsCount);
    assert t[1] == Lit("Overall Sentiment: ") && t[2] == Field(sentiment.overallSentiment);
    assert t[4] == Lit("Average Sentiment Score: ") && t[5] == Fixed2(sentiment.averageScore);
    assert t[8] == Lit("  Positive: ") && t[9] == Count(sentiment.positiveCount);
    assert t[11] == Lit("  Negative: ") && t[12] == Count(sentiment.negativeCount);
    assert t[14] == Lit("  Neutral: ") && t[15] == Count(sentiment.neutralCount);
  }

  /** The report ends with the volume note. There is one exactly when the
      batch has more than 15 or fewer than 5 articles: the high-volume note
      exactly above 15 and the low-volume one exactly below 5, and it
      quotes the number of articles. */
  lemma VolumeNoteThresholds(sentiment: SentimentResult, newsCount: int)
    ensures var t, note := MarketImpact(sentiment, newsCount), VolumeNote(newsCount);
      && |note| <= |t| && t[|t| - |note|..] == note
      && (note != [] <==> newsCount > 15 || newsCount < 5)
      && (newsCount > 15 <==> note != [] && note[0] == Lit(HighVolumeNote))
      && (newsCount < 5 <==> note != [] && note[0] == Lit(LowVolumeNote))
      && (newsCount > 15 ==> Quotes(note, HighVolumeNote, Count(newsCount)))
      && (newsCount < 5 ==> Quotes(note, LowVolumeNote, Count(newsCount)))
  {
    assert HighVolumeNote[2] != LowVolumeNote[2];
    var note := VolumeNote(newsCount);
    if note != [] {
      assert note[1] == Count(newsCount);
    }
  }

  /** The paragraph comes right after the lines quoting the aggregate, and
      its headline is POSITIVE exactly for "BULLISH", NEGATIVE exactly for
      "BEARISH", and NEUTRAL for every other value. */
  lemma ImpactFollowsOverallSentiment(sentiment: SentimentResult, newsCount: int)
    ensures var t, h, p := MarketImpact(sentiment, newsCount), ImpactHeader(sentiment),
                           ImpactParagraph(sentiment.overallSentiment);
      && |h| + |p| <= |t| && t[|h|..|h| + |p|] == p && p != []
      && (p[0] == Lit(PositiveImpact) <==> sentiment.overallSentiment == "BULLISH")
      && (p[0] == Lit(NegativeImpact) <==> sentiment.overallSentiment == "BEARISH")
      && (p[0] == Lit(NeutralImpact)
          <==> sentiment.overallSentiment != "BULLISH" && sentiment.overallSentiment != "BEARISH")
  {
    assert PositiveImpact[15] != NegativeImpact[15];
    assert PositiveImpact[15] != NeutralImpact[15];
    assert NegativeImpact[17] != NeutralImpact[17];
  }
}
