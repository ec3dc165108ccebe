/** The record types the two analytics services read and produce
    (model/StockData.java, model/NewsData.java, model/SentimentResult.java).
    They carry no logic. A Java field that a parser may leave null is an
    Option here. */
module Model {

  datatype Option<+T> = None | Some(value: T)

  /** A calendar day (java.time.LocalDate). */
  datatype Date = Date(year: int, month: int, day: int)

  /** A local date and time of day (java.time.LocalDateTime). */
  datatype DateTime = DateTime(date: Date, hour: int, minute: int, second: int)

  /** One trading day of a security, or its live quote. `price` is the
      closing price of a day of history, or the current price of a quote.
      The daily-history parser leaves `change`, `changePercent` and
      `previousClose` unset; the quote parser sets every field. */
  datatype StockData = StockData(
    symbol: string,
    price: real,
    change: Option<real>,
    changePercent: Option<real>,
    volume: real,
    high: real,
    low: real,
    open: real,
    previousClose: Option<real>,
    date: Date)

  /** One news article. `sentiment` is the provider's free-text label and
      `sentimentScore` its score; both are absent when the provider gave no
      per-ticker sentiment. */
  datatype NewsData = NewsData(
    title: string,
    summary: string,
    url: string,
    source: string,
    publishedAt: DateTime,
    sentiment: Option<string>,
    sentimentScore: Option<real>)

  /** The aggregate sentiment of a batch of articles. */
  datatype SentimentResult = SentimentResult(
    overallSentiment: string,
    averageScore: real,
    positiveCount: int,
    negativeCount: int,
    neutralCount: int,
    totalArticles: int)
}
