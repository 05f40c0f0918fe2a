/** The shared vocabulary of the store: projects, feedback items, feedback
    types and sentiments. */
module Definitions {
  import opened Wrappers
  import opened Seqs

  /** A JavaScript `Date`, as milliseconds since the Unix epoch (UTC). */
  type Timestamp = int

  /** `'bug' | 'feature' | 'other'`: the closed set of feedback types. */
  datatype FeedbackType = Bug | Feature | Other

  /** The string literal each feedback type is written as. */
  function TypeName(t: FeedbackType): string
  {
    match t
    case Bug => "bug"
    case Feature => "feature"
    case Other => "other"
  }

  /** The feedback type a string literal denotes, if any. */
  function ParseType(s: string): (r: Option<FeedbackType>)
    ensures r.Some? <==> s == "bug" || s == "feature" || s == "other"
  {
    if s == "bug" then Some(Bug)
    else if s == "feature" then Some(Feature)
    else if s == "other" then Some(Other)
    else None
  }

  /** Printing then parsing a type gives it back, and a string parses only
      to the type whose name it is: the three literals are the only values. */
  lemma TypeNameRoundTrip(t: FeedbackType, s: string)
    ensures ParseType(TypeName(t)) == Some(t)
    ensures ParseType(s) == Some(t) <==> s == TypeName(t)
  {
  }

  /** `'positive' | 'negative' | 'neutral'`: the declared sentiment labels
      (the declared `Sentiment` type adds `null` for "not analysed yet"). */
  datatype Sentiment = Positive | Negative | Neutral

  function SentimentName(s: Sentiment): string
  {
    match s
    case Positive => "positive"
    case Negative => "negative"
    case Neutral => "neutral"
  }

  function ParseSentiment(s: string): (r: Option<Sentiment>)
    ensures r.Some? <==> s == "positive" || s == "negative" || s == "neutral"
  {
    if s == "positive" then Some(Positive)
    else if s == "negative" then Some(Negative)
    else if s == "neutral" then Some(Neutral)
    else None
  }

  /** The three labels are the only declared values, and printing and
      parsing are inverse. */
  lemma SentimentNameRoundTrip(v: Sentiment, s: string)
    ensures ParseSentiment(SentimentName(v)) == Some(v)
    ensures ParseSentiment(s) == Some(v) <==> s == SentimentName(v)
  {
  }

  datatype Project = Project(
    id: string,
    name: string,
    createdAt: Timestamp,
    projectKey: string)

  /** A feedback item. The `type` field is called `kind` here. `sentiment`
      holds whatever string was stored, `None` being `null`: the store
      writes an unchecked cast of the analysis output into it, so its
      declared type is a promise the code does not enforce (see
      HasDeclaredSentiment). */
  datatype Feedback = Feedback(
    id: string,
    projectId: string,
    kind: FeedbackType,
    comment: string,
    createdAt: Timestamp,
    labels: seq<string>,
    sentiment: Option<string>)

  /** The sentiment is `null` or one of the three declared labels. */
  predicate HasDeclaredSentiment(f: Feedback)
  {
    f.sentiment.None? || ParseSentiment(f.sentiment.value).Some?
  }

  /** The label list of `f` holds no label twice. */
  predicate HasUniqueLabels(f: Feedback)
  {
    NoDuplicates(f.labels)
  }
}
