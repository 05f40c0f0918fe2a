/** The feedback table view: the type filter over the list it is given,
    and the handling of a sentiment-analysis answer, which writes into the
    client-side store. */
module FeedbackTable {
  import opened Wrappers
  import opened Seqs
  import opened Definitions
  import opened AppProvider
  import opened Actions

  /** `FeedbackType | 'all'`: the selected tab. */
  datatype TypeFilter = All | Only(kind: FeedbackType)

  function IsOfType(t: FeedbackType): Feedback -> bool
  {
    (f: Feedback) => f.kind == t
  }

  /** `filteredFeedback`: everything for `'all'`, otherwise the items of the
      selected type. */
  function FilterFeedback(fs: seq<Feedback>, filter: TypeFilter): (r: seq<Feedback>)
    ensures filter.All? ==> r == fs
    ensures filter.Only? ==> forall i :: 0 <= i < |r| ==> r[i].kind == filter.kind
    ensures |r| <= |fs|
  {
    match filter
    case All => fs
    case Only(t) => Filter(fs, IsOfType(t))
  }

  /** A type filter keeps exactly the items of that type, in their original
      relative order, and applying it again changes nothing. */
  lemma FilterFeedbackSpec(fs: seq<Feedback>, filter: TypeFilter)
    ensures forall f :: f in FilterFeedback(fs, filter) <==> f in fs && (filter.All? || f.kind == filter.kind)
    ensures IsSubsequence(FilterFeedback(fs, filter), fs)
    ensures FilterFeedback(FilterFeedback(fs, filter), filter) == FilterFeedback(fs, filter)
  {
    if filter.Only? {
      forall f ensures f in FilterFeedback(fs, filter) <==> f in fs && f.kind == filter.kind {
        FilterMembership(fs, IsOfType(filter.kind), f);
      }
      FilterIsSubsequence(fs, IsOfType(filter.kind));
      FilterIdempotent(fs, IsOfType(filter.kind));
    } else {
      SubsequenceReflexive(fs);
    }
  }

  /** The bug, feature and other tabs split the list between them: every
      item shows under exactly one of them. */
  lemma {:induction false} TypeFiltersPartition(fs: seq<Feedback>)
    ensures |FilterFeedback(fs, Only(Bug))| + |FilterFeedback(fs, Only(Feature))|
          + |FilterFeedback(fs, Only(Other))| == |fs|
    decreases |fs|
  {
    if fs != [] {
      TypeFiltersPartition(fs[1..]);
      assert fs == [fs[0]] + fs[1..];
      FilterCons(fs[0], fs[1..], IsOfType(Bug));
      FilterCons(fs[0], fs[1..], IsOfType(Feature));
      FilterCons(fs[0], fs[1..], IsOfType(Other));
    }
  }

  // ---------------------------------------------------------------------
  // handleAnalyzeSentiment

  /** `if (result.sentiment)`: JavaScript truthiness, so an empty string
      does not count as an answer. */
  predicate CarriesSentiment(result: SentimentResult)
  {
    result.Analysed? && result.sentiment != ""
  }

  /** Stores the analysed sentiment, cast but unchecked, on every item
      carrying the id; an error, or an empty answer, leaves the store alone. */
  function HandleAnalyzeSentiment(st: AppState, feedbackId: string, result: SentimentResult): (r: AppState)
    ensures !CarriesSentiment(result) ==> r == st
    ensures r.projects == st.projects
    ensures |r.feedback| == |st.feedback|
    ensures forall i :: 0 <= i < |st.feedback| && st.feedback[i].id != feedbackId ==>
      r.feedback[i] == st.feedback[i]
    ensures CarriesSentiment(result) ==> forall i :: 0 <= i < |st.feedback| && st.feedback[i].id == feedbackId ==>
      r.feedback[i] == st.feedback[i].(sentiment := Some(result.sentiment))
  {
    if CarriesSentiment(result) then
      UpdateFeedback(st, feedbackId, SentimentPatch(Some(result.sentiment)))
    else
      st
  }

  /** The Analyze button is shown when `item.sentiment` is falsy: `null`
      or the empty string. */
  predicate OffersAnalysis(f: Feedback)
  {
    f.sentiment.None? || f.sentiment.value == ""
  }

  /** For an item whose sentiment is one of the declared values or `null`,
      the Analyze button shows exactly when the sentiment is unset. */
  lemma OffersAnalysisIffUnset(f: Feedback)
    requires HasDeclaredSentiment(f)
    ensures OffersAnalysis(f) <==> f.sentiment.None?
  {
  }

  /** Analysing a comment end to end: when the model answers with a
      non-empty string, the context store's items with the id carry exactly
      that string, and would no longer offer analysis if they were the ones
      displayed; when the model fails, the store is unchanged. */
  lemma AnalyzeSentimentOutcome(st: AppState, feedbackId: string, comment: string, model: string -> ModelReply)
    ensures var r := HandleAnalyzeSentiment(st, feedbackId, GetSentimentAnalysis(feedbackId, comment, model));
      && (!model(comment).Answered? ==> r == st)
      && (model(comment).Answered? && model(comment).sentiment != "" ==>
            forall i :: 0 <= i < |st.feedback| && st.feedback[i].id == feedbackId ==>
              r.feedback[i].sentiment == Some(model(comment).sentiment) && !OffersAnalysis(r.feedback[i]))
  {
  }

  /** The cast is not a check: an answer outside the three declared labels
      ends up stored as the item's sentiment. */
  lemma UndeclaredSentimentIsStored(st: AppState, i: nat, comment: string, model: string -> ModelReply)
    requires i < |st.feedback|
    requires model(comment) == Answered("mixed")
    ensures var r := HandleAnalyzeSentiment(st, st.feedback[i].id,
                       GetSentimentAnalysis(st.feedback[i].id, comment, model));
      !HasDeclaredSentiment(r.feedback[i])
  {
  }
}
