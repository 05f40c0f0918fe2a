/** The client-side store: the project and feedback lists held by the
    application context, and the four updates it offers. Every update
    replaces a list by a new one; nothing is mutated in place. */
module AppProvider {
  import opened Wrappers
  import opened Seqs
  import opened Definitions

  datatype AppState = AppState(projects: seq<Project>, feedback: seq<Feedback>)

  /** `addProject`: the new project goes first, the old list follows. */
  function AddProject(st: AppState, p: Project): (r: AppState)
    ensures |r.projects| == |st.projects| + 1
    ensures r.projects[0] == p && r.projects[1..] == st.projects
    ensures r.feedback == st.feedback
  {
    st.(projects := [p] + st.projects)
  }

  /** `addFeedback`: the new item goes first, the old list follows. */
  function AddFeedback(st: AppState, f: Feedback): (r: AppState)
    ensures |r.feedback| == |st.feedback| + 1
    ensures r.feedback[0] == f && r.feedback[1..] == st.feedback
    ensures r.projects == st.projects
  {
    st.(feedback := [f] + st.feedback)
  }

  /** `Partial<Feedback>`: each field is either present with a new value or
      absent. A present `sentiment` may itself be `null` (`Some(None)`). */
  datatype FeedbackPatch = FeedbackPatch(
    id: Option<string>,
    projectId: Option<string>,
    kind: Option<FeedbackType>,
    comment: Option<string>,
    createdAt: Option<Timestamp>,
    labels: Option<seq<string>>,
    sentiment: Option<Option<string>>)

  /** `{}`: no field present. */
  const NoChanges := FeedbackPatch(None, None, None, None, None, None, None)

  /** `{ sentiment }`. */
  function SentimentPatch(s: Option<string>): FeedbackPatch
  {
    NoChanges.(sentiment := Some(s))
  }

  function Or<T>(o: Option<T>, otherwise: T): T
  {
    if o.Some? then o.value else otherwise
  }

  /** `{ ...f, ...updates }`: the present fields of the patch win. */
  function Patch(f: Feedback, u: FeedbackPatch): (g: Feedback)
    ensures u.id.Some? ==> g.id == u.id.value
    ensures u.id.None? ==> g.id == f.id
    ensures u.projectId.Some? ==> g.projectId == u.projectId.value
    ensures u.projectId.None? ==> g.projectId == f.projectId
    ensures u.kind.Some? ==> g.kind == u.kind.value
    ensures u.kind.None? ==> g.kind == f.kind
    ensures u.comment.Some? ==> g.comment == u.comment.value
    ensures u.comment.None? ==> g.comment == f.comment
    ensures u.createdAt.Some? ==> g.createdAt == u.createdAt.value
    ensures u.createdAt.None? ==> g.createdAt == f.createdAt
    ensures u.labels.Some? ==> g.labels == u.labels.value
    ensures u.labels.None? ==> g.labels == f.labels
    ensures u.sentiment.Some? ==> g.sentiment == u.sentiment.value
    ensures u.sentiment.None? ==> g.sentiment == f.sentiment
  {
    Feedback(
      Or(u.id, f.id), Or(u.projectId, f.projectId), Or(u.kind, f.kind),
      Or(u.comment, f.comment), Or(u.createdAt, f.createdAt),
      Or(u.labels, f.labels), Or(u.sentiment, f.sentiment))
  }

  /** An empty patch changes nothing, and a patch applied twice is the
      patch applied once. */
  lemma PatchLaws(f: Feedback, u: FeedbackPatch)
    ensures Patch(f, NoChanges) == f
    ensures Patch(Patch(f, u), u) == Patch(f, u)
  {
  }

  /** `updateFeedback`: every item carrying the id is patched, in place;
      all other items, and the order, are kept. Ids are not assumed unique,
      so several items may be patched. */
  function UpdateFeedback(st: AppState, feedbackId: string, u: FeedbackPatch): (r: AppState)
    ensures r.projects == st.projects
    ensures |r.feedback| == |st.feedback|
    ensures forall i :: 0 <= i < |st.feedback| && st.feedback[i].id != feedbackId ==>
      r.feedback[i] == st.feedback[i]
    ensures forall i :: 0 <= i < |st.feedback| && st.feedback[i].id == feedbackId ==>
      r.feedback[i] == Patch(st.feedback[i], u)
  {
    st.(feedback := Map(st.feedback, (f: Feedback) => if f.id == feedbackId then Patch(f, u) else f))
  }

  /** Some item carries the id. */
  predicate HasFeedback(fs: seq<Feedback>, feedbackId: string)
  {
    exists i :: 0 <= i < |fs| && fs[i].id == feedbackId
  }

  /** `updateLabel`: on every item carrying the id, the label is appended
      at the end unless the item already has it; everything else is kept. */
  function UpdateLabel(st: AppState, feedbackId: string, tag: string): (r: AppState)
    ensures r.projects == st.projects
    ensures |r.feedback| == |st.feedback|
    ensures forall i :: 0 <= i < |st.feedback| && st.feedback[i].id != feedbackId ==>
      r.feedback[i] == st.feedback[i]
    ensures forall i :: 0 <= i < |st.feedback| && tag in st.feedback[i].labels ==>
      r.feedback[i] == st.feedback[i]
    ensures forall i :: 0 <= i < |st.feedback| && st.feedback[i].id == feedbackId && tag !in st.feedback[i].labels ==>
      r.feedback[i] == st.feedback[i].(labels := st.feedback[i].labels + [tag])
  {
    st.(feedback := Map(st.feedback, (f: Feedback) =>
      if f.id == feedbackId && tag !in f.labels then f.(labels := f.labels + [tag]) else f))
  }

  /** After `updateLabel`, every item carrying the id has the label. */
  lemma UpdateLabelAdds(st: AppState, feedbackId: string, tag: string)
    ensures forall i :: 0 <= i < |st.feedback| && st.feedback[i].id == feedbackId ==>
      tag in UpdateLabel(st, feedbackId, tag).feedback[i].labels
  {
  }

  /** Adding a label twice is adding it once. */
  lemma UpdateLabelIdempotent(st: AppState, feedbackId: string, tag: string)
    ensures UpdateLabel(UpdateLabel(st, feedbackId, tag), feedbackId, tag)
         == UpdateLabel(st, feedbackId, tag)
  {
  }

  /** `updateLabel` keeps "no label twice" on every item. */
  lemma UpdateLabelKeepsLabelsUnique(st: AppState, feedbackId: string, tag: string)
    requires forall i :: 0 <= i < |st.feedback| ==> HasUniqueLabels(st.feedback[i])
    ensures forall i :: 0 <= i < |st.feedback| ==> HasUniqueLabels(UpdateLabel(st, feedbackId, tag).feedback[i])
  {
  }

  /** Updates addressed to an id no item carries leave the store as it was. */
  lemma UpdatesOfUnknownIdAreIdentity(st: AppState, feedbackId: string, u: FeedbackPatch, tag: string)
    requires !HasFeedback(st.feedback, feedbackId)
    ensures UpdateFeedback(st, feedbackId, u) == st
    ensures UpdateLabel(st, feedbackId, tag) == st
  {
  }

  /** Patching twice with the same patch is patching once, even when the
      patch moves the items to another id. */
  lemma UpdateFeedbackIdempotent(st: AppState, feedbackId: string, u: FeedbackPatch)
    ensures UpdateFeedback(UpdateFeedback(st, feedbackId, u), feedbackId, u)
         == UpdateFeedback(st, feedbackId, u)
  {
  }
}
