/** The server actions: each validates its form input and then either
    answers with field errors and leaves the server-side arrays alone, or
    builds a fresh entity and puts it at the front of its array.

    The clock and the random source are inputs (`Env`), so nothing here
    assumes that generated ids or keys are unique. */
module Actions {
  import opened Wrappers
  import opened JsText
  import opened Definitions
  import opened Schemas

  /** The module-level arrays `tempProjects` and `tempFeedback`. */
  datatype ServerStore = ServerStore(projects: seq<Project>, feedback: seq<Feedback>)

  /** What one call reads from its environment: `Date.now()` for the id,
      `new Date()` for the creation time (a separate clock reading) and
      `crypto.randomUUID()` for the project key. */
  datatype Env = Env(nowMs: nat, now: Timestamp, uuid: string)

  /** The arrays after the call, and what the call answers. */
  datatype Step<R> = Step(store: ServerStore, reply: R)

  // ---------------------------------------------------------------------
  // createProject

  datatype CreateProjectState = CreateProjectState(
    errors: Option<FieldErrors>,
    message: string,
    project: Option<Project>)

  const CreateProjectFailedMessage := "Missing Fields. Failed to Create Project."

  function ProjectCreatedMessage(name: string): string
  {
    "Project \"" + name + "\" created successfully."
  }

  /** `proj_${Date.now()}`. */
  function ProjectId(nowMs: nat): string
  {
    "proj_" + Decimal(nowMs)
  }

  /** `pk_${crypto.randomUUID()}`. */
  function ProjectKey(uuid: string): string
  {
    "pk_" + uuid
  }

  function CreateProject(store: ServerStore, name: Option<string>, env: Env): (r: Step<CreateProjectState>)
    ensures r.store.feedback == store.feedback
    ensures !(name.Some? && ValidProjectName(name.value)) ==>
      && r.store == store
      && r.reply.errors == Some(ParseProject(name).errors)
      && r.reply.message == CreateProjectFailedMessage
      && r.reply.project.None?
    ensures name.Some? && ValidProjectName(name.value) ==>
      && r.reply.errors.None?
      && r.reply.project.Some?
      && r.store.projects == [r.reply.project.value] + store.projects
      && r.reply.project.value.name == name.value
      && r.reply.project.value.id == ProjectId(env.nowMs)
      && r.reply.project.value.projectKey == ProjectKey(env.uuid)
      && r.reply.project.value.createdAt == env.now
      && r.reply.message == ProjectCreatedMessage(name.value)
  {
    match ParseProject(name)
    case Invalid(errors) =>
      Step(store, CreateProjectState(Some(errors), CreateProjectFailedMessage, None))
    case Valid(n) =>
      var p := Project(ProjectId(env.nowMs), n, env.now, ProjectKey(env.uuid));
      Step(store.(projects := [p] + store.projects), CreateProjectState(None, ProjectCreatedMessage(n), Some(p)))
  }

  /** A created project's id is `proj_` followed by the decimal clock
      reading, and its key is `pk_` followed by the random token. */
  lemma CreatedProjectShape(store: ServerStore, name: string, env: Env)
    requires ValidProjectName(name)
    ensures var p := CreateProject(store, Some(name), env).reply.project.value;
      && p.id[..5] == "proj_" && DecimalValue(p.id[5..]) == env.nowMs
      && p.projectKey[..3] == "pk_" && p.projectKey[3..] == env.uuid
  {
    var p := CreateProject(store, Some(name), env).reply.project.value;
    assert p.id[5..] == Decimal(env.nowMs);
    DecimalRoundTrip(env.nowMs);
  }

  /** Project ids clash exactly when two creations read the same
      millisecond, and keys clash exactly when the random tokens do: the
      code itself guarantees no uniqueness. */
  lemma ProjectIdsClashIffSameMillisecond(store1: ServerStore, store2: ServerStore, name1: string, name2: string, env1: Env, env2: Env)
    requires ValidProjectName(name1) && ValidProjectName(name2)
    ensures var p1 := CreateProject(store1, Some(name1), env1).reply.project.value;
            var p2 := CreateProject(store2, Some(name2), env2).reply.project.value;
      && (p1.id == p2.id <==> env1.nowMs == env2.nowMs)
      && (p1.projectKey == p2.projectKey <==> env1.uuid == env2.uuid)
  {
    PrefixCancel("proj_", Decimal(env1.nowMs), Decimal(env2.nowMs));
    DecimalInjective(env1.nowMs, env2.nowMs);
    PrefixCancel("pk_", env1.uuid, env2.uuid);
  }

  /** Two projects created in the same millisecond sit side by side in the
      array under one id. */
  lemma SameMillisecondDuplicatesId(store: ServerStore, name1: string, name2: string, env1: Env, env2: Env)
    requires ValidProjectName(name1) && ValidProjectName(name2)
    requires env1.nowMs == env2.nowMs
    ensures var s := CreateProject(CreateProject(store, Some(name1), env1).store, Some(name2), env2).store;
      |s.projects| == |store.projects| + 2 && s.projects[0].id == s.projects[1].id
  {
  }

  // ---------------------------------------------------------------------
  // submitFeedback

  datatype SubmitFeedbackState = SubmitFeedbackState(
    errors: Option<FieldErrors>,
    message: string,
    feedback: Option<Feedback>)

  const SubmitFeedbackFailedMessage := "Missing Fields. Failed to Submit Feedback."
  const FeedbackSubmittedMessage := "Feedback submitted successfully!"

  /** `fb_${Date.now()}`. */
  function FeedbackId(nowMs: nat): string
  {
    "fb_" + Decimal(nowMs)
  }

  function SubmitFeedback(store: ServerStore, kind: Option<string>, comment: Option<string>, projectId: Option<string>, env: Env)
    : (r: Step<SubmitFeedbackState>)
    ensures r.store.projects == store.projects
    ensures !AcceptsFeedback(kind, comment, projectId) ==>
      && r.store == store
      && r.reply.errors == Some(ParseFeedback(kind, comment, projectId).errors)
      && r.reply.message == SubmitFeedbackFailedMessage
      && r.reply.feedback.None?
    ensures AcceptsFeedback(kind, comment, projectId) ==>
      && r.reply.errors.None?
      && r.reply.message == FeedbackSubmittedMessage
      && r.reply.feedback.Some?
      && r.store.feedback == [r.reply.feedback.value] + store.feedback
      && TypeName(r.reply.feedback.value.kind) == kind.value
      && r.reply.feedback.value.comment == comment.value
      && r.reply.feedback.value.projectId == projectId.value
      && r.reply.feedback.value.labels == []
      && r.reply.feedback.value.sentiment.None?
      && r.reply.feedback.value.id == FeedbackId(env.nowMs)
      && r.reply.feedback.value.createdAt == env.now
  {
    match ParseFeedback(kind, comment, projectId)
    case Invalid(errors) =>
      Step(store, SubmitFeedbackState(Some(errors), SubmitFeedbackFailedMessage, None))
    case Valid(input) =>
      var f := Feedback(FeedbackId(env.nowMs), input.projectId, input.kind, input.comment, env.now, [], None);
      Step(store.(feedback := [f] + store.feedback), SubmitFeedbackState(None, FeedbackSubmittedMessage, Some(f)))
  }

  /** The submitted project id is never looked up: feedback for a project
      that does not exist is accepted and stored. */
  lemma SubmitAcceptsUnknownProject(store: ServerStore, kind: FeedbackType, comment: string, projectId: string, env: Env)
    requires ValidComment(comment)
    requires forall i :: 0 <= i < |store.projects| ==> store.projects[i].id != projectId
    ensures var r := SubmitFeedback(store, Some(TypeName(kind)), Some(comment), Some(projectId), env);
      && r.reply.feedback.Some?
      && r.store.feedback[0].projectId == projectId
      && forall i :: 0 <= i < |r.store.projects| ==> r.store.projects[i].id != r.store.feedback[0].projectId
  {
  }

  /** A comment shorter than ten code units is reported under `comment`,
      and the feedback array keeps its length and its contents. */
  lemma ShortCommentRejected(store: ServerStore, kind: Option<string>, comment: string, projectId: Option<string>, env: Env)
    requires Utf16Length(comment) < 10
    ensures var r := SubmitFeedback(store, kind, Some(comment), projectId, env);
      && r.reply.errors.Some?
      && r.reply.errors.value["comment"] == [Says(CommentTooShortMessage)]
      && r.store.feedback == store.feedback
  {
  }

  // ---------------------------------------------------------------------
  // getSentimentAnalysis

  /** What the language-model flow does with one text: answer with a
      string, complete without output (`output!` is then `null`, and
      reading `.sentiment` from it throws inside the `try`), or throw. */
  datatype ModelReply = Answered(sentiment: string) | NoOutput | Threw

  /** `{ sentiment }` or `{ error }`. */
  datatype SentimentResult = Analysed(sentiment: string) | AnalysisFailed(error: string)

  const AnalysisFailedMessage := "Failed to analyze sentiment."

  /** The comment text is the only input the model sees; the feedback id is
      not used. Whatever string the model answers is passed on unchecked. */
  function GetSentimentAnalysis(feedbackId: string, text: string, model: string -> ModelReply): (r: SentimentResult)
    ensures r.Analysed? <==> model(text).Answered?
    ensures r.Analysed? ==> r.sentiment == model(text).sentiment
    ensures r.AnalysisFailed? ==> r.error == AnalysisFailedMessage
  {
    match model(text)
    case Answered(s) => Analysed(s)
    case NoOutput => AnalysisFailed(AnalysisFailedMessage)
    case Threw => AnalysisFailed(AnalysisFailedMessage)
  }

  // ---------------------------------------------------------------------
  // addLabelToFeedback

  datatype LabelReply = LabelReply(message: string)

  const InvalidLabelMessage := "Invalid label."

  const LabelAddedPrefix := "Added label \""

  function LabelAddedMessage(tag: string): string
  {
    LabelAddedPrefix + tag + "\""
  }

  /** The label named in a success message, if the text is one. */
  function LabelOfMessage(message: string): (r: Option<string>)
  {
    var n := |LabelAddedPrefix|;
    if |message| >= n + 1 && message[..n] == LabelAddedPrefix && message[|message| - 1] == '"'
    then Some(message[n..|message| - 1])
    else None
  }

  /** The success message names the label exactly, and no success message
      reads as the failure message. */
  lemma LabelAddedMessageRoundTrip(tag: string, message: string)
    ensures LabelOfMessage(LabelAddedMessage(tag)) == Some(tag)
    ensures LabelOfMessage(message) == Some(tag) ==> message == LabelAddedMessage(tag)
    ensures LabelAddedMessage(tag) != InvalidLabelMessage
  {
  }

  /** Validates the label form and answers; it never touches either array
      (the store update it stands for is not written). */
  function AddLabelToFeedback(store: ServerStore, text: Option<string>, feedbackId: Option<string>): (r: Step<LabelReply>)
    ensures r.store == store
    ensures r.reply.message == InvalidLabelMessage <==> ParseLabel(text, feedbackId).Invalid?
    ensures ParseLabel(text, feedbackId).Valid? ==> LabelOfMessage(r.reply.message) == Some(text.value)
  {
    match ParseLabel(text, feedbackId)
    case Invalid(_) => Step(store, LabelReply(InvalidLabelMessage))
    case Valid(input) =>
      Step(store, LabelReply(LabelAddedMessage(input.text)))
  }
}
