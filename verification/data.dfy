/** The seed projects and feedback the pages start from, and scenario
    lemmas about them. */
module Data {
  import opened Wrappers
  import opened Seqs
  import opened Definitions
  import opened Schemas
  import opened AppProvider
  import opened Actions
  import opened FeedbackTable
  import opened ProjectCard

  const Project1 := Project("proj_1", "PulseTrack App", 1698314400000, "pk_live_xxxxxxxxxxxx1")
  const Project2 := Project("proj_2", "E-commerce Website", 1700058600000, "pk_live_xxxxxxxxxxxx2")

  const SeedProjects := [Project1, Project2]

  const Fb1 := Feedback("fb_1", "proj_1", Feature,
    "It would be great to have a dark mode for the dashboard. My eyes would appreciate it!",
    1698404400000, ["ui", "dark-mode"], Some("positive"))
  const Fb2 := Feedback("fb_2", "proj_1", Bug,
    "The 'Create Project' button doesn't work on Firefox. Nothing happens when I click it.",
    1698484800000, ["bug", "firefox"], Some("negative"))
  const Fb3 := Feedback("fb_3", "proj_2", Other,
    "The checkout process is very smooth and easy to understand. Good job!",
    1700503500000, ["checkout", "ux"], Some("positive"))
  const Fb4 := Feedback("fb_4", "proj_1", Feature,
    "Can we get email notifications when new feedback is submitted?",
    1698597900000, ["notifications"], Some("neutral"))
  const Fb5 := Feedback("fb_5", "proj_2", Bug,
    "Product images are not loading on the main page. I just see spinners.",
    1700568000000, [], None)

  const SeedFeedback := [Fb1, Fb2, Fb3, Fb4, Fb5]

  function FeedbackIds(fs: seq<Feedback>): seq<string>
  {
    Map(fs, (f: Feedback) => f.id)
  }

  function Keys(projects: seq<Project>): seq<string>
  {
    Map(projects, (p: Project) => p.projectKey)
  }

  /** The seed data is consistent: project ids and keys are distinct,
      feedback ids are distinct, every item names a seed project, carries
      no label twice, has a declared sentiment and a comment the schema
      would accept. */
  lemma SeedIsConsistent()
    ensures NoDuplicates(Ids(SeedProjects)) && NoDuplicates(Keys(SeedProjects))
    ensures NoDuplicates(FeedbackIds(SeedFeedback))
    ensures forall i :: 0 <= i < |SeedFeedback| ==> SeedFeedback[i].projectId in Ids(SeedProjects)
    ensures forall i :: 0 <= i < |SeedFeedback| ==> HasUniqueLabels(SeedFeedback[i])
    ensures forall i :: 0 <= i < |SeedFeedback| ==> HasDeclaredSentiment(SeedFeedback[i])
    ensures forall i :: 0 <= i < |SeedFeedback| ==> ValidComment(SeedFeedback[i].comment)
  {
    assert Ids(SeedProjects) == ["proj_1", "proj_2"];
    assert FeedbackIds(SeedFeedback) == ["fb_1", "fb_2", "fb_3", "fb_4", "fb_5"];
  }

  /** The bug tab shows fb_2 then fb_5. */
  lemma SeedBugFilter()
    ensures FilterFeedback(SeedFeedback, Only(Bug)) == [Fb2, Fb5]
  {
    var p := IsOfType(Bug);
    FilterCons(Fb5, [], p);
    FilterCons(Fb4, [Fb5], p);
    FilterCons(Fb3, [Fb4, Fb5], p);
    FilterCons(Fb2, [Fb3, Fb4, Fb5], p);
    FilterCons(Fb1, [Fb2, Fb3, Fb4, Fb5], p);
  }

  /** The seed cards read 3 for proj_1 and 2 for proj_2, five in all. */
  lemma SeedCounts()
    ensures FeedbackCount(SeedFeedback, Project1) == 3
    ensures FeedbackCount(SeedFeedback, Project2) == 2
    ensures CountsSum(SeedFeedback, SeedProjects) == |SeedFeedback|
  {
    forall p | p in SeedProjects
      ensures FeedbackCount(SeedFeedback, p) == (if p == Project1 then 3 else 2)
    {
      PrependCounts([], Fb5, p);
      PrependCounts([Fb5], Fb4, p);
      PrependCounts([Fb4, Fb5], Fb3, p);
      PrependCounts([Fb3, Fb4, Fb5], Fb2, p);
      PrependCounts([Fb2, Fb3, Fb4, Fb5], Fb1, p);
    }
    assert SeedProjects[1..] == [Project2] && [Project2][1..] == [];
    assert CountsSum(SeedFeedback, [Project2]) == 2 + CountsSum(SeedFeedback, []);
  }

  /** Adding a label the item already has changes nothing; adding a new
      one appends it. */
  lemma SeedLabels()
    ensures UpdateLabel(AppState(SeedProjects, SeedFeedback), "fb_1", "ui") == AppState(SeedProjects, SeedFeedback)
    ensures UpdateLabel(AppState(SeedProjects, SeedFeedback), "fb_5", "images").feedback[4].labels == ["images"]
  {
  }

  /** Analysing fb_5 with a model that answers "negative" stores
      "negative" on it; a failing model leaves it unset. */
  lemma SeedAnalysis(model: string -> ModelReply)
    ensures model(Fb5.comment) == Answered("negative") ==>
      HandleAnalyzeSentiment(AppState(SeedProjects, SeedFeedback), "fb_5",
        GetSentimentAnalysis("fb_5", Fb5.comment, model)).feedback[4].sentiment == Some("negative")
    ensures model(Fb5.comment) == Threw ==>
      HandleAnalyzeSentiment(AppState(SeedProjects, SeedFeedback), "fb_5",
        GetSentimentAnalysis("fb_5", Fb5.comment, model)).feedback[4].sentiment.None?
  {
  }

  /** A store holding proj_1 and no feedback accepts a bug report for it;
      the new item has no labels and no sentiment, and is the project's
      only feedback. */
  lemma SubmitScenario(env: Env)
    ensures var r := SubmitFeedback(ServerStore([Project1], []), Some("bug"), Some("Button is broken on load"), Some("proj_1"), env);
      && r.reply.feedback.Some?
      && r.reply.feedback.value.labels == []
      && r.reply.feedback.value.sentiment.None?
      && ForProject(r.store.feedback, "proj_1") == [r.reply.feedback.value]
  {
  }

  /** Two accepted submissions for the same project, A then B, list as
      B, A, ahead of what the project had before: most recent first. */
  lemma SubmissionsListMostRecentFirst(store: ServerStore, kindA: string, commentA: string, kindB: string, commentB: string,
                                       projectId: string, envA: Env, envB: Env)
    requires AcceptsFeedback(Some(kindA), Some(commentA), Some(projectId))
    requires AcceptsFeedback(Some(kindB), Some(commentB), Some(projectId))
    ensures var ra := SubmitFeedback(store, Some(kindA), Some(commentA), Some(projectId), envA);
            var rb := SubmitFeedback(ra.store, Some(kindB), Some(commentB), Some(projectId), envB);
      ForProject(rb.store.feedback, projectId)
        == [rb.reply.feedback.value, ra.reply.feedback.value] + ForProject(store.feedback, projectId)
  {
    var ra := SubmitFeedback(store, Some(kindA), Some(commentA), Some(projectId), envA);
    var rb := SubmitFeedback(ra.store, Some(kindB), Some(commentB), Some(projectId), envB);
    var a := ra.reply.feedback.value;
    var b := rb.reply.feedback.value;
    FilterCons(a, store.feedback, IsForProject(projectId));
    FilterCons(b, ra.store.feedback, IsForProject(projectId));
  }
}
