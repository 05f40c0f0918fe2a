/** The project card's feedback count: how many feedback items name the
    project. */
module ProjectCard {
  import opened Seqs
  import opened Definitions

  function IsForProject(projectId: string): Feedback -> bool
  {
    (f: Feedback) => f.projectId == projectId
  }

  /** The items of one project, in list order. */
  function ForProject(fs: seq<Feedback>, projectId: string): (r: seq<Feedback>)
    ensures forall i :: 0 <= i < |r| ==> r[i].projectId == projectId
    ensures forall i :: 0 <= i < |fs| && fs[i].projectId == projectId ==> fs[i] in r
    ensures IsSubsequence(r, fs)
  {
    FilterIsSubsequence(fs, IsForProject(projectId));
    forall i | 0 <= i < |fs| && fs[i].projectId == projectId
      ensures fs[i] in Filter(fs, IsForProject(projectId))
    {
      FilterMembership(fs, IsForProject(projectId), fs[i]);
    }
    Filter(fs, IsForProject(projectId))
  }

  /** An item is among the project's items exactly when it is in the list
      and names the project. */
  lemma ForProjectMembership(fs: seq<Feedback>, projectId: string, f: Feedback)
    ensures f in ForProject(fs, projectId) <==> f in fs && f.projectId == projectId
  {
    FilterMembership(fs, IsForProject(projectId), f);
  }

  /** `feedback.filter(f => f.projectId === project.id).length`. */
  function FeedbackCount(fs: seq<Feedback>, project: Project): (n: nat)
    ensures n <= |fs|
  {
    |ForProject(fs, project.id)|
  }

  /** The number of items whose project id is `projectId`, counted one by
      one: an independent statement of what the count means. */
  function Occurrences(fs: seq<Feedback>, projectId: string): nat
    decreases |fs|
  {
    if fs == [] then 0
    else (if fs[0].projectId == projectId then 1 else 0) + Occurrences(fs[1..], projectId)
  }

  /** The card's count is the number of items that name the project. */
  lemma {:induction false} FeedbackCountIsOccurrences(fs: seq<Feedback>, project: Project)
    ensures FeedbackCount(fs, project) == Occurrences(fs, project.id)
    decreases |fs|
  {
    if fs != [] {
      FeedbackCountIsOccurrences(fs[1..], project);
      assert fs == [fs[0]] + fs[1..];
      FilterCons(fs[0], fs[1..], IsForProject(project.id));
    }
  }

  /** Prepending a feedback item raises the count of its project by one
      and leaves every other project's count as it was. */
  lemma PrependCounts(fs: seq<Feedback>, f: Feedback, project: Project)
    ensures f.projectId == project.id ==> FeedbackCount([f] + fs, project) == FeedbackCount(fs, project) + 1
    ensures f.projectId != project.id ==> FeedbackCount([f] + fs, project) == FeedbackCount(fs, project)
  {
  }

  /** The sum of the counts of a list of projects. */
  function CountsSum(fs: seq<Feedback>, projects: seq<Project>): nat
    decreases |projects|
  {
    if projects == [] then 0 else FeedbackCount(fs, projects[0]) + CountsSum(fs, projects[1..])
  }

  function Ids(projects: seq<Project>): seq<string>
  {
    Map(projects, (p: Project) => p.id)
  }

  /** How many of the projects have the id. */
  function IdOccurrences(projects: seq<Project>, projectId: string): nat
    decreases |projects|
  {
    if projects == [] then 0
    else (if projects[0].id == projectId then 1 else 0) + IdOccurrences(projects[1..], projectId)
  }

  lemma {:induction false} IdOccurrencesDistinct(projects: seq<Project>, projectId: string)
    requires NoDuplicates(Ids(projects))
    ensures IdOccurrences(projects, projectId) <= 1
    ensures IdOccurrences(projects, projectId) == 1 <==> projectId in Ids(projects)
    decreases |projects|
  {
    if projects != [] {
      var ids := Ids(projects);
      assert Ids(projects[1..]) == ids[1..];
      IdOccurrencesDistinct(projects[1..], projectId);
      if projects[0].id == projectId {
        assert projectId !in ids[1..] by {
          forall j | 0 <= j < |ids[1..]| ensures ids[1..][j] != projectId {
            assert ids[0] != ids[j + 1];
          }
        }
      }
      assert ids == [ids[0]] + ids[1..];
    }
  }

  /** Prepending an item adds, to the sum of counts, the number of projects
      that carry its project id. */
  lemma {:induction false} CountsSumCons(f: Feedback, fs: seq<Feedback>, projects: seq<Project>)
    ensures CountsSum([f] + fs, projects) == CountsSum(fs, projects) + IdOccurrences(projects, f.projectId)
    decreases |projects|
  {
    if projects != [] {
      PrependCounts(fs, f, projects[0]);
      CountsSumCons(f, fs, projects[1..]);
    }
  }

  /** For projects with pairwise distinct ids, the counts add up to the
      number of items that name one of them, so to at most the total, and
      to exactly the total when every item names one of them. */
  lemma {:induction false} CountsSumBound(fs: seq<Feedback>, projects: seq<Project>)
    requires NoDuplicates(Ids(projects))
    ensures CountsSum(fs, projects) == |Filter(fs, (f: Feedback) => f.projectId in Ids(projects))|
    ensures CountsSum(fs, projects) <= |fs|
    ensures (forall i :: 0 <= i < |fs| ==> fs[i].projectId in Ids(projects)) ==> CountsSum(fs, projects) == |fs|
    decreases |fs|
  {
    var belongs := (f: Feedback) => f.projectId in Ids(projects);
    if fs == [] {
      CountsSumEmpty(projects);
    } else {
      CountsSumBound(fs[1..], projects);
      assert fs == [fs[0]] + fs[1..];
      CountsSumCons(fs[0], fs[1..], projects);
      IdOccurrencesDistinct(projects, fs[0].projectId);
      FilterCons(fs[0], fs[1..], belongs);
    }
    if forall i :: 0 <= i < |fs| ==> fs[i].projectId in Ids(projects) {
      FilterKeepsAll(fs, belongs);
    }
  }

  lemma {:induction false} CountsSumEmpty(projects: seq<Project>)
    ensures CountsSum([], projects) == 0
    decreases |projects|
  {
    if projects != [] {
      CountsSumEmpty(projects[1..]);
    }
  }
}
