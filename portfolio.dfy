/**
  The Portfolio page: the tag bar built from every project's tags, and the
  project grid filtered by the selected tag.
 */
module Portfolio {
  import opened Common
  import opened Sequences

  datatype Project = Project(
    title: string,
    description: string,
    image: Option<string>,
    tags: Option<seq<string>>,
    liveUrl: Option<string>,
    githubUrl: Option<string>)

  /** The `portfolio` section of the settings document. */
  datatype PortfolioConfig = PortfolioConfig(
    pageTitle: Option<string>,
    pageSubtitle: Option<string>,
    projects: Option<seq<Project>>)

  /** `(settings.portfolio || {}).projects || []`. */
  function ProjectsOf(config: Option<PortfolioConfig>): (r: seq<Project>)
    ensures config.None? || config.value.projects.None? ==> r == []
    ensures config.Some? && config.value.projects.Some? ==> r == config.value.projects.value
  {
    if config.None? then [] else OrList(config.value.projects, [])
  }

  /** `p.tags?.includes(tag)`: a project without `tags` has no tag. */
  predicate HasTag(p: Project, tag: string)
    ensures HasTag(p, tag) <==> tag in TagsOf(p)
  {
    p.tags.Some? && tag in p.tags.value
  }

  /** `p.tags || []`. */
  function TagsOf(p: Project): seq<string> {
    OrList(p.tags, [])
  }

  /** `Array.from(new Set(projects.flatMap(p => p.tags || [])))`. */
  function AllTags(projects: seq<Project>): (r: seq<string>)
    ensures NoDuplicates(r)
    ensures forall t :: t in r <==> exists k :: 0 <= k < |projects| && HasTag(projects[k], t)
  {
    var flat := FlatMap(projects, TagsOf);
    forall t ensures t in flat <==> exists k :: 0 <= k < |projects| && HasTag(projects[k], t) {
      FlatMapMembership(projects, TagsOf, t);
    }
    Distinct(flat)
  }

  /**
    The tag bar lists each tag where it first occurs across the projects:
    any project carrying a later tag is preceded (in the project list, or
    earlier in its own tag list) by an occurrence of every earlier tag.
   */
  lemma AllTagsFirstOccurrenceOrder(projects: seq<Project>)
    ensures var flat := FlatMap(projects, TagsOf);
      forall i, j, k :: 0 <= i < j < |AllTags(projects)| && 0 <= k < |flat| && flat[k] == AllTags(projects)[j] ==>
        AllTags(projects)[i] in flat[..k]
  {
    DistinctFirstOccurrenceOrder(FlatMap(projects, TagsOf));
  }

  /** The tag bar is shown exactly when some project has at least one tag. */
  predicate ShowsTagBar(projects: seq<Project>) {
    |AllTags(projects)| > 0
  }

  lemma ShowsTagBarIff(projects: seq<Project>)
    ensures ShowsTagBar(projects) <==> exists k :: 0 <= k < |projects| && TagsOf(projects[k]) != []
  {
    if ShowsTagBar(projects) {
      var t := AllTags(projects)[0];
      assert t in AllTags(projects);
      var k :| 0 <= k < |projects| && HasTag(projects[k], t);
      assert t in TagsOf(projects[k]);
    }
    if k :| 0 <= k < |projects| && TagsOf(projects[k]) != [] {
      assert HasTag(projects[k], TagsOf(projects[k])[0]);
      assert TagsOf(projects[k])[0] in AllTags(projects);
    }
  }

  /** Without a configured project list the grid is empty and the tag bar hidden. */
  lemma MissingProjectsHideTagBar(config: Option<PortfolioConfig>, selectedTag: Option<string>)
    requires config.None? || config.value.projects.None?
    ensures !ShowsTagBar(ProjectsOf(config)) && FilteredProjects(ProjectsOf(config), selectedTag) == []
  {
    assert FlatMap(ProjectsOf(config), TagsOf) == [];
  }

  /**
    `selectedTag ? projects.filter(p => p.tags?.includes(selectedTag)) : projects`.
    `null` and the empty string are both falsy, so either shows every project.
   */
  function FilteredProjects(projects: seq<Project>, selectedTag: Option<string>): (r: seq<Project>)
    ensures !Truthy(selectedTag) ==> r == projects
    ensures IsSubsequence(r, projects)
    ensures Truthy(selectedTag) ==> forall p :: p in r <==> p in projects && HasTag(p, selectedTag.value)
  {
    if Truthy(selectedTag) then
      var tag := selectedTag.value;
      FilterIsSubsequence(projects, p => HasTag(p, tag));
      forall p ensures p in Filter(projects, p => HasTag(p, tag)) <==> p in projects && HasTag(p, tag) {
        FilterMembership(projects, p => HasTag(p, tag), p);
      }
      Filter(projects, p => HasTag(p, tag))
    else
      IsSubsequenceReflexive(projects);
      projects
  }

  /**
    With a tag selected, each tagged project is shown as many times as it is
    listed and an untagged one never: together with the subsequence property
    this pins the result down to exactly the tagged projects, in order.
   */
  lemma FilteredProjectsCount(projects: seq<Project>, tag: string, p: Project)
    requires tag != ""
    ensures multiset(FilteredProjects(projects, Some(tag)))[p] ==
      if HasTag(p, tag) then multiset(projects)[p] else 0
  {
    FilterCount(projects, q => HasTag(q, tag), p);
  }

  /** The state cell `selectedTag`, starting at `null`. */
  class TagSelection {
    var selectedTag: Option<string>

    constructor ()
      ensures selectedTag == None
    {
      selectedTag := None;
    }

    /** The "All Projects" button. */
    method SelectAll()
      modifies this
      ensures selectedTag == None
    {
      selectedTag := None;
    }

    /** The button of one tag from the tag bar. */
    method SelectTag(tag: string)
      modifies this
      ensures selectedTag == Some(tag)
    {
      selectedTag := Some(tag);
    }

    /** The projects currently shown in the grid. */
    function Shown(projects: seq<Project>): (r: seq<Project>)
      reads this
      ensures selectedTag.None? ==> r == projects
      ensures IsSubsequence(r, projects)
    {
      FilteredProjects(projects, selectedTag)
    }
  }
}
