/**
 * The read API of the backlog module (src/modules/shared/data/mockData.ts): the entity types of
 * the normalized prototype and the three query functions over the in-memory fixtures. The
 * fixture arrays themselves are parameters here.
 */
module MockApi {
  import opened Options
  import opened JsArray
  import opened JsString

  datatype Priority = High | Medium | Low
  datatype Status = Todo | InProgress | Done
  datatype SprintStatus = Planning | Active | Completed

  /** A user story; `sprintId == None` is the backlog, `showTask` is the view flag of its task list. */
  datatype UserStory = UserStory(
    id: string,
    title: string,
    description: string,
    storyPoints: int,
    priority: Priority,
    status: Status,
    assignee: Option<string>,
    tags: Option<seq<string>>,
    sprintId: Option<string>,
    showTask: Option<bool>)

  datatype Task = Task(
    id: string,
    title: string,
    description: string,
    status: Status,
    assignee: string,
    userStoryId: string)

  /** A sprint; the fixture's pseudo-sprint "Backlog" has a null id. */
  datatype Sprint = Sprint(
    id: Option<string>,
    name: string,
    startDate: string,
    endDate: string,
    status: SprintStatus,
    showUserStory: Option<bool>)

  /** The payload of `getListUserStories`; every field is a plain string. */
  datatype StoryQuery = StoryQuery(sprintId: string, searchText: string, priority: string, assignee: string)

  /** The string value of a priority, as stored in the fixtures. */
  function PriorityName(p: Priority): string
  {
    match p
    case High => "High"
    case Medium => "Medium"
    case Low => "Low"
  }

  /** Case-insensitive containment, as `a.toLowerCase().includes(b.toLowerCase())`. */
  predicate ContainsIgnoringCase(value: string, part: string)
  {
    Includes(ToLowerCase(value), ToLowerCase(part))
  }

  /**
   * The filter of `getListUserStories`: exact sprint match, then case-insensitive containment of the
   * title, the priority and the assignee; a story with no assignee yields `undefined`, which is falsy.
   */
  predicate MatchesQuery(story: UserStory, q: StoryQuery)
  {
    && story.sprintId == Some(q.sprintId)
    && ContainsIgnoringCase(story.title, q.searchText)
    && ContainsIgnoringCase(PriorityName(story.priority), q.priority)
    && story.assignee.Some?
    && ContainsIgnoringCase(story.assignee.value, q.assignee)
  }

  /** `getListUserStories(payload)` over the story fixture. */
  function ListUserStories(fixture: seq<UserStory>, q: StoryQuery): seq<UserStory>
  {
    Filter(fixture, (s: UserStory) => MatchesQuery(s, q))
  }

  /** `getListTasks(userStoryId)` over the task fixture. */
  function ListTasks(fixture: seq<Task>, userStoryId: string): seq<Task>
  {
    Filter(fixture, (t: Task) => t.userStoryId == userStoryId)
  }

  /** `getListSprints()`: the sprint fixture as it is. */
  function ListSprints(fixture: seq<Sprint>): seq<Sprint>
  {
    fixture
  }

  /**
   * The stories returned are exactly the fixture's stories that match, each as often as in the
   * fixture, in fixture order; in particular every one of them belongs to the queried sprint.
   */
  lemma ListUserStoriesExact(fixture: seq<UserStory>, q: StoryQuery)
    ensures forall s :: s in ListUserStories(fixture, q) <==> s in fixture && MatchesQuery(s, q)
    ensures forall s :: s in ListUserStories(fixture, q) ==> s.sprintId == Some(q.sprintId)
    ensures forall s :: multiset(ListUserStories(fixture, q))[s] == if MatchesQuery(s, q) then multiset(fixture)[s] else 0
    ensures Subsequence(ListUserStories(fixture, q), fixture)
  {
    var r := ListUserStories(fixture, q);
    FilterFacts(fixture, (s: UserStory) => MatchesQuery(s, q));
    forall s ensures s in r <==> s in fixture && MatchesQuery(s, q) {
      assert s in r <==> multiset(r)[s] > 0;
      assert s in fixture <==> multiset(fixture)[s] > 0;
    }
  }

  /** A backlog story (null sprint id) is never returned: the payload's sprint id is a string. */
  lemma BacklogStoriesNeverListed(fixture: seq<UserStory>, q: StoryQuery, s: UserStory)
    requires s.sprintId.None?
    ensures s !in ListUserStories(fixture, q)
  {
    ListUserStoriesExact(fixture, q);
  }

  /** A story without an assignee is never returned, even for an empty assignee filter. */
  lemma UnassignedStoriesNeverListed(fixture: seq<UserStory>, q: StoryQuery, s: UserStory)
    requires s.assignee.None?
    ensures s !in ListUserStories(fixture, q)
  {
    ListUserStoriesExact(fixture, q);
  }

  /** With all three text filters empty, the query returns every assigned story of the sprint. */
  lemma EmptyFiltersMatchAssignedStories(fixture: seq<UserStory>, sprintId: string)
    ensures forall s :: s in ListUserStories(fixture, StoryQuery(sprintId, "", "", "")) <==>
      s in fixture && s.sprintId == Some(sprintId) && s.assignee.Some?
  {
    var q := StoryQuery(sprintId, "", "", "");
    ListUserStoriesExact(fixture, q);
    forall s | s in fixture && s.sprintId == Some(sprintId) && s.assignee.Some?
      ensures MatchesQuery(s, q)
    {
      EmptyIncludedEverywhere(ToLowerCase(s.title));
      EmptyIncludedEverywhere(ToLowerCase(PriorityName(s.priority)));
      EmptyIncludedEverywhere(ToLowerCase(s.assignee.value));
    }
  }

  /** Lower-casing the filter strings changes nothing: the filter ignores their letter case. */
  lemma QueryIgnoresCase(s: UserStory, q: StoryQuery)
    ensures MatchesQuery(s, q) ==
      MatchesQuery(s, q.(searchText := ToLowerCase(q.searchText), priority := ToLowerCase(q.priority),
                         assignee := ToLowerCase(q.assignee)))
  {
    ToLowerCaseIdempotent(q.searchText);
    ToLowerCaseIdempotent(q.priority);
    ToLowerCaseIdempotent(q.assignee);
  }

  /** The tasks returned are exactly the fixture's tasks of that story, each as often as in the fixture, in fixture order. */
  lemma ListTasksExact(fixture: seq<Task>, userStoryId: string)
    ensures forall t :: t in ListTasks(fixture, userStoryId) <==> t in fixture && t.userStoryId == userStoryId
    ensures forall t :: multiset(ListTasks(fixture, userStoryId))[t] == if t.userStoryId == userStoryId then multiset(fixture)[t] else 0
    ensures Subsequence(ListTasks(fixture, userStoryId), fixture)
  {
    var r := ListTasks(fixture, userStoryId);
    FilterFacts(fixture, (t: Task) => t.userStoryId == userStoryId);
    forall t ensures t in r <==> t in fixture && t.userStoryId == userStoryId {
      assert t in r <==> multiset(r)[t] > 0;
      assert t in fixture <==> multiset(fixture)[t] > 0;
    }
  }
}
