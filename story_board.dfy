/**
 * The list-based backlog page (src/components/pages/BacklogPage.tsx): the backlog and every sprint
 * own a list of user stories, and drag-and-drop moves a story from one list to the end of another.
 */
module StoryBoard {
  import opened Options
  import opened JsArray
  import opened JsString
  import MockApi

  datatype UserStory = UserStory(
    id: string,
    title: string,
    description: string,
    storyPoints: int,
    priority: MockApi.Priority,
    status: MockApi.Status,
    assignee: Option<string>,
    tags: Option<seq<string>>)

  datatype Sprint = Sprint(
    id: string,
    name: string,
    startDate: string,
    endDate: string,
    status: MockApi.SprintStatus,
    userStories: seq<UserStory>)

  /** The two state cells of the page: the backlog list and the sprint list. */
  datatype Board = Board(backlog: seq<UserStory>, sprints: seq<Sprint>)

  // ---------------------------------------------------------------------------------------------
  // The list operations the handlers are built from

  /** `stories.filter(s => s.id !== id)`. */
  function WithoutStory(stories: seq<UserStory>, id: string): seq<UserStory>
  {
    Filter(stories, (s: UserStory) => s.id != id)
  }

  /** `stories.some(s => s.id === id)`. */
  predicate HasStory(stories: seq<UserStory>, id: string)
  {
    Any(stories, (s: UserStory) => s.id == id)
  }

  /** `stories.find(s => s.id === id)`. */
  function FindStory(stories: seq<UserStory>, id: string): Option<UserStory>
  {
    Find(stories, (s: UserStory) => s.id == id)
  }

  /** `sprints.find(sprint => sprint.userStories.some(s => s.id === id))`. */
  function SprintWithStory(sprints: seq<Sprint>, id: string): Option<Sprint>
  {
    Find(sprints, (sp: Sprint) => HasStory(sp.userStories, id))
  }

  /** `sprints.find(sprint => sprint.id === sprintId)`. */
  function SprintWithId(sprints: seq<Sprint>, sprintId: string): Option<Sprint>
  {
    Find(sprints, (sp: Sprint) => sp.id == sprintId)
  }

  predicate HasSprint(sprints: seq<Sprint>, sprintId: string)
  {
    exists i :: 0 <= i < |sprints| && sprints[i].id == sprintId
  }

  /** The sprint map of the backlog-to-sprint move: append `story` to every sprint with that id. */
  function AppendToSprint(sprints: seq<Sprint>, sprintId: string, story: UserStory): seq<Sprint>
  {
    Map(sprints, (sp: Sprint) =>
      if sp.id == sprintId then sp.(userStories := sp.userStories + [story]) else sp)
  }

  /** The sprint map of the move to the backlog: drop the story from every sprint with that id. */
  function RemoveFromSprint(sprints: seq<Sprint>, sprintId: string, storyId: string): seq<Sprint>
  {
    Map(sprints, (sp: Sprint) =>
      if sp.id == sprintId then sp.(userStories := WithoutStory(sp.userStories, storyId)) else sp)
  }

  /** The sprint map of the sprint-to-sprint move: filter the source, append to the destination. */
  function Transfer(sprints: seq<Sprint>, fromId: string, toId: string, storyId: string, story: UserStory)
    : seq<Sprint>
  {
    Map(sprints, (sp: Sprint) =>
      if sp.id == fromId then sp.(userStories := WithoutStory(sp.userStories, storyId))
      else if sp.id == toId then sp.(userStories := sp.userStories + [story])
      else sp)
  }

  /** Every story on the board: the backlog, then each sprint's list in sprint order. */
  function Flatten(sprints: seq<Sprint>): seq<UserStory>
  {
    if sprints == [] then [] else sprints[0].userStories + Flatten(sprints[1..])
  }

  function AllStories(b: Board): seq<UserStory>
  {
    b.backlog + Flatten(b.sprints)
  }

  /** The story the sprint loop of the drag-start handler finds: the first sprint holding it wins. */
  function FindInSprints(sprints: seq<Sprint>, id: string): Option<UserStory>
  {
    if sprints == [] then None
    else match FindStory(sprints[0].userStories, id)
      case Some(s) => Some(s)
      case None => FindInSprints(sprints[1..], id)
  }

  // ---------------------------------------------------------------------------------------------
  // The handlers, as functions of the board

  /** `handleDragStart`: the backlog is searched first, then the sprints in order. */
  function ActiveStoryFor(b: Board, storyId: string): Option<UserStory>
  {
    match FindStory(b.backlog, storyId)
    case Some(s) => Some(s)
    case None => FindInSprints(b.sprints, storyId)
  }

  /** `handleMoveToSprint`. */
  function MoveToSprintResult(b: Board, storyId: string, sprintId: string): Board
  {
    match FindStory(b.backlog, storyId)
    case Some(story) =>
      Board(WithoutStory(b.backlog, storyId), AppendToSprint(b.sprints, sprintId, story))
    case None =>
      match SprintWithStory(b.sprints, storyId)
      case None => b
      case Some(from) =>
        if from.id == sprintId then b
        else match FindStory(from.userStories, storyId)
          case None => b
          case Some(story) => Board(b.backlog, Transfer(b.sprints, from.id, sprintId, storyId, story))
  }

  /**
   * The source sprint id of `handleMoveToBacklog`: the given one unless it is absent or empty
   * (both falsy), otherwise the id of the first sprint holding the story.
   */
  function SourceSprintId(b: Board, storyId: string, fromSprintId: Option<string>): Option<string>
  {
    if fromSprintId.Some? && fromSprintId.value != "" then fromSprintId
    else match SprintWithStory(b.sprints, storyId)
      case None => None
      case Some(sp) => Some(sp.id)
  }

  /** `handleMoveToBacklog`. */
  function MoveToBacklogResult(b: Board, storyId: string, fromSprintId: Option<string>): Board
  {
    var source := SourceSprintId(b, storyId, fromSprintId);
    if source.None? || source.value == "" then b
    else match SprintWithId(b.sprints, source.value)
      case None => b
      case Some(from) =>
        match FindStory(from.userStories, storyId)
        case None => b
        case Some(story) => Board(b.backlog + [story], RemoveFromSprint(b.sprints, source.value, storyId))
  }

  /** `MoveToBacklogResult` once its source sprint id, source sprint and story are looked up. */
  lemma {:induction false} MoveToBacklogSteps(b: Board, storyId: string, fromSprintId: Option<string>, source: string,
                                              from: Option<Sprint>, story: Option<UserStory>)
    requires SourceSprintId(b, storyId, fromSprintId) == Some(source) && source != ""
    requires from == SprintWithId(b.sprints, source)
    requires story == if from.Some? then FindStory(from.value.userStories, storyId) else None
    ensures story.None? ==> MoveToBacklogResult(b, storyId, fromSprintId) == b
    ensures story.Some? ==>
      MoveToBacklogResult(b, storyId, fromSprintId) == Board(b.backlog + [story.value], RemoveFromSprint(b.sprints, source, storyId))
  {
  }

  /** `handleDragEnd` on the two lists: route on the drop target's id. */
  function DragEndResult(b: Board, storyId: string, over: Option<string>): Board
  {
    if over.None? then b
    else if over.value == "backlog" then MoveToBacklogResult(b, storyId, None)
    else if StartsWith(over.value, "sprint-") then MoveToSprintResult(b, storyId, over.value)
    else b
  }

  // ---------------------------------------------------------------------------------------------
  // Well-formed boards: no story twice, no sprint id twice

  /** No two positions of `s` hold stories with the same id. */
  ghost predicate UniqueIds(s: seq<UserStory>)
  {
    forall i, j :: 0 <= i < j < |s| ==> s[i].id != s[j].id
  }

  ghost predicate UniqueSprintIds(sprints: seq<Sprint>)
  {
    forall i, j :: 0 <= i < j < |sprints| ==> sprints[i].id != sprints[j].id
  }

  /** Each story sits in exactly one container, once, and the sprint ids are distinct. */
  ghost predicate WellFormed(b: Board)
  {
    UniqueIds(AllStories(b)) && UniqueSprintIds(b.sprints)
  }

  /** With unique ids no story occurs twice. */
  lemma {:induction false} UniqueIdsNoRepeats(s: seq<UserStory>, x: UserStory)
    requires UniqueIds(s)
    ensures multiset(s)[x] <= 1
  {
    if s != [] {
      assert UniqueIds(s[1..]) by {
        forall i, j | 0 <= i < j < |s[1..]| ensures s[1..][i].id != s[1..][j].id {
          assert s[1..][i] == s[i + 1] && s[1..][j] == s[j + 1];
        }
      }
      UniqueIdsNoRepeats(s[1..], x);
      assert s == [s[0]] + s[1..];
      if x == s[0] {
        assert x !in s[1..];
      }
    }
  }

  /** Unique ids, restated over the multiset of stories: no story repeats, no id is shared. */
  lemma {:induction false} UniqueIdsMultiset(s: seq<UserStory>)
    ensures UniqueIds(s) <==>
      (forall x :: multiset(s)[x] <= 1) && (forall x, y :: x in s && y in s && x.id == y.id ==> x == y)
  {
    if UniqueIds(s) {
      forall x ensures multiset(s)[x] <= 1 {
        UniqueIdsNoRepeats(s, x);
      }
    }
    if (forall x :: multiset(s)[x] <= 1) && (forall x, y :: x in s && y in s && x.id == y.id ==> x == y) {
      forall i, j | 0 <= i < j < |s| ensures s[i].id != s[j].id {
        assert s == s[..j] + s[j..];
        assert s[j] in s[j..];
        assert multiset(s)[s[j]] == multiset(s[..j])[s[j]] + multiset(s[j..])[s[j]];
        assert s[j] !in s[..j];
        assert s[i] in s[..j];
        assert s[i] != s[j];
      }
    }
  }

  /** Unique ids survive taking a sub-multiset. */
  lemma {:induction false} UniqueIdsSub(a: seq<UserStory>, b: seq<UserStory>)
    requires multiset(a) <= multiset(b) && UniqueIds(b)
    ensures UniqueIds(a)
  {
    UniqueIdsMultiset(a);
    UniqueIdsMultiset(b);
    forall x | x in a ensures x in b {
      assert multiset(a)[x] > 0;
    }
  }

  // ---------------------------------------------------------------------------------------------
  // Facts about the list operations

  lemma {:induction false} FindStoryFacts(stories: seq<UserStory>, id: string)
    ensures FindStory(stories, id).Some? <==> HasStory(stories, id)
    ensures FindStory(stories, id).Some? ==>
      FindStory(stories, id).value in stories && FindStory(stories, id).value.id == id
  {
    FindFacts(stories, (s: UserStory) => s.id == id);
  }

  /** The sprint found by a story id is the first sprint whose list holds that id. */
  lemma {:induction false} SprintWithStoryFacts(sprints: seq<Sprint>, id: string)
    ensures SprintWithStory(sprints, id).None? <==> forall k :: 0 <= k < |sprints| ==> !HasStory(sprints[k].userStories, id)
    ensures SprintWithStory(sprints, id).Some? ==>
      exists k :: 0 <= k < |sprints| && sprints[k] == SprintWithStory(sprints, id).value
        && HasStory(sprints[k].userStories, id) && forall j :: 0 <= j < k ==> !HasStory(sprints[j].userStories, id)
  {
    FindFacts(sprints, (sp: Sprint) => HasStory(sp.userStories, id));
  }

  /**
   * The source sprint id of the move to the backlog: a given non-empty id is used as it is; otherwise
   * there is none exactly when no sprint holds the story, and else it is the id of the first sprint
   * that does.
   */
  lemma {:induction false} SourceSprintIdFacts(b: Board, storyId: string, fromSprintId: Option<string>)
    ensures fromSprintId.Some? && fromSprintId.value != "" ==> SourceSprintId(b, storyId, fromSprintId) == fromSprintId
    ensures !(fromSprintId.Some? && fromSprintId.value != "") ==>
      (SourceSprintId(b, storyId, fromSprintId).None? <==>
        forall k :: 0 <= k < |b.sprints| ==> !HasStory(b.sprints[k].userStories, storyId))
    ensures !(fromSprintId.Some? && fromSprintId.value != "") && SourceSprintId(b, storyId, fromSprintId).Some? ==>
      exists k :: 0 <= k < |b.sprints| && SourceSprintId(b, storyId, fromSprintId) == Some(b.sprints[k].id)
        && HasStory(b.sprints[k].userStories, storyId) && forall j :: 0 <= j < k ==> !HasStory(b.sprints[j].userStories, storyId)
  {
    SprintWithStoryFacts(b.sprints, storyId);
  }

  /** The sprint found by a sprint id is a sprint of the list with that id. */
  lemma {:induction false} SprintWithIdFacts(sprints: seq<Sprint>, sprintId: string)
    ensures SprintWithId(sprints, sprintId).None? <==> !HasSprint(sprints, sprintId)
    ensures SprintWithId(sprints, sprintId).Some? ==>
      exists k :: 0 <= k < |sprints| && sprints[k] == SprintWithId(sprints, sprintId).value && sprints[k].id == sprintId
  {
    FindFacts(sprints, (sp: Sprint) => sp.id == sprintId);
  }

  /**
   * The filter keeps every story with another id exactly as often as before, drops every story with
   * that id, and keeps the relative order of the rest; without such a story the list is unchanged.
   */
  lemma {:induction false} WithoutStoryFacts(stories: seq<UserStory>, id: string)
    ensures forall y :: multiset(WithoutStory(stories, id))[y] == if y.id == id then 0 else multiset(stories)[y]
    ensures Subsequence(WithoutStory(stories, id), stories)
    ensures !HasStory(WithoutStory(stories, id), id)
    ensures !HasStory(stories, id) ==> WithoutStory(stories, id) == stories
  {
    var r := WithoutStory(stories, id);
    FilterFacts(stories, (s: UserStory) => s.id != id);
    forall i | 0 <= i < |r| ensures r[i].id != id {
      assert multiset(r)[r[i]] > 0;
    }
    if !HasStory(stories, id) {
      FilterKeepsAll(stories, (s: UserStory) => s.id != id);
    }
  }

  /** With unique ids, dropping the id of a story of the list removes exactly that one story. */
  lemma {:induction false} WithoutStoryRemovesOne(stories: seq<UserStory>, x: UserStory)
    requires UniqueIds(stories) && x in stories
    ensures multiset(WithoutStory(stories, x.id)) == multiset(stories) - multiset{x}
  {
    WithoutStoryFacts(stories, x.id);
    UniqueIdsMultiset(stories);
  }

  lemma {:induction false} FlattenHolds(sprints: seq<Sprint>, k: int)
    requires 0 <= k < |sprints|
    ensures multiset(sprints[k].userStories) <= multiset(Flatten(sprints))
  {
    if k > 0 {
      FlattenHolds(sprints[1..], k - 1);
    }
  }

  lemma {:induction false} UniqueSprintIdsTail(sprints: seq<Sprint>)
    requires sprints != [] && UniqueSprintIds(sprints)
    ensures UniqueSprintIds(sprints[1..])
    ensures !HasSprint(sprints[1..], sprints[0].id)
  {
    forall i, j | 0 <= i < j < |sprints[1..]| ensures sprints[1..][i].id != sprints[1..][j].id {
      assert sprints[1..][i] == sprints[i + 1] && sprints[1..][j] == sprints[j + 1];
    }
    forall i | 0 <= i < |sprints[1..]| ensures sprints[1..][i].id != sprints[0].id {
      assert sprints[1..][i] == sprints[i + 1];
    }
  }

  /** A sprint list has a sprint id exactly when its first sprint or its tail has it. */
  lemma {:induction false} HasSprintCons(sprints: seq<Sprint>, sprintId: string)
    requires sprints != []
    ensures HasSprint(sprints, sprintId) <==> sprints[0].id == sprintId || HasSprint(sprints[1..], sprintId)
  {
    if HasSprint(sprints[1..], sprintId) {
      var i :| 0 <= i < |sprints[1..]| && sprints[1..][i].id == sprintId;
      assert sprints[i + 1].id == sprintId;
    }
    if HasSprint(sprints, sprintId) && sprints[0].id != sprintId {
      var i :| 0 <= i < |sprints| && sprints[i].id == sprintId;
      assert sprints[1..][i - 1].id == sprintId;
    }
  }

  /** Appending to the destination sprint adds the story once if that sprint exists, and nowhere otherwise. */
  lemma {:induction false} FlattenAppend(sprints: seq<Sprint>, sprintId: string, x: UserStory)
    requires UniqueSprintIds(sprints)
    ensures multiset(Flatten(AppendToSprint(sprints, sprintId, x))) ==
      multiset(Flatten(sprints)) + if HasSprint(sprints, sprintId) then multiset{x} else multiset{}
  {
    if sprints != [] {
      var r := AppendToSprint(sprints, sprintId, x);
      var tail := AppendToSprint(sprints[1..], sprintId, x);
      assert r[1..] == tail;
      assert Flatten(r) == r[0].userStories + Flatten(tail);
      assert Flatten(sprints) == sprints[0].userStories + Flatten(sprints[1..]);
      UniqueSprintIdsTail(sprints);
      FlattenAppend(sprints[1..], sprintId, x);
      HasSprintCons(sprints, sprintId);
    }
  }

  /** The stories of the first sprint with the given id (none when there is no such sprint). */
  ghost function SprintStories(sprints: seq<Sprint>, sprintId: string): multiset<UserStory>
  {
    if sprints == [] then multiset{}
    else if sprints[0].id == sprintId then multiset(sprints[0].userStories)
    else SprintStories(sprints[1..], sprintId)
  }

  lemma {:induction false} SprintStoriesAt(sprints: seq<Sprint>, k: int)
    requires UniqueSprintIds(sprints) && 0 <= k < |sprints|
    ensures SprintStories(sprints, sprints[k].id) == multiset(sprints[k].userStories)
  {
    if k > 0 {
      UniqueSprintIdsTail(sprints);
      assert sprints[0].id != sprints[k].id;
      SprintStoriesAt(sprints[1..], k - 1);
    }
  }

  /** Filtering one sprint's list removes, from the whole board, that sprint's stories with the id. */
  lemma {:induction false} FlattenRemove(sprints: seq<Sprint>, sprintId: string, storyId: string)
    requires UniqueSprintIds(sprints)
    ensures forall y ::
      multiset(Flatten(RemoveFromSprint(sprints, sprintId, storyId)))[y] +
      (if y.id == storyId then SprintStories(sprints, sprintId)[y] else 0) == multiset(Flatten(sprints))[y]
  {
    if sprints != [] {
      var r := RemoveFromSprint(sprints, sprintId, storyId);
      assert r[1..] == RemoveFromSprint(sprints[1..], sprintId, storyId);
      UniqueSprintIdsTail(sprints);
      FlattenRemove(sprints[1..], sprintId, storyId);
      WithoutStoryFacts(sprints[0].userStories, storyId);
      if sprints[0].id == sprintId {
        assert RemoveFromSprint(sprints[1..], sprintId, storyId) == sprints[1..];
        assert forall y :: SprintStories(sprints[1..], sprintId)[y] == 0 by {
          SprintStoriesAbsent(sprints[1..], sprintId);
        }
      }
    }
  }

  lemma {:induction false} SprintStoriesAbsent(sprints: seq<Sprint>, sprintId: string)
    requires !HasSprint(sprints, sprintId)
    ensures SprintStories(sprints, sprintId) == multiset{}
  {
    if sprints != [] {
      assert !HasSprint(sprints[1..], sprintId) by {
        forall i | 0 <= i < |sprints[1..]| ensures sprints[1..][i].id != sprintId {
          assert sprints[1..][i] == sprints[i + 1];
        }
      }
      SprintStoriesAbsent(sprints[1..], sprintId);
    }
  }

  /** On a board with unique ids, filtering the sprint holding `x` removes exactly `x`. */
  lemma {:induction false} FlattenRemoveOne(sprints: seq<Sprint>, k: int, x: UserStory)
    requires UniqueSprintIds(sprints) && UniqueIds(Flatten(sprints))
    requires 0 <= k < |sprints| && x in sprints[k].userStories
    ensures multiset(Flatten(RemoveFromSprint(sprints, sprints[k].id, x.id))) == multiset(Flatten(sprints)) - multiset{x}
  {
    var f := Flatten(sprints);
    var g := Flatten(RemoveFromSprint(sprints, sprints[k].id, x.id));
    FlattenRemove(sprints, sprints[k].id, x.id);
    SprintStoriesAt(sprints, k);
    FlattenHolds(sprints, k);
    UniqueIdsSameId(f, x);
    forall y ensures multiset(g)[y] == (multiset(f) - multiset{x})[y] {
      SameIdCount(f, g, multiset(sprints[k].userStories), x, y);
    }
    assert multiset(g) == multiset(f) - multiset{x};
  }

  /** In a list with unique ids, a story present occurs once and is the only one with its id. */
  lemma {:induction false} UniqueIdsSameId(s: seq<UserStory>, x: UserStory)
    requires UniqueIds(s)
    ensures x in s ==> multiset(s)[x] == 1
    ensures forall y :: y in s && y.id == x.id ==> y == x || x !in s
  {
    UniqueIdsMultiset(s);
  }

  /** The counting step of `FlattenRemoveOne` for one story `y`. */
  lemma {:induction false} SameIdCount(f: seq<UserStory>, g: seq<UserStory>, home: multiset<UserStory>, x: UserStory, y: UserStory)
    requires home[x] > 0 && home <= multiset(f)
    requires multiset(g)[y] + (if y.id == x.id then home[y] else 0) == multiset(f)[y]
    requires x in f ==> multiset(f)[x] == 1
    requires forall z :: z in f && z.id == x.id ==> z == x || x !in f
    ensures multiset(g)[y] == (multiset(f) - multiset{x})[y]
  {
    assert x in f by {
      assert home[x] <= multiset(f)[x];
    }
    if y.id == x.id && y != x {
      assert y !in f;
      assert home[y] <= multiset(f)[y];
    }
    if y == x {
      assert home[x] <= multiset(f)[x];
    }
  }

  lemma {:induction false} InFlatten(sprints: seq<Sprint>, x: UserStory)
    ensures x in Flatten(sprints) <==> exists i :: 0 <= i < |sprints| && x in sprints[i].userStories
  {
    if sprints != [] {
      InFlatten(sprints[1..], x);
      if exists i :: 0 <= i < |sprints[1..]| && x in sprints[1..][i].userStories {
        var i :| 0 <= i < |sprints[1..]| && x in sprints[1..][i].userStories;
        assert x in sprints[i + 1].userStories;
      }
      if exists i :: 0 <= i < |sprints| && x in sprints[i].userStories {
        var i :| 0 <= i < |sprints| && x in sprints[i].userStories;
        if i > 0 {
          assert x in sprints[1..][i - 1].userStories;
        }
      }
    }
  }

  /** The drag-start loop over sprints finds the story of the first sprint that holds the id. */
  lemma {:induction false} FindInSprintsFirst(sprints: seq<Sprint>, id: string)
    ensures FindInSprints(sprints, id) ==
      match SprintWithStory(sprints, id)
      case None => None
      case Some(sp) => FindStory(sp.userStories, id)
  {
    if sprints != [] {
      FindStoryFacts(sprints[0].userStories, id);
      FindInSprintsFirst(sprints[1..], id);
    }
  }

  /** Two sprint lists whose ids agree position by position. */
  lemma {:induction false} SameSprintIds(a: seq<Sprint>, b: seq<Sprint>, sprintId: string)
    requires |a| == |b| && forall i :: 0 <= i < |a| ==> a[i].id == b[i].id
    ensures UniqueSprintIds(a) <==> UniqueSprintIds(b)
    ensures HasSprint(a, sprintId) <==> HasSprint(b, sprintId)
  {
  }

  /** Filtering the source and appending to a different destination, in one map or in two. */
  lemma {:induction false} TransferSplit(sprints: seq<Sprint>, fromId: string, toId: string, storyId: string, x: UserStory)
    requires fromId != toId
    ensures Transfer(sprints, fromId, toId, storyId, x) ==
      AppendToSprint(RemoveFromSprint(sprints, fromId, storyId), toId, x)
  {
  }

  /** The three sprint maps change story lists only: the sprint ids stay as they were, in order. */
  lemma {:induction false} MapsKeepSprintIds(sprints: seq<Sprint>, fromId: string, toId: string, storyId: string, x: UserStory)
    ensures var t := Transfer(sprints, fromId, toId, storyId, x);
      |t| == |sprints| && forall i :: 0 <= i < |t| ==> t[i].id == sprints[i].id
    ensures var a := AppendToSprint(sprints, toId, x);
      |a| == |sprints| && forall i :: 0 <= i < |a| ==> a[i].id == sprints[i].id
    ensures var d := RemoveFromSprint(sprints, fromId, storyId);
      |d| == |sprints| && forall i :: 0 <= i < |d| ==> d[i].id == sprints[i].id
  {
    var t := Transfer(sprints, fromId, toId, storyId, x);
    forall i | 0 <= i < |t| ensures t[i].id == sprints[i].id {
      var sp := sprints[i];
      assert t[i] == if sp.id == fromId then sp.(userStories := WithoutStory(sp.userStories, storyId))
        else if sp.id == toId then sp.(userStories := sp.userStories + [x]) else sp;
    }
    var d := RemoveFromSprint(sprints, fromId, storyId);
    forall i | 0 <= i < |d| ensures d[i].id == sprints[i].id {
      var sp := sprints[i];
      assert d[i] == if sp.id == fromId then sp.(userStories := WithoutStory(sp.userStories, storyId)) else sp;
    }
  }

  /** The multiset of an optional story. */
  ghost function Found(o: Option<UserStory>): multiset<UserStory>
  {
    if o.Some? then multiset{o.value} else multiset{}
  }

  // ---------------------------------------------------------------------------------------------
  // What the moves promise

  /** The multiset bookkeeping of the backlog-to-sprint case. */
  lemma {:induction false} BacklogToSprintCount(b: Board, sprintId: string, x: UserStory)
    requires WellFormed(b) && x in b.backlog
    ensures multiset(WithoutStory(b.backlog, x.id) + Flatten(AppendToSprint(b.sprints, sprintId, x))) ==
      multiset(AllStories(b)) - (if HasSprint(b.sprints, sprintId) then multiset{} else multiset{x})
  {
    UniqueIdsSub(b.backlog, AllStories(b));
    WithoutStoryRemovesOne(b.backlog, x);
    FlattenAppend(b.sprints, sprintId, x);
  }

  /** The multiset bookkeeping of the sprint-to-sprint case. */
  lemma {:induction false} SprintToSprintCount(b: Board, k: int, sprintId: string, x: UserStory)
    requires WellFormed(b) && 0 <= k < |b.sprints| && x in b.sprints[k].userStories
    requires b.sprints[k].id != sprintId
    ensures multiset(b.backlog + Flatten(Transfer(b.sprints, b.sprints[k].id, sprintId, x.id, x))) ==
      multiset(AllStories(b)) - (if HasSprint(b.sprints, sprintId) then multiset{} else multiset{x})
  {
    var f := Flatten(b.sprints);
    var removed := RemoveFromSprint(b.sprints, b.sprints[k].id, x.id);
    UniqueIdsSub(f, AllStories(b));
    MapsKeepSprintIds(b.sprints, b.sprints[k].id, sprintId, x.id, x);
    TransferSplit(b.sprints, b.sprints[k].id, sprintId, x.id, x);
    FlattenRemoveOne(b.sprints, k, x);
    SameSprintIds(removed, b.sprints, sprintId);
    FlattenAppend(removed, sprintId, x);
    InFlatten(b.sprints, x);
    assert x in f;
  }

  /**
   * Moving to a sprint keeps every story on the board, each once, when the destination sprint
   * exists; when it does not, the moved story is dropped from its source and appears nowhere.
   */
  lemma {:induction false} MoveToSprintConservation(b: Board, storyId: string, sprintId: string)
    requires WellFormed(b)
    ensures HasSprint(b.sprints, sprintId) ==>
      multiset(AllStories(MoveToSprintResult(b, storyId, sprintId))) == multiset(AllStories(b))
    ensures !HasSprint(b.sprints, sprintId) ==>
      multiset(AllStories(MoveToSprintResult(b, storyId, sprintId))) ==
      multiset(AllStories(b)) - Found(ActiveStoryFor(b, storyId))
    ensures WellFormed(MoveToSprintResult(b, storyId, sprintId))
  {
    var r := MoveToSprintResult(b, storyId, sprintId);
    var lost := if HasSprint(b.sprints, sprintId) then multiset{} else Found(ActiveStoryFor(b, storyId));
    FindStoryFacts(b.backlog, storyId);
    if FindStory(b.backlog, storyId).Some? {
      var x := FindStory(b.backlog, storyId).value;
      assert r == Board(WithoutStory(b.backlog, storyId), AppendToSprint(b.sprints, sprintId, x));
      assert ActiveStoryFor(b, storyId) == Some(x);
      BacklogToSprintCount(b, sprintId, x);
      assert multiset(AllStories(r)) == multiset(AllStories(b)) - lost;
      MapsKeepSprintIds(b.sprints, storyId, sprintId, storyId, x);
      SameSprintIds(r.sprints, b.sprints, sprintId);
    } else if SprintWithStory(b.sprints, storyId).Some? && SprintWithStory(b.sprints, storyId).value.id != sprintId {
      SprintWithStoryFacts(b.sprints, storyId);
      var from := SprintWithStory(b.sprints, storyId).value;
      var k :| 0 <= k < |b.sprints| && b.sprints[k] == from && HasStory(from.userStories, storyId);
      FindStoryFacts(from.userStories, storyId);
      var x := FindStory(from.userStories, storyId).value;
      assert r == Board(b.backlog, Transfer(b.sprints, from.id, sprintId, storyId, x));
      FindInSprintsFirst(b.sprints, storyId);
      assert ActiveStoryFor(b, storyId) == Some(x);
      SprintToSprintCount(b, k, sprintId, x);
      assert multiset(AllStories(r)) == multiset(AllStories(b)) - lost;
      MapsKeepSprintIds(b.sprints, from.id, sprintId, storyId, x);
      SameSprintIds(r.sprints, b.sprints, sprintId);
    } else {
      assert r == b;
      if SprintWithStory(b.sprints, storyId).None? {
        FindInSprintsFirst(b.sprints, storyId);
        assert ActiveStoryFor(b, storyId) == None;
      } else {
        SprintWithStoryFacts(b.sprints, storyId);
        assert HasSprint(b.sprints, sprintId);
      }
    }
    assert multiset(AllStories(r)) <= multiset(AllStories(b));
    UniqueIdsSub(AllStories(r), AllStories(b));
  }

  /** The multiset bookkeeping of the move to the backlog. */
  lemma {:induction false} SprintToBacklogCount(b: Board, k: int, x: UserStory)
    requires WellFormed(b) && 0 <= k < |b.sprints| && x in b.sprints[k].userStories
    ensures multiset((b.backlog + [x]) + Flatten(RemoveFromSprint(b.sprints, b.sprints[k].id, x.id))) ==
      multiset(AllStories(b))
    ensures UniqueSprintIds(RemoveFromSprint(b.sprints, b.sprints[k].id, x.id))
  {
    UniqueIdsSub(Flatten(b.sprints), AllStories(b));
    FlattenRemoveOne(b.sprints, k, x);
    FlattenHolds(b.sprints, k);
    assert x in multiset(Flatten(b.sprints));
    MapsKeepSprintIds(b.sprints, b.sprints[k].id, b.sprints[k].id, x.id, x);
    SameSprintIds(RemoveFromSprint(b.sprints, b.sprints[k].id, x.id), b.sprints, b.sprints[k].id);
  }

  /** Moving to the backlog keeps every story on the board, each once, whatever the source given. */
  lemma {:induction false} MoveToBacklogConservation(b: Board, storyId: string, fromSprintId: Option<string>)
    requires WellFormed(b)
    ensures multiset(AllStories(MoveToBacklogResult(b, storyId, fromSprintId))) == multiset(AllStories(b))
    ensures WellFormed(MoveToBacklogResult(b, storyId, fromSprintId))
  {
    var r := MoveToBacklogResult(b, storyId, fromSprintId);
    var source := SourceSprintId(b, storyId, fromSprintId);
    if source.Some? && source.value != "" && SprintWithId(b.sprints, source.value).Some?
      && FindStory(SprintWithId(b.sprints, source.value).value.userStories, storyId).Some?
    {
      var from := SprintWithId(b.sprints, source.value).value;
      SprintWithIdFacts(b.sprints, source.value);
      var k :| 0 <= k < |b.sprints| && b.sprints[k] == from && from.id == source.value;
      FindStoryFacts(from.userStories, storyId);
      var x := FindStory(from.userStories, storyId).value;
      assert r == Board(b.backlog + [x], RemoveFromSprint(b.sprints, from.id, x.id));
      SprintToBacklogCount(b, k, x);
    } else {
      assert r == b;
    }
    UniqueIdsSub(AllStories(r), AllStories(b));
  }

  lemma {:induction false} FlattenHoldsTwo(sprints: seq<Sprint>, k: int, j: int)
    requires 0 <= k < |sprints| && 0 <= j < |sprints| && k != j
    ensures multiset(sprints[k].userStories) + multiset(sprints[j].userStories) <= multiset(Flatten(sprints))
  {
    var tail := sprints[1..];
    assert multiset(Flatten(sprints)) == multiset(sprints[0].userStories) + multiset(Flatten(tail));
    if k == 0 {
      assert tail[j - 1] == sprints[j];
      FlattenHolds(tail, j - 1);
    } else if j == 0 {
      assert tail[k - 1] == sprints[k];
      FlattenHolds(tail, k - 1);
    } else {
      assert tail[k - 1] == sprints[k] && tail[j - 1] == sprints[j];
      FlattenHoldsTwo(tail, k - 1, j - 1);
    }
  }


  /** On a well-formed board a story held by a sprint is in no other sprint and not in the backlog. */
  lemma {:induction false} OneHome(b: Board, k: int, id: string)
    requires WellFormed(b) && 0 <= k < |b.sprints| && HasStory(b.sprints[k].userStories, id)
    ensures !HasStory(b.backlog, id)
    ensures forall j :: 0 <= j < |b.sprints| && j != k ==> !HasStory(b.sprints[j].userStories, id)
  {
    var s := AllStories(b);
    var i :| 0 <= i < |b.sprints[k].userStories| && b.sprints[k].userStories[i].id == id;
    var y := b.sprints[k].userStories[i];
    FlattenHolds(b.sprints, k);
    assert multiset(s) == multiset(b.backlog) + multiset(Flatten(b.sprints));
    assert multiset(b.sprints[k].userStories)[y] >= 1;
    UniqueIdsSameId(s, y);
    assert y !in b.backlog;
    forall n | 0 <= n < |b.backlog| ensures b.backlog[n].id != id {
      assert b.backlog[n] in s;
    }
    forall j | 0 <= j < |b.sprints| && j != k ensures !HasStory(b.sprints[j].userStories, id) {
      FlattenHoldsTwo(b.sprints, k, j);
      FlattenHolds(b.sprints, j);
      assert y !in b.sprints[j].userStories;
      forall n | 0 <= n < |b.sprints[j].userStories| ensures b.sprints[j].userStories[n].id != id {
        assert multiset(b.sprints[j].userStories)[b.sprints[j].userStories[n]] >= 1;
        assert b.sprints[j].userStories[n] in s;
      }
    }
  }

  /**
   * Picking up a story finds the story with that id: from the backlog if it is there, otherwise
   * from a sprint; nothing exactly when no story on the board carries the id.
   */
  lemma {:induction false} ActiveStoryForFacts(b: Board, storyId: string)
    ensures ActiveStoryFor(b, storyId).Some? ==>
      ActiveStoryFor(b, storyId).value.id == storyId && ActiveStoryFor(b, storyId).value in AllStories(b)
    ensures ActiveStoryFor(b, storyId).None? <==> forall x :: x in AllStories(b) ==> x.id != storyId
    ensures HasStory(b.backlog, storyId) ==> ActiveStoryFor(b, storyId) == FindStory(b.backlog, storyId)
  {
    FindStoryFacts(b.backlog, storyId);
    FindInSprintsFirst(b.sprints, storyId);
    var sp := SprintWithStory(b.sprints, storyId);
    SprintWithStoryFacts(b.sprints, storyId);
    if sp.Some? {
      var k :| 0 <= k < |b.sprints| && b.sprints[k] == sp.value && HasStory(sp.value.userStories, storyId);
      FindStoryFacts(sp.value.userStories, storyId);
      FlattenHolds(b.sprints, k);
      assert FindStory(sp.value.userStories, storyId).value in multiset(Flatten(b.sprints));
    }
    forall x | x in AllStories(b) && ActiveStoryFor(b, storyId).None? ensures x.id != storyId {
      if x in Flatten(b.sprints) {
        InFlatten(b.sprints, x);
        var i :| 0 <= i < |b.sprints| && x in b.sprints[i].userStories;
        assert !HasStory(b.sprints[i].userStories, storyId);
      }
    }
  }

  /** On a well-formed board, picking up by a story's id picks up that very story. */
  lemma {:induction false} ActiveStoryUnique(b: Board, x: UserStory)
    requires WellFormed(b) && x in AllStories(b)
    ensures ActiveStoryFor(b, x.id) == Some(x)
  {
    ActiveStoryForFacts(b, x.id);
    UniqueIdsMultiset(AllStories(b));
  }

  /** Stories whose id is on no story of the board cannot be moved: both moves leave the board as it is. */
  lemma {:induction false} MoveUnknownStory(b: Board, storyId: string, sprintId: string, fromSprintId: Option<string>)
    requires forall x :: x in AllStories(b) ==> x.id != storyId
    ensures MoveToSprintResult(b, storyId, sprintId) == b
    ensures MoveToBacklogResult(b, storyId, fromSprintId) == b
  {
    FindStoryFacts(b.backlog, storyId);
    forall k | 0 <= k < |b.sprints| ensures !HasStory(b.sprints[k].userStories, storyId) {
      FlattenHolds(b.sprints, k);
      forall n | 0 <= n < |b.sprints[k].userStories| ensures b.sprints[k].userStories[n].id != storyId {
        assert multiset(b.sprints[k].userStories)[b.sprints[k].userStories[n]] >= 1;
        assert b.sprints[k].userStories[n] in AllStories(b);
      }
    }
    SprintWithStoryFacts(b.sprints, storyId);
    var from := SprintWithId(b.sprints, if fromSprintId.Some? then fromSprintId.value else "");
    SprintWithIdFacts(b.sprints, if fromSprintId.Some? then fromSprintId.value else "");
    if from.Some? {
      FindStoryFacts(from.value.userStories, storyId);
    }
  }

  /** On a well-formed board a story of the backlog is in no sprint. */
  lemma {:induction false} BacklogHome(b: Board, id: string)
    requires WellFormed(b) && HasStory(b.backlog, id)
    ensures forall j :: 0 <= j < |b.sprints| ==> !HasStory(b.sprints[j].userStories, id)
  {
    var s := AllStories(b);
    var i :| 0 <= i < |b.backlog| && b.backlog[i].id == id;
    var y := b.backlog[i];
    UniqueIdsMultiset(s);
    UniqueIdsNoRepeats(s, y);
    assert multiset(s) == multiset(b.backlog) + multiset(Flatten(b.sprints));
    assert multiset(b.backlog)[y] >= 1;
    assert y !in Flatten(b.sprints);
    forall j | 0 <= j < |b.sprints| ensures !HasStory(b.sprints[j].userStories, id) {
      FlattenHolds(b.sprints, j);
      forall n | 0 <= n < |b.sprints[j].userStories| ensures b.sprints[j].userStories[n].id != id {
        assert multiset(b.sprints[j].userStories)[b.sprints[j].userStories[n]] >= 1;
        assert b.sprints[j].userStories[n] in s;
        assert b.sprints[j].userStories[n] != y;
      }
    }
  }

  /** On a well-formed board, a story of a sprint is the story found there by its id. */
  lemma {:induction false} FoundInOwnSprint(b: Board, k: int, x: UserStory)
    requires WellFormed(b) && 0 <= k < |b.sprints| && x in b.sprints[k].userStories
    ensures FindStory(b.sprints[k].userStories, x.id) == Some(x)
  {
    var us := b.sprints[k].userStories;
    var n :| 0 <= n < |us| && us[n] == x;
    assert HasStory(us, x.id);
    FindStoryFacts(us, x.id);
    var found := FindStory(us, x.id).value;
    FlattenHolds(b.sprints, k);
    assert multiset(us)[found] >= 1 && multiset(us)[x] >= 1;
    UniqueIdsMultiset(AllStories(b));
    assert found in AllStories(b) && x in AllStories(b);
  }

  /** On a well-formed board, the sprint a story sits in is the first (and only) sprint holding its id. */
  lemma {:induction false} SprintOfStory(b: Board, k: int, x: UserStory)
    requires WellFormed(b) && 0 <= k < |b.sprints| && x in b.sprints[k].userStories
    ensures FindStory(b.backlog, x.id) == None
    ensures SprintWithStory(b.sprints, x.id) == Some(b.sprints[k])
    ensures FindStory(b.sprints[k].userStories, x.id) == Some(x)
  {
    FoundInOwnSprint(b, k, x);
    FindStoryFacts(b.sprints[k].userStories, x.id);
    OneHome(b, k, x.id);
    FindStoryFacts(b.backlog, x.id);
    var sp := SprintWithStory(b.sprints, x.id);
    SprintWithStoryFacts(b.sprints, x.id);
    assert sp.Some?;
    var i :| 0 <= i < |b.sprints| && b.sprints[i] == sp.value && HasStory(b.sprints[i].userStories, x.id);
    assert i == k;
  }

  /** On a well-formed board, the sprint with a given id is the one at its position. */
  lemma {:induction false} SprintAt(sprints: seq<Sprint>, k: int)
    requires UniqueSprintIds(sprints) && 0 <= k < |sprints|
    ensures SprintWithId(sprints, sprints[k].id) == Some(sprints[k])
  {
    SprintWithIdFacts(sprints, sprints[k].id);
  }

  /**
   * Dropping a backlog story on a sprint takes it out of the backlog and puts it at the end of that
   * sprint's list; every other sprint keeps its list.
   */
  lemma {:induction false} MoveFromBacklogPlacement(b: Board, k: int, x: UserStory)
    requires WellFormed(b) && x in b.backlog && 0 <= k < |b.sprints|
    ensures var r := MoveToSprintResult(b, x.id, b.sprints[k].id);
      r.backlog == WithoutStory(b.backlog, x.id) && |r.sprints| == |b.sprints| &&
      r.sprints[k] == b.sprints[k].(userStories := b.sprints[k].userStories + [x]) &&
      forall j :: 0 <= j < |b.sprints| && j != k ==> r.sprints[j] == b.sprints[j]
  {
    FindStoryFacts(b.backlog, x.id);
    UniqueIdsSub(b.backlog, AllStories(b));
    UniqueIdsMultiset(b.backlog);
    assert FindStory(b.backlog, x.id) == Some(x);
  }

  /**
   * Dropping a sprint story on another sprint takes it out of its sprint and puts it at the end of
   * the destination's list; the backlog and every third sprint are left as they were.
   */
  lemma {:induction false} MoveBetweenSprintsPlacement(b: Board, m: int, k: int, x: UserStory)
    requires WellFormed(b) && 0 <= m < |b.sprints| && x in b.sprints[m].userStories
    requires 0 <= k < |b.sprints| && k != m
    ensures var r := MoveToSprintResult(b, x.id, b.sprints[k].id);
      r.backlog == b.backlog && |r.sprints| == |b.sprints| &&
      r.sprints[m] == b.sprints[m].(userStories := WithoutStory(b.sprints[m].userStories, x.id)) &&
      r.sprints[k] == b.sprints[k].(userStories := b.sprints[k].userStories + [x]) &&
      forall j :: 0 <= j < |b.sprints| && j != k && j != m ==> r.sprints[j] == b.sprints[j]
  {
    SprintOfStory(b, m, x);
    assert b.sprints[m].id != b.sprints[k].id;
  }

  /** Dropping a story on the sprint that already holds it changes nothing. */
  lemma {:induction false} MoveToOwnSprint(b: Board, k: int, x: UserStory)
    requires WellFormed(b) && 0 <= k < |b.sprints| && x in b.sprints[k].userStories
    ensures MoveToSprintResult(b, x.id, b.sprints[k].id) == b
  {
    SprintOfStory(b, k, x);
  }

  /**
   * Moving a sprint story to the backlog, from its own sprint or with the source left to the search,
   * appends it to the backlog and takes it out of that sprint; the other sprints are left alone.
   */
  lemma {:induction false} MoveToBacklogPlacement(b: Board, k: int, x: UserStory, fromSprintId: Option<string>)
    requires WellFormed(b) && 0 <= k < |b.sprints| && x in b.sprints[k].userStories
    requires b.sprints[k].id != ""
    requires fromSprintId == None || fromSprintId == Some("") || fromSprintId == Some(b.sprints[k].id)
    ensures var r := MoveToBacklogResult(b, x.id, fromSprintId);
      r.backlog == b.backlog + [x] && |r.sprints| == |b.sprints| &&
      r.sprints[k] == b.sprints[k].(userStories := WithoutStory(b.sprints[k].userStories, x.id)) &&
      forall j :: 0 <= j < |b.sprints| && j != k ==> r.sprints[j] == b.sprints[j]
  {
    SprintOfStory(b, k, x);
    SprintAt(b.sprints, k);
    assert SourceSprintId(b, x.id, fromSprintId) == Some(b.sprints[k].id);
  }

  /** A story of a sprint whose id is empty cannot be moved to the backlog by searching for its sprint. */
  lemma {:induction false} MoveToBacklogFromUnnamedSprint(b: Board, k: int, x: UserStory)
    requires WellFormed(b) && 0 <= k < |b.sprints| && x in b.sprints[k].userStories
    requires b.sprints[k].id == ""
    ensures MoveToBacklogResult(b, x.id, None) == b
  {
    SprintOfStory(b, k, x);
  }

  /** Naming a source sprint that does not hold the story makes the move to the backlog do nothing. */
  lemma {:induction false} MoveToBacklogWrongSource(b: Board, storyId: string, source: string)
    requires source != ""
    requires forall j :: 0 <= j < |b.sprints| && b.sprints[j].id == source ==> !HasStory(b.sprints[j].userStories, storyId)
    ensures MoveToBacklogResult(b, storyId, Some(source)) == b
  {
    var from := SprintWithId(b.sprints, source);
    SprintWithIdFacts(b.sprints, source);
    if from.Some? {
      FindStoryFacts(from.value.userStories, storyId);
    }
  }

  /** Dropping a backlog story back on the backlog changes nothing. */
  lemma {:induction false} DropBacklogStoryOnBacklog(b: Board, x: UserStory)
    requires WellFormed(b) && x in b.backlog
    ensures DragEndResult(b, x.id, Some("backlog")) == b
  {
    FindStoryFacts(b.backlog, x.id);
    assert HasStory(b.backlog, x.id);
    BacklogHome(b, x.id);
    SprintWithStoryFacts(b.sprints, x.id);
  }

  /**
   * A drop keeps the board well-formed and keeps every story, except that a drop on a `sprint-`
   * target that names no sprint loses the dragged story.
   */
  lemma {:induction false} DragEndConservation(b: Board, storyId: string, over: Option<string>)
    requires WellFormed(b)
    ensures WellFormed(DragEndResult(b, storyId, over))
    ensures multiset(AllStories(DragEndResult(b, storyId, over))) ==
      if over.Some? && over.value != "backlog" && StartsWith(over.value, "sprint-") && !HasSprint(b.sprints, over.value)
      then multiset(AllStories(b)) - Found(ActiveStoryFor(b, storyId))
      else multiset(AllStories(b))
  {
    if over.Some? && over.value == "backlog" {
      MoveToBacklogConservation(b, storyId, None);
    } else if over.Some? && StartsWith(over.value, "sprint-") {
      MoveToSprintConservation(b, storyId, over.value);
    }
  }

  // ---------------------------------------------------------------------------------------------
  // The page component and its state cells

  /** `BacklogPage`: the backlog list, the sprint list and the story being dragged. */
  class BacklogPage {
    var backlogStories: seq<UserStory>
    var sprints: seq<Sprint>
    var activeStory: Option<UserStory>

    /** The cells start from the fixtures the page is given, with nothing being dragged. */
    constructor(initialBacklog: seq<UserStory>, initialSprints: seq<Sprint>)
      ensures backlogStories == initialBacklog && sprints == initialSprints && activeStory == None
    {
      backlogStories := initialBacklog;
      sprints := initialSprints;
      activeStory := None;
    }

    /** The two list cells as a board. */
    function Snapshot(): Board
      reads this
    {
      Board(backlogStories, sprints)
    }

    /** `handleDragStart`: search the backlog, then the sprints one by one, stopping at the first hit. */
    method HandleDragStart(storyId: string)
      modifies this
      ensures activeStory == ActiveStoryFor(old(Snapshot()), storyId)
      ensures backlogStories == old(backlogStories) && sprints == old(sprints)
    {
      var story := FindStory(backlogStories, storyId);
      if story.None? {
        var i := 0;
        while i < |sprints|
          invariant 0 <= i <= |sprints|
          invariant story.None?
          invariant FindInSprints(sprints, storyId) == FindInSprints(sprints[i..], storyId)
        {
          story := FindStory(sprints[i].userStories, storyId);
          if story.Some? {
            assert FindInSprints(sprints[i..], storyId) == story;
            break;
          }
          assert sprints[i..][1..] == sprints[i + 1..];
          i := i + 1;
        }
      }
      activeStory := story;
    }

    /** `handleMoveToSprint`. */
    method HandleMoveToSprint(storyId: string, sprintId: string)
      modifies this
      ensures Snapshot() == MoveToSprintResult(old(Snapshot()), storyId, sprintId)
      ensures activeStory == old(activeStory)
    {
      var inBacklog := FindStory(backlogStories, storyId);
      if inBacklog.Some? {
        var story := inBacklog.value;
        backlogStories := WithoutStory(backlogStories, storyId);
        sprints := AppendToSprint(sprints, sprintId, story);
      } else {
        var fromSprint := SprintWithStory(sprints, storyId);
        if fromSprint.Some? && fromSprint.value.id != sprintId {
          var story := FindStory(fromSprint.value.userStories, storyId);
          if story.None? {
            return;
          }
          sprints := Transfer(sprints, fromSprint.value.id, sprintId, storyId, story.value);
        }
      }
    }

    /**
     * The first step of `handleMoveToBacklog`: a given non-empty source sprint id, else the id of the
     * first sprint holding the story, else none.
     */
    method SourceSprintFor(storyId: string, fromSprintId: Option<string>) returns (sourceSprintId: Option<string>)
      ensures sourceSprintId == SourceSprintId(Snapshot(), storyId, fromSprintId)
      ensures fromSprintId.Some? && fromSprintId.value != "" ==> sourceSprintId == fromSprintId
      ensures !(fromSprintId.Some? && fromSprintId.value != "") ==>
        (sourceSprintId.None? <==> forall k :: 0 <= k < |sprints| ==> !HasStory(sprints[k].userStories, storyId))
      ensures !(fromSprintId.Some? && fromSprintId.value != "") && sourceSprintId.Some? ==>
        exists k :: 0 <= k < |sprints| && sourceSprintId == Some(sprints[k].id)
          && HasStory(sprints[k].userStories, storyId) && forall j :: 0 <= j < k ==> !HasStory(sprints[j].userStories, storyId)
    {
      SourceSprintIdFacts(Snapshot(), storyId, fromSprintId);
      sourceSprintId := fromSprintId;
      if sourceSprintId.None? || sourceSprintId.value == "" {
        var sourceSprint := SprintWithStory(sprints, storyId);
        sourceSprintId := if sourceSprint.Some? then Some(sourceSprint.value.id) else None;
      }
    }

    /** `handleMoveToBacklog`, with the optional source sprint id. */
    method HandleMoveToBacklog(storyId: string, fromSprintId: Option<string>)
      modifies this
      ensures Snapshot() == MoveToBacklogResult(old(Snapshot()), storyId, fromSprintId)
      ensures activeStory == old(activeStory)
    {
      var sourceSprintId := SourceSprintFor(storyId, fromSprintId);
      if sourceSprintId.None? || sourceSprintId.value == "" {
        return;
      }
      var fromSprint := SprintWithId(sprints, sourceSprintId.value);
      var story := if fromSprint.Some? then FindStory(fromSprint.value.userStories, storyId) else None;
      MoveToBacklogSteps(Snapshot(), storyId, fromSprintId, sourceSprintId.value, fromSprint, story);
      if story.None? {
        return;
      }
      sprints := RemoveFromSprint(sprints, sourceSprintId.value, storyId);
      backlogStories := backlogStories + [story.value];
    }

    /**
     * `handleDragEnd`: the dragged story is let go, and the drop is routed on the target's id. A
     * well-formed board stays well-formed.
     */
    method HandleDragEnd(storyId: string, over: Option<string>)
      modifies this
      ensures activeStory == None
      ensures Snapshot() == DragEndResult(old(Snapshot()), storyId, over)
      ensures WellFormed(old(Snapshot())) ==> WellFormed(Snapshot())
    {
      if WellFormed(Snapshot()) {
        DragEndConservation(Snapshot(), storyId, over);
      }
      activeStory := None;
      if over.None? {
        return;
      }
      var dropTargetId := over.value;
      if dropTargetId == "backlog" {
        HandleMoveToBacklog(storyId, None);
        return;
      }
      if StartsWith(dropTargetId, "sprint-") {
        HandleMoveToSprint(storyId, dropTargetId);
        return;
      }
    }
  }
}
