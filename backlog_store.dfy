/**
 * The normalized backlog module (src/modules/backlog/backlog-page.tsx): a reducer over one state
 * record holding the sprint list, the filter fields, stories and tasks keyed by id, and a
 * loading/error flag pair; and the action functions that dispatch into it. The fetches of the
 * action functions are answered by the query functions of `MockApi` over fixtures given as
 * parameters, and whether the request fails is an input.
 */
module BacklogStore {
  import opened Options
  import opened JsArray
  import MockApi

  /** Which request is in flight. */
  datatype Loading = UserStories | Sprints | Tasks

  datatype BacklogData = BacklogData(
    sprints: seq<MockApi.Sprint>,
    searchText: string,
    priority: string,
    assignee: string,
    userStoryMap: map<string, MockApi.UserStory>,
    taskMap: map<string, MockApi.Task>,
    loading: Option<Loading>,
    error: Option<string>)

  /** `INIT_BACKLOG_DATA`. */
  const InitBacklogData := BacklogData([], "", "", "", map[], map[], None, None)

  /** The one error message the reducer records. */
  const ErrorMessage := "Something went wrong"

  /** The payload of `update:filter`: an absent field is `None`. */
  datatype FilterPatch = FilterPatch(searchText: Option<string>, priority: Option<string>, assignee: Option<string>)

  /** The filter of a `search:userStory` request. */
  datatype FilterOptions = FilterOptions(priority: MockApi.Priority, assignee: string, searchText: string)

  /** The actions of the reducer; `Unrecognized` stands for any other `type` tag. */
  datatype Action =
    | SearchUserStoryStart
    | LoadSprintsStart
    | LoadTasksStart
    | Error
    | LoadSprintsSuccess(sprintList: seq<MockApi.Sprint>)
    | SearchUserStorySuccess(stories: seq<MockApi.UserStory>)
    | ToggleShowUserStory(sprintId: Option<string>)
    | ToggleShowTask(userStoryId: string)
    | LoadTasksSuccess(tasks: seq<MockApi.Task>)
    | UpdateFilter(patch: FilterPatch)
    | Unrecognized

  // ---------------------------------------------------------------------------------------------
  // Merging a batch into a map keyed by id

  /** The last position of the batch whose element has id `k`, or -1 when there is none. */
  function LastIndexOf<T>(batch: seq<T>, idOf: T -> string, k: string): (i: int)
    ensures -1 <= i < |batch|
    ensures i >= 0 ==> idOf(batch[i]) == k
    ensures forall j :: i < j < |batch| ==> idOf(batch[j]) != k
  {
    if batch == [] then -1
    else if idOf(batch[|batch| - 1]) == k then |batch| - 1
    else LastIndexOf(batch[..|batch| - 1], idOf, k)
  }

  /** Any position that is last with id `k` (or -1 when none is) is the one `LastIndexOf` finds. */
  lemma {:induction false} LastIndexOfUnique<T>(batch: seq<T>, idOf: T -> string, k: string, e: int)
    requires -1 <= e < |batch|
    requires e >= 0 ==> idOf(batch[e]) == k
    requires forall j :: e < j < |batch| ==> idOf(batch[j]) != k
    ensures LastIndexOf(batch, idOf, k) == e
  {
  }

  /**
   * `new Map(m)` filled by `batch.forEach(x => copy.set(idOf(x), x))`: every id of the batch maps to
   * the last element carrying it, every other key keeps its entry, and no key is dropped.
   */
  function Upserted<T>(m: map<string, T>, batch: seq<T>, idOf: T -> string): (r: map<string, T>)
    ensures forall k :: k in r <==> k in m || LastIndexOf(batch, idOf, k) >= 0
    ensures forall k :: k in r ==>
      r[k] == if LastIndexOf(batch, idOf, k) >= 0 then batch[LastIndexOf(batch, idOf, k)] else m[k]
    decreases |batch|
  {
    if batch == [] then m
    else
      var n := |batch| - 1;
      assert forall i :: 0 <= i < n ==> batch[..n][i] == batch[i];
      Upserted(m, batch[..n], idOf)[idOf(batch[n]) := batch[n]]
  }

  /** The `forEach`/`set` loop of the two merge cases, on a copy of the map. */
  method UpsertAll<T>(m: map<string, T>, batch: seq<T>, idOf: T -> string) returns (r: map<string, T>)
    ensures r == Upserted(m, batch, idOf)
  {
    r := m;
    var i := 0;
    while i < |batch|
      invariant 0 <= i <= |batch|
      invariant r == Upserted(m, batch[..i], idOf)
    {
      assert batch[..i + 1][..i] == batch[..i];
      r := r[idOf(batch[i]) := batch[i]];
      i := i + 1;
    }
    assert batch[..i] == batch;
  }

  /** Merging the same batch a second time changes nothing. */
  lemma {:induction false} UpsertedIdempotent<T>(m: map<string, T>, batch: seq<T>, idOf: T -> string)
    ensures Upserted(Upserted(m, batch, idOf), batch, idOf) == Upserted(m, batch, idOf)
  {
    var once := Upserted(m, batch, idOf);
    var twice := Upserted(once, batch, idOf);
    assert twice.Keys == once.Keys;
    forall k | k in once ensures twice[k] == once[k] {
    }
  }

  /** One key of the two merge orders of batches that share no id. */
  lemma {:induction false} UpsertedCommuteAt<T>(m: map<string, T>, a: seq<T>, b: seq<T>, idOf: T -> string, k: string)
    requires forall i, j :: 0 <= i < |a| && 0 <= j < |b| ==> idOf(a[i]) != idOf(b[j])
    ensures var ab := Upserted(Upserted(m, a, idOf), b, idOf);
      var ba := Upserted(Upserted(m, b, idOf), a, idOf);
      (k in ab <==> k in ba) && (k in ab ==> ab[k] == ba[k])
  {
    var i := LastIndexOf(a, idOf, k);
    var j := LastIndexOf(b, idOf, k);
    assert !(i >= 0 && j >= 0);
  }

  /** Two batches that share no id can be merged in either order. */
  lemma {:induction false} UpsertedCommute<T>(m: map<string, T>, a: seq<T>, b: seq<T>, idOf: T -> string)
    requires forall i, j :: 0 <= i < |a| && 0 <= j < |b| ==> idOf(a[i]) != idOf(b[j])
    ensures Upserted(Upserted(m, a, idOf), b, idOf) == Upserted(Upserted(m, b, idOf), a, idOf)
  {
    var ab := Upserted(Upserted(m, a, idOf), b, idOf);
    var ba := Upserted(Upserted(m, b, idOf), a, idOf);
    forall k ensures (k in ab <==> k in ba) && (k in ab ==> ab[k] == ba[k]) {
      UpsertedCommuteAt(m, a, b, idOf, k);
    }
    SameEntries(ab, ba);
  }

  /** Two maps with the same keys and the same entry under each key are equal. */
  lemma SameEntries<T>(x: map<string, T>, y: map<string, T>)
    requires forall k :: (k in x <==> k in y) && (k in x ==> x[k] == y[k])
    ensures x == y
  {
    assert x.Keys == y.Keys;
  }

  /** A map whose every entry is stored under its own id. */
  ghost predicate KeyedBy<T>(m: map<string, T>, idOf: T -> string)
  {
    forall k :: k in m ==> idOf(m[k]) == k
  }

  /** Merging keeps a map keyed by id. */
  lemma {:induction false} UpsertedKeyedBy<T>(m: map<string, T>, batch: seq<T>, idOf: T -> string)
    requires KeyedBy(m, idOf)
    ensures KeyedBy(Upserted(m, batch, idOf), idOf)
  {
  }

  // ---------------------------------------------------------------------------------------------
  // The reducer

  function StoryId(s: MockApi.UserStory): string { s.id }

  function TaskId(t: MockApi.Task): string { t.id }

  /** JavaScript truthiness of an optional flag: `undefined` and `false` are falsy. */
  predicate Truthy(flag: Option<bool>)
  {
    flag.Some? && flag.value
  }

  /** The sprint map of `toggle:showUserStory`; `===` on two nullable ids, so `null` matches `null`. */
  function ToggledSprints(sprints: seq<MockApi.Sprint>, sprintId: Option<string>): seq<MockApi.Sprint>
  {
    Map(sprints, (sp: MockApi.Sprint) =>
      if sp.id == sprintId then sp.(showUserStory := Some(!Truthy(sp.showUserStory))) else sp)
  }

  /** The story map of `toggle:showTask`: a copy, with the named story's flag flipped if it is there. */
  function ToggledTask(m: map<string, MockApi.UserStory>, userStoryId: string): map<string, MockApi.UserStory>
  {
    if userStoryId in m then m[userStoryId := m[userStoryId].(showTask := Some(!Truthy(m[userStoryId].showTask)))]
    else m
  }

  /** `backlogDispatch`. */
  function BacklogDispatch(state: BacklogData, action: Action): BacklogData
  {
    match action
    case SearchUserStoryStart => state.(loading := Some(UserStories), error := None)
    case LoadSprintsStart => state.(loading := Some(Sprints), error := None)
    case LoadTasksStart => state.(loading := Some(Tasks), error := None)
    case Error => state.(loading := None, error := Some(ErrorMessage))
    case LoadSprintsSuccess(data) => state.(sprints := data, loading := None, error := None)
    case SearchUserStorySuccess(data) =>
      state.(userStoryMap := Upserted(state.userStoryMap, data, StoryId), loading := None, error := None)
    case ToggleShowUserStory(sprintId) => state.(sprints := ToggledSprints(state.sprints, sprintId))
    case ToggleShowTask(userStoryId) => state.(userStoryMap := ToggledTask(state.userStoryMap, userStoryId))
    case LoadTasksSuccess(data) =>
      state.(taskMap := Upserted(state.taskMap, data, TaskId), loading := None, error := None)
    case UpdateFilter(p) =>
      state.(searchText := p.searchText.GetOr(state.searchText),
             priority := p.priority.GetOr(state.priority),
             assignee := p.assignee.GetOr(state.assignee))
    case Unrecognized => state
  }

  /** The state after dispatching `actions` in order. */
  function Replay(state: BacklogData, actions: seq<Action>): BacklogData
    decreases |actions|
  {
    if actions == [] then state else Replay(BacklogDispatch(state, actions[0]), actions[1..])
  }

  lemma {:induction false} ReplayAppend(state: BacklogData, actions: seq<Action>, a: Action)
    ensures Replay(state, actions + [a]) == BacklogDispatch(Replay(state, actions), a)
    decreases |actions|
  {
    if actions != [] {
      assert (actions + [a])[1..] == actions[1..] + [a];
      ReplayAppend(BacklogDispatch(state, actions[0]), actions[1..], a);
    }
  }

  lemma ReplayShort(state: BacklogData, a: Action, b: Action)
    ensures Replay(state, [a]) == BacklogDispatch(state, a)
    ensures Replay(state, [a, b]) == BacklogDispatch(BacklogDispatch(state, a), b)
  {
    assert [a, b][1..] == [b];
    assert [b][1..] == [];
    assert Replay(state, [a, b]) == Replay(BacklogDispatch(state, a), [b]);
    assert Replay(BacklogDispatch(state, a), [b]) == BacklogDispatch(BacklogDispatch(state, a), b);
  }

  // ---------------------------------------------------------------------------------------------
  // What the reducer promises

  /**
   * The state invariant: never loading and failed at once, and both maps keyed by the ids of
   * their entries.
   */
  ghost predicate Consistent(s: BacklogData)
  {
    && !(s.loading.Some? && s.error.Some?)
    && KeyedBy(s.userStoryMap, StoryId)
    && KeyedBy(s.taskMap, TaskId)
  }

  /** Every action keeps the invariant. */
  lemma {:induction false} DispatchKeepsConsistent(state: BacklogData, action: Action)
    requires Consistent(state)
    ensures Consistent(BacklogDispatch(state, action))
  {
    match action
    case SearchUserStorySuccess(data) => UpsertedKeyedBy(state.userStoryMap, data, StoryId);
    case LoadTasksSuccess(data) => UpsertedKeyedBy(state.taskMap, data, TaskId);
    case _ =>
  }

  /** The invariant holds initially and after any sequence of actions. */
  lemma {:induction false} ReplayConsistent(state: BacklogData, actions: seq<Action>)
    requires Consistent(state)
    ensures Consistent(Replay(state, actions))
    decreases |actions|
  {
    if actions != [] {
      DispatchKeepsConsistent(state, actions[0]);
      ReplayConsistent(BacklogDispatch(state, actions[0]), actions[1..]);
    }
  }

  lemma InitConsistent()
    ensures Consistent(InitBacklogData)
    ensures InitBacklogData.loading == None && InitBacklogData.error == None
  {
  }

  /**
   * The loading/error machine: a start action records its kind and clears the error, `error`
   * clears the kind and records the message, the three successes clear both, and the sprint
   * success replaces the sprint list wholesale; every other action
   * leaves both alone, and an unrecognized action leaves the whole state alone.
   */
  lemma {:induction false} LoadingMachine(state: BacklogData, action: Action)
    ensures action.SearchUserStoryStart? ==>
      BacklogDispatch(state, action) == state.(loading := Some(UserStories), error := None)
    ensures action.LoadSprintsStart? ==>
      BacklogDispatch(state, action) == state.(loading := Some(Sprints), error := None)
    ensures action.LoadTasksStart? ==>
      BacklogDispatch(state, action) == state.(loading := Some(Tasks), error := None)
    ensures action.Error? ==>
      BacklogDispatch(state, action) == state.(loading := None, error := Some("Something went wrong"))
    ensures action.LoadSprintsSuccess? ==>
      BacklogDispatch(state, action) == state.(sprints := action.sprintList, loading := None, error := None)
    ensures action.LoadSprintsSuccess? || action.SearchUserStorySuccess? || action.LoadTasksSuccess? ==>
      BacklogDispatch(state, action).loading == None && BacklogDispatch(state, action).error == None
    ensures action.ToggleShowUserStory? || action.ToggleShowTask? || action.UpdateFilter? ==>
      BacklogDispatch(state, action).loading == state.loading && BacklogDispatch(state, action).error == state.error
    ensures action.Unrecognized? ==> BacklogDispatch(state, action) == state
  {
  }

  /**
   * `search:userStory:success` never forgets a story: every key stays, every story of the batch is
   * stored under its id, the last one of an id winning, and the sprints, filters and tasks stay.
   */
  lemma {:induction false} SearchSuccessMerges(state: BacklogData, batch: seq<MockApi.UserStory>)
    ensures var r := BacklogDispatch(state, SearchUserStorySuccess(batch));
      && (forall k :: k in state.userStoryMap ==> k in r.userStoryMap)
      && (forall k :: k in r.userStoryMap ==> k in state.userStoryMap || exists i :: 0 <= i < |batch| && batch[i].id == k)
      && (forall i :: 0 <= i < |batch| && (forall j :: i < j < |batch| ==> batch[j].id != batch[i].id) ==>
            batch[i].id in r.userStoryMap && r.userStoryMap[batch[i].id] == batch[i])
      && (forall k :: k in state.userStoryMap && (forall i :: 0 <= i < |batch| ==> batch[i].id != k) ==>
            r.userStoryMap[k] == state.userStoryMap[k])
      && r == state.(userStoryMap := r.userStoryMap, loading := None, error := None)
  {
    var r := BacklogDispatch(state, SearchUserStorySuccess(batch));
    forall i | 0 <= i < |batch| && (forall j :: i < j < |batch| ==> batch[j].id != batch[i].id)
      ensures batch[i].id in r.userStoryMap && r.userStoryMap[batch[i].id] == batch[i]
    {
      LastIndexOfUnique(batch, StoryId, batch[i].id, i);
    }
    forall k | k in r.userStoryMap && k !in state.userStoryMap
      ensures exists i :: 0 <= i < |batch| && batch[i].id == k
    {
      var last := LastIndexOf(batch, StoryId, k);
      assert batch[last].id == k;
    }
  }

  /** `load:tasks:success` merges the same way into the task map. */
  lemma {:induction false} TasksSuccessMerges(state: BacklogData, batch: seq<MockApi.Task>)
    ensures var r := BacklogDispatch(state, LoadTasksSuccess(batch));
      && (forall k :: k in state.taskMap ==> k in r.taskMap)
      && (forall k :: k in r.taskMap ==> k in state.taskMap || exists i :: 0 <= i < |batch| && batch[i].id == k)
      && (forall i :: 0 <= i < |batch| && (forall j :: i < j < |batch| ==> batch[j].id != batch[i].id) ==>
            batch[i].id in r.taskMap && r.taskMap[batch[i].id] == batch[i])
      && (forall k :: k in state.taskMap && (forall i :: 0 <= i < |batch| ==> batch[i].id != k) ==>
            r.taskMap[k] == state.taskMap[k])
      && r == state.(taskMap := r.taskMap, loading := None, error := None)
  {
    var r := BacklogDispatch(state, LoadTasksSuccess(batch));
    forall i | 0 <= i < |batch| && (forall j :: i < j < |batch| ==> batch[j].id != batch[i].id)
      ensures batch[i].id in r.taskMap && r.taskMap[batch[i].id] == batch[i]
    {
      LastIndexOfUnique(batch, TaskId, batch[i].id, i);
    }
    forall k | k in r.taskMap && k !in state.taskMap
      ensures exists i :: 0 <= i < |batch| && batch[i].id == k
    {
      var last := LastIndexOf(batch, TaskId, k);
      assert batch[last].id == k;
    }
  }

  /** Receiving the same search results twice is the same as receiving them once. */
  lemma {:induction false} SearchSuccessIdempotent(state: BacklogData, batch: seq<MockApi.UserStory>)
    ensures Replay(state, [SearchUserStorySuccess(batch), SearchUserStorySuccess(batch)]) ==
      BacklogDispatch(state, SearchUserStorySuccess(batch))
  {
    ReplayShort(state, SearchUserStorySuccess(batch), SearchUserStorySuccess(batch));
    UpsertedIdempotent(state.userStoryMap, batch, StoryId);
  }

  /** Search results about different stories can arrive in either order. */
  lemma {:induction false} SearchSuccessesCommute(state: BacklogData, a: seq<MockApi.UserStory>, b: seq<MockApi.UserStory>)
    requires forall i, j :: 0 <= i < |a| && 0 <= j < |b| ==> a[i].id != b[j].id
    ensures Replay(state, [SearchUserStorySuccess(a), SearchUserStorySuccess(b)]) ==
      Replay(state, [SearchUserStorySuccess(b), SearchUserStorySuccess(a)])
  {
    ReplayShort(state, SearchUserStorySuccess(a), SearchUserStorySuccess(b));
    ReplayShort(state, SearchUserStorySuccess(b), SearchUserStorySuccess(a));
    UpsertedCommute(state.userStoryMap, a, b, StoryId);
  }

  /**
   * `toggle:showUserStory` keeps the sprints and their order, flips the flag of exactly the sprints
   * whose (nullable) id equals the payload's, an undefined flag counting as false, and touches
   * nothing else.
   */
  lemma {:induction false} ToggleShowUserStoryFacts(state: BacklogData, sprintId: Option<string>)
    ensures var r := BacklogDispatch(state, ToggleShowUserStory(sprintId));
      && |r.sprints| == |state.sprints|
      && (forall i :: 0 <= i < |r.sprints| ==>
            r.sprints[i] == state.sprints[i].(showUserStory := r.sprints[i].showUserStory)
            && (Truthy(r.sprints[i].showUserStory) <==>
                (state.sprints[i].id == sprintId) != Truthy(state.sprints[i].showUserStory))
            && (state.sprints[i].id != sprintId ==> r.sprints[i] == state.sprints[i]))
      && r == state.(sprints := r.sprints)
  {
    var r := BacklogDispatch(state, ToggleShowUserStory(sprintId));
    forall i | 0 <= i < |r.sprints|
      ensures r.sprints[i] == if state.sprints[i].id == sprintId
        then state.sprints[i].(showUserStory := Some(!Truthy(state.sprints[i].showUserStory)))
        else state.sprints[i]
    {
    }
  }

  /**
   * Toggling a sprint twice restores what is shown; only an undefined flag is left as an explicit
   * `false`.
   */
  lemma {:induction false} ToggleShowUserStoryTwice(state: BacklogData, sprintId: Option<string>)
    ensures var r := Replay(state, [ToggleShowUserStory(sprintId), ToggleShowUserStory(sprintId)]);
      && |r.sprints| == |state.sprints|
      && (forall i :: 0 <= i < |r.sprints| ==>
            r.sprints[i] == if state.sprints[i].id == sprintId
              then state.sprints[i].(showUserStory := Some(Truthy(state.sprints[i].showUserStory)))
              else state.sprints[i])
      && r == state.(sprints := r.sprints)
  {
    var once := BacklogDispatch(state, ToggleShowUserStory(sprintId));
    ReplayShort(state, ToggleShowUserStory(sprintId), ToggleShowUserStory(sprintId));
    ToggleShowUserStoryFacts(state, sprintId);
    ToggleShowUserStoryFacts(once, sprintId);
  }

  /**
   * `toggle:showTask` flips the flag of the named story when it is in the map and changes nothing
   * when it is not; the keys, the other stories and the loading/error pair are untouched.
   */
  lemma {:induction false} ToggleShowTaskFacts(state: BacklogData, userStoryId: string)
    ensures var r := BacklogDispatch(state, ToggleShowTask(userStoryId));
      && r == state.(userStoryMap := r.userStoryMap)
      && r.userStoryMap.Keys == state.userStoryMap.Keys
      && (forall k :: k in r.userStoryMap && k != userStoryId ==> r.userStoryMap[k] == state.userStoryMap[k])
      && (userStoryId in state.userStoryMap ==>
            r.userStoryMap[userStoryId] ==
              state.userStoryMap[userStoryId].(showTask := r.userStoryMap[userStoryId].showTask)
            && Truthy(r.userStoryMap[userStoryId].showTask) == !Truthy(state.userStoryMap[userStoryId].showTask))
      && (userStoryId !in state.userStoryMap ==> r == state)
  {
  }

  /**
   * `update:filter` replaces exactly the fields the payload supplies (an empty string is supplied,
   * only an absent field falls back), and touches nothing else; applying it twice is applying it once.
   */
  lemma {:induction false} UpdateFilterFacts(state: BacklogData, p: FilterPatch)
    ensures var r := BacklogDispatch(state, UpdateFilter(p));
      && r.searchText == (if p.searchText.Some? then p.searchText.value else state.searchText)
      && r.priority == (if p.priority.Some? then p.priority.value else state.priority)
      && r.assignee == (if p.assignee.Some? then p.assignee.value else state.assignee)
      && r == state.(searchText := r.searchText, priority := r.priority, assignee := r.assignee)
    ensures BacklogDispatch(BacklogDispatch(state, UpdateFilter(p)), UpdateFilter(p)) ==
      BacklogDispatch(state, UpdateFilter(p))
    ensures BacklogDispatch(state, UpdateFilter(FilterPatch(None, None, None))) == state
  {
  }

  // ---------------------------------------------------------------------------------------------
  // Which requests the action functions issue

  /** The open sprints: those whose `showUserStory` flag is truthy. */
  function OpenSprints(sprints: seq<MockApi.Sprint>): seq<MockApi.Sprint>
  {
    Filter(sprints, (sp: MockApi.Sprint) => Truthy(sp.showUserStory))
  }

  /** One story query per open sprint, in sprint order; a null sprint id is sent as the empty string. */
  function QueriesFor(sprints: seq<MockApi.Sprint>, searchText: string, priority: string, assignee: string)
    : seq<MockApi.StoryQuery>
  {
    Map(OpenSprints(sprints), (sp: MockApi.Sprint) => MockApi.StoryQuery(sp.id.GetOr(""), searchText, priority, assignee))
  }

  /**
   * The queries go to exactly the open sprints, in order, each with the given filter; a sprint with
   * a null id is asked for under the empty id.
   */
  lemma {:induction false} QueriesForExact(sprints: seq<MockApi.Sprint>, searchText: string, priority: string, assignee: string)
    ensures var qs := QueriesFor(sprints, searchText, priority, assignee);
      && |qs| == |OpenSprints(sprints)|
      && (forall i :: 0 <= i < |qs| ==>
            qs[i] == MockApi.StoryQuery(OpenSprints(sprints)[i].id.GetOr(""), searchText, priority, assignee))
      && (forall sp :: sp in OpenSprints(sprints) <==> sp in sprints && Truthy(sp.showUserStory))
      && Subsequence(OpenSprints(sprints), sprints)
  {
    var open := OpenSprints(sprints);
    FilterFacts(sprints, (sp: MockApi.Sprint) => Truthy(sp.showUserStory));
    forall sp ensures sp in open <==> sp in sprints && Truthy(sp.showUserStory) {
      assert sp in open <==> multiset(open)[sp] > 0;
      assert sp in sprints <==> multiset(sprints)[sp] > 0;
    }
  }

  /** The stories the concurrent queries return, flattened in query order. */
  function Fetched(fixture: seq<MockApi.UserStory>, queries: seq<MockApi.StoryQuery>): seq<MockApi.UserStory>
  {
    Flat(Map(queries, (q: MockApi.StoryQuery) => MockApi.ListUserStories(fixture, q)))
  }

  /** A story is received exactly when it is in the fixture and matches one of the queries. */
  lemma {:induction false} FetchedExact(fixture: seq<MockApi.UserStory>, queries: seq<MockApi.StoryQuery>)
    ensures forall s :: s in Fetched(fixture, queries) <==>
      s in fixture && exists i :: 0 <= i < |queries| && MockApi.MatchesQuery(s, queries[i])
  {
    var results := Map(queries, (q: MockApi.StoryQuery) => MockApi.ListUserStories(fixture, q));
    FlatFacts(results);
    forall i | 0 <= i < |queries| {
      MockApi.ListUserStoriesExact(fixture, queries[i]);
    }
    forall s ensures s in Fetched(fixture, queries) <==>
      s in fixture && exists i :: 0 <= i < |queries| && MockApi.MatchesQuery(s, queries[i])
    {
      if s in Fetched(fixture, queries) {
        var i :| 0 <= i < |results| && s in results[i];
        assert MockApi.MatchesQuery(s, queries[i]);
      }
      if s in fixture && exists i :: 0 <= i < |queries| && MockApi.MatchesQuery(s, queries[i]) {
        var i :| 0 <= i < |queries| && MockApi.MatchesQuery(s, queries[i]);
        assert s in results[i];
      }
    }
  }

  /**
   * Every story a search with the current filter receives belongs to an open sprint (to the sprint
   * with the empty id, for an open sprint whose id is null) and passes the current filter.
   */
  lemma {:induction false} SearchReceivesOpenSprintStories(state: BacklogData, fixture: seq<MockApi.UserStory>)
    ensures forall s :: s in Fetched(fixture, QueriesFor(state.sprints, state.searchText, state.priority, state.assignee)) ==>
      exists sp :: sp in state.sprints && Truthy(sp.showUserStory) && s.sprintId == Some(sp.id.GetOr(""))
        && MockApi.MatchesQuery(s, MockApi.StoryQuery(sp.id.GetOr(""), state.searchText, state.priority, state.assignee))
  {
    var qs := QueriesFor(state.sprints, state.searchText, state.priority, state.assignee);
    FetchedExact(fixture, qs);
    QueriesForExact(state.sprints, state.searchText, state.priority, state.assignee);
    forall s | s in Fetched(fixture, qs)
      ensures exists sp :: (sp in state.sprints && Truthy(sp.showUserStory) && s.sprintId == Some(sp.id.GetOr(""))
        && MockApi.MatchesQuery(s, MockApi.StoryQuery(sp.id.GetOr(""), state.searchText, state.priority, state.assignee)))
    {
      var i :| 0 <= i < |qs| && MockApi.MatchesQuery(s, qs[i]);
      var sp := OpenSprints(state.sprints)[i];
      assert sp in OpenSprints(state.sprints);
    }
  }

  /** The actions `searchWithCurrentFilters` dispatches, given whether the requests fail. */
  function SearchTrace(queries: seq<MockApi.StoryQuery>, fixture: seq<MockApi.UserStory>, fails: bool): seq<Action>
  {
    if queries == [] then [SearchUserStoryStart]
    else if fails then [SearchUserStoryStart, Error]
    else [SearchUserStoryStart, SearchUserStorySuccess(Fetched(fixture, queries))]
  }

  /**
   * With no open sprint, `searchWithCurrentFilters` returns after the start action and the state is
   * left loading; `searchUserStories`, which has no such check, settles the same state at once.
   */
  lemma {:induction false} NoOpenSprintSearch(state: BacklogData, fixture: seq<MockApi.UserStory>, f: FilterOptions, fails: bool)
    requires OpenSprints(state.sprints) == []
    ensures Replay(state, SearchTrace(QueriesFor(state.sprints, state.searchText, state.priority, state.assignee), fixture, fails)).loading
      == Some(UserStories)
    ensures !fails ==>
      Replay(state, [SearchUserStoryStart,
                     SearchUserStorySuccess(Fetched(fixture, QueriesFor(state.sprints, f.searchText, MockApi.PriorityName(f.priority), f.assignee)))])
      == state.(loading := None, error := None)
  {
    var qs := QueriesFor(state.sprints, f.searchText, MockApi.PriorityName(f.priority), f.assignee);
    assert qs == [];
    assert Fetched(fixture, qs) == [];
    ReplayShort(state, SearchUserStoryStart, SearchUserStorySuccess([]));
  }

  // ---------------------------------------------------------------------------------------------
  // The provider component

  /** `BacklogContext`: the reducer's state cell, with the trace of dispatched actions. */
  class BacklogContext {
    var state: BacklogData
    ghost var dispatched: seq<Action>

    constructor()
      ensures state == InitBacklogData && dispatched == []
    {
      state := InitBacklogData;
      dispatched := [];
    }

    /** `dispatchBacklogStore`: the reducer, with the merge cases running the `forEach` loop. */
    method Dispatch(action: Action)
      modifies this
      ensures state == BacklogDispatch(old(state), action)
      ensures dispatched == old(dispatched) + [action]
      ensures Consistent(old(state)) ==> Consistent(state)
    {
      if Consistent(state) {
        DispatchKeepsConsistent(state, action);
      }
      match action {
        case SearchUserStorySuccess(data) =>
          var merged := UpsertAll(state.userStoryMap, data, StoryId);
          state := state.(userStoryMap := merged, loading := None, error := None);
        case LoadTasksSuccess(data) =>
          var merged := UpsertAll(state.taskMap, data, TaskId);
          state := state.(taskMap := merged, loading := None, error := None);
        case _ =>
          state := BacklogDispatch(state, action);
      }
      dispatched := dispatched + [action];
    }

    /** `loadSprints`: start, then the sprint list or the error. */
    method LoadSprints(fixture: seq<MockApi.Sprint>, fails: bool)
      modifies this
      ensures var trace := [LoadSprintsStart, if fails then Error else LoadSprintsSuccess(MockApi.ListSprints(fixture))];
        dispatched == old(dispatched) + trace && state == Replay(old(state), trace)
    {
      ReplayShort(state, LoadSprintsStart, if fails then Error else LoadSprintsSuccess(MockApi.ListSprints(fixture)));
      Dispatch(LoadSprintsStart);
      if fails {
        Dispatch(Error);
      } else {
        var sprints := MockApi.ListSprints(fixture);
        Dispatch(LoadSprintsSuccess(sprints));
      }
    }

    /** `loadTasks`: start, then the story's tasks or the error. */
    method LoadTasks(userStoryId: string, fixture: seq<MockApi.Task>, fails: bool)
      modifies this
      ensures var trace := [LoadTasksStart, if fails then Error else LoadTasksSuccess(MockApi.ListTasks(fixture, userStoryId))];
        dispatched == old(dispatched) + trace && state == Replay(old(state), trace)
    {
      ReplayShort(state, LoadTasksStart, if fails then Error else LoadTasksSuccess(MockApi.ListTasks(fixture, userStoryId)));
      Dispatch(LoadTasksStart);
      if fails {
        Dispatch(Error);
      } else {
        var tasks := MockApi.ListTasks(fixture, userStoryId);
        Dispatch(LoadTasksSuccess(tasks));
      }
    }

    /** `updateFilter`: one `update:filter` action. */
    method SetFilter(patch: FilterPatch)
      modifies this
      ensures dispatched == old(dispatched) + [UpdateFilter(patch)]
      ensures state == BacklogDispatch(old(state), UpdateFilter(patch))
    {
      Dispatch(UpdateFilter(patch));
    }

    /**
     * `searchWithCurrentFilters`: start, then, when some sprint is open, one query per open sprint
     * with the current filter, and the merged results or the error.
     */
    method SearchWithCurrentFilters(fixture: seq<MockApi.UserStory>, fails: bool)
      returns (queries: seq<MockApi.StoryQuery>)
      modifies this
      ensures queries == QueriesFor(old(state).sprints, old(state).searchText, old(state).priority, old(state).assignee)
      ensures dispatched == old(dispatched) + SearchTrace(queries, fixture, fails)
      ensures state == Replay(old(state), SearchTrace(queries, fixture, fails))
    {
      var current := state;
      queries := QueriesFor(current.sprints, current.searchText, current.priority, current.assignee);
      ReplayShort(state, SearchUserStoryStart,
        if fails then Error else SearchUserStorySuccess(Fetched(fixture, queries)));
      Dispatch(SearchUserStoryStart);
      var openSprints := OpenSprints(current.sprints);
      assert |openSprints| == 0 <==> queries == [];
      if |openSprints| == 0 {
        return;
      }
      if fails {
        Dispatch(Error);
      } else {
        var flattened := Fetched(fixture, queries);
        Dispatch(SearchUserStorySuccess(flattened));
      }
    }

    /**
     * `loadUserStoriesForSprint`: start, then, for a non-empty sprint id, one query with the current
     * filter and its results or the error; a null or empty id stops after the start action.
     */
    method LoadUserStoriesForSprint(sprintId: Option<string>, fixture: seq<MockApi.UserStory>, fails: bool)
      modifies this
      ensures var trace :=
        if sprintId.None? || sprintId.value == "" then [SearchUserStoryStart]
        else if fails then [SearchUserStoryStart, Error]
        else [SearchUserStoryStart, SearchUserStorySuccess(MockApi.ListUserStories(fixture,
               MockApi.StoryQuery(sprintId.value, old(state).searchText, old(state).priority, old(state).assignee)))];
        dispatched == old(dispatched) + trace && state == Replay(old(state), trace)
    {
      var current := state;
      ReplayShort(state, SearchUserStoryStart,
        if fails || sprintId.None? then Error
        else SearchUserStorySuccess(MockApi.ListUserStories(fixture,
          MockApi.StoryQuery(sprintId.value, current.searchText, current.priority, current.assignee))));
      Dispatch(SearchUserStoryStart);
      if sprintId.None? || sprintId.value == "" {
        return;
      }
      if fails {
        Dispatch(Error);
      } else {
        var q := MockApi.StoryQuery(sprintId.value, current.searchText, current.priority, current.assignee);
        var userStories := MockApi.ListUserStories(fixture, q);
        Dispatch(SearchUserStorySuccess(userStories));
      }
    }

    /**
     * `searchUserStories`: like the search with the current filter, but with the request's filter
     * and without the check for open sprints.
     */
    method SearchUserStories(f: FilterOptions, fixture: seq<MockApi.UserStory>, fails: bool)
      returns (queries: seq<MockApi.StoryQuery>)
      modifies this
      ensures queries == QueriesFor(old(state).sprints, f.searchText, MockApi.PriorityName(f.priority), f.assignee)
      ensures var trace := [SearchUserStoryStart, if fails then Error else SearchUserStorySuccess(Fetched(fixture, queries))];
        dispatched == old(dispatched) + trace && state == Replay(old(state), trace)
    {
      var current := state;
      queries := QueriesFor(current.sprints, f.searchText, MockApi.PriorityName(f.priority), f.assignee);
      ReplayShort(state, SearchUserStoryStart,
        if fails then Error else SearchUserStorySuccess(Fetched(fixture, queries)));
      Dispatch(SearchUserStoryStart);
      if fails {
        Dispatch(Error);
      } else {
        var listUserStories := Fetched(fixture, queries);
        Dispatch(SearchUserStorySuccess(listUserStories));
      }
    }
  }
}
