# Project-management board: a Dafny model of its state logic

This project models the state logic of a small React project-management application: a backlog of
user stories, sprints that hold stories, tasks that belong to stories, and the providers that keep
that state. It contains no rendering code. Each source file becomes one Dafny module:

- `StoryBoard` (`src/components/pages/BacklogPage.tsx`). The list-based backlog page. The backlog
  and every sprint own a list of stories, and drag-and-drop moves one story to the end of another
  list. The page is the class `BacklogPage`, whose fields are its state cells `backlogStories`,
  `sprints` and `activeStory`. Each handler is a method, and each method is proved equal to a
  function on the board. Lemmas about those functions prove the following:
  - what each move places where;
  - that stories are conserved (as a multiset);
  - that a well-formed board stays well-formed, meaning no story id and no sprint id occurs twice.
- `BacklogStore` (`src/modules/backlog/backlog-page.tsx`). The normalized backlog store:
  - the `backlogDispatch` reducer, including its merge-by-id loops (`UpsertAll`, proved against
    `Upserted`);
  - the state invariant the reducer keeps;
  - the class `BacklogContext`, whose action functions dispatch start/success/error sequences.
- `MockApi` (`src/modules/shared/data/mockData.ts`). The entity types and the three query
  functions. The fixture arrays are parameters.
- `AppLayout` (`src/App.tsx`). The sidebar/theme reducer and its initial state.
- `ApiContext` (`src/lib/api-context.tsx`). The per-key request cache reducer and `fetchData`, in
  the class `ApiProvider`.
- `ApiQuery` (`src/lib/useApiQuery.ts`). The default-record lookup and the fetch guard of
  `useApiQuery`.
- `CustomMemo` (`src/utils/customMemo.tsx`). `shallowCompare`, the re-render decision of the
  memoizing wrapper (the class `MemoizedComponent`) and the comparator of the custom-comparison
  demo.
- Support modules for the JavaScript built-ins the code relies on:
  - `JsArray`: `filter`, `map`, `find`, `some`, `flat`.
  - `JsString`: `toLowerCase`, `includes`, `startsWith`.
  - `Options`: `null`/`undefined` as `None`, and `??` as `GetOr`.

JavaScript semantics are spelled out where they matter:
- truthiness of optional flags and of strings (the empty string is falsy);
- `===` on nullable ids, so `null === null`;
- `===` on props values, where `NaN` is never equal and objects compare by identity;
- a missing property reads as `undefined`.

## Model

| member | source | states |
|---|---|---|
| StoryBoard.ActiveStoryFor | src/components/pages/BacklogPage.tsx:33-47 | defines the drag-start lookup: the backlog's story with the id, else the first story with it found sprint by sprint, else nothing |
| StoryBoard.DragEndResult | src/components/pages/BacklogPage.tsx:49-69 | defines the drop routing on the target id: none, `backlog`, a `sprint-` prefix, anything else |
| StoryBoard.MoveToSprintResult | src/components/pages/BacklogPage.tsx:71-121 | defines the move to a sprint: from the backlog, or from the first sprint holding the story when that is not the destination |
| StoryBoard.MoveToBacklogResult | src/components/pages/BacklogPage.tsx:123-155 | defines the move to the backlog: the truthy source sprint id or the sprint holding the story, the lookup, then removal and append |
| StoryBoard.BacklogPage.constructor | src/components/pages/BacklogPage.tsx:17-19 | the page starts from the given backlog and sprint lists with no story being dragged |
| StoryBoard.BacklogPage.HandleDragStart | src/components/pages/BacklogPage.tsx:33-47 | the loop over the sprints sets the dragged story to the backlog's story with that id, else the first sprint's, else null; the lists are not touched |
| StoryBoard.ActiveStoryForFacts | src/components/pages/BacklogPage.tsx:33-47 | the story picked up has the id and is on the board; nothing is picked up exactly when no story on the board has the id; the backlog wins over the sprints |
| StoryBoard.ActiveStoryUnique | src/components/pages/BacklogPage.tsx:33-47 | on a well-formed board, picking up by a story's id yields that very story |
| StoryBoard.BacklogPage.HandleDragEnd | src/components/pages/BacklogPage.tsx:49-69 | the dragged story is cleared; no target leaves the lists; `backlog` runs the move to the backlog without a source; a `sprint-` target runs the move to that sprint; any other target is ignored; well-formedness is kept |
| StoryBoard.DragEndConservation | src/components/pages/BacklogPage.tsx:49-69 | a drop keeps the board well-formed and every story on it, except that a `sprint-` target naming no sprint loses the dragged story |
| StoryBoard.DropBacklogStoryOnBacklog | src/components/pages/BacklogPage.tsx:59-62 | dropping a backlog story on the backlog changes nothing |
| StoryBoard.BacklogPage.HandleMoveToSprint | src/components/pages/BacklogPage.tsx:71-121 | the two lists become what the move-to-sprint function of the old board gives; the dragged story is kept |
| StoryBoard.MoveFromBacklogPlacement | src/components/pages/BacklogPage.tsx:73-92 | a backlog story dropped on a sprint leaves the backlog (filtered by id) and is appended to that sprint; all other sprints keep their lists |
| StoryBoard.MoveBetweenSprintsPlacement | src/components/pages/BacklogPage.tsx:94-119 | a sprint story dropped on another sprint is filtered out of its sprint and appended to the destination; the backlog and third sprints are unchanged |
| StoryBoard.MoveToOwnSprint | src/components/pages/BacklogPage.tsx:99-101 | dropping a story on the sprint that holds it changes nothing |
| StoryBoard.MoveUnknownStory | src/components/pages/BacklogPage.tsx:95-101 | an id held by no story on the board leaves the board unchanged under both moves |
| StoryBoard.MoveToSprintConservation | src/components/pages/BacklogPage.tsx:71-121 | with an existing destination every story stays on the board exactly once; without one the moved story disappears; the board stays well-formed |
| StoryBoard.BacklogPage.SourceSprintFor | src/components/pages/BacklogPage.tsx:125-134 | the method yields the source sprint id: the given one unless it is absent or empty; otherwise none exactly when no sprint holds the story, else the id of the first sprint that does |
| StoryBoard.SourceSprintIdFacts | src/components/pages/BacklogPage.tsx:125-134 | the same three cases for the source sprint id used by the move to the backlog: a given non-empty id is kept; otherwise none exactly when no sprint holds the story, else the first holding sprint's id |
| StoryBoard.BacklogPage.HandleMoveToBacklog | src/components/pages/BacklogPage.tsx:123-155 | the two lists become what the move-to-backlog function of the old board gives; the dragged story is kept |
| StoryBoard.MoveToBacklogSteps | src/components/pages/BacklogPage.tsx:136-154 | once the source sprint and the story are looked up, a missing story leaves the board and a found one is appended to the backlog and removed from the source |
| StoryBoard.MoveToBacklogPlacement | src/components/pages/BacklogPage.tsx:123-155 | a sprint story moved with its own sprint or no source goes to the end of the backlog and leaves that sprint; other sprints are unchanged |
| StoryBoard.MoveToBacklogFromUnnamedSprint | src/components/pages/BacklogPage.tsx:125-139 | a story of a sprint whose id is empty cannot be moved to the backlog by the search for its sprint |
| StoryBoard.MoveToBacklogWrongSource | src/components/pages/BacklogPage.tsx:136-139 | a named source sprint that does not hold the story makes the move do nothing |
| StoryBoard.MoveToBacklogConservation | src/components/pages/BacklogPage.tsx:123-155 | moving to the backlog keeps every story on the board exactly once and keeps the board well-formed |
| StoryBoard.WithoutStoryFacts | src/components/pages/BacklogPage.tsx:79 | removal by `filter` drops exactly the stories with that id and keeps the rest in their order |
| StoryBoard.WithoutStoryRemovesOne | src/components/pages/BacklogPage.tsx:107 | on a list without repeated ids, removing a story's id removes that one story |
| StoryBoard.OneHome | src/components/pages/BacklogPage.tsx:94-98 | on a well-formed board a sprint's story is in no other sprint and not in the backlog |
| StoryBoard.BacklogHome | src/components/pages/BacklogPage.tsx:123-134 | on a well-formed board a backlog story is in no sprint |
| StoryBoard.SprintOfStory | src/components/pages/BacklogPage.tsx:94-105 | on a well-formed board the sprint search finds the sprint a story sits in, and the story in it |
| StoryBoard.SprintAt | src/components/pages/BacklogPage.tsx:136-138 | with unique sprint ids, looking a sprint up by its id finds the sprint at its position |
| StoryBoard.FindStoryFacts | src/components/pages/BacklogPage.tsx:73-76 | `find` by id yields nothing exactly when no story has the id, and otherwise the first story with it |
| StoryBoard.SprintWithStoryFacts | src/components/pages/BacklogPage.tsx:95-97 | the sprint search yields nothing exactly when no sprint holds the id, and otherwise the first sprint that does |
| StoryBoard.SprintWithIdFacts | src/components/pages/BacklogPage.tsx:136-138 | the sprint lookup yields nothing exactly when no sprint has the id, and otherwise a sprint with it |
| BacklogStore.BacklogDispatch | src/modules/backlog/backlog-page.tsx:84-186 | defines `backlogDispatch`, one case per action type and the state unchanged for any other |
| BacklogStore.LastIndexOf | src/modules/backlog/backlog-page.tsx:120-122 | the position found carries the id and no later position does; -1 when none does |
| BacklogStore.LastIndexOfUnique | src/modules/backlog/backlog-page.tsx:120-122 | any position that is last with the id is the one found |
| BacklogStore.Upserted | src/modules/backlog/backlog-page.tsx:118-123 | the merged map has the old keys plus the batch's ids; each batch id holds its last element and every other key keeps its entry |
| BacklogStore.UpsertAll | src/modules/backlog/backlog-page.tsx:118-123 | the copy-and-`set` loop yields the merged map |
| BacklogStore.UpsertedIdempotent | src/modules/backlog/backlog-page.tsx:117-129 | merging the same batch twice equals merging it once |
| BacklogStore.UpsertedCommute | src/modules/backlog/backlog-page.tsx:117-129 | batches sharing no id can be merged in either order |
| BacklogStore.UpsertedKeyedBy | src/modules/backlog/backlog-page.tsx:120-122 | a map keyed by its entries' ids stays so after a merge |
| BacklogStore.ReplayAppend | src/modules/backlog/backlog-page.tsx:84-186 | replaying a trace with one more action is dispatching it after the trace |
| BacklogStore.DispatchKeepsConsistent | src/modules/backlog/backlog-page.tsx:84-186 | every action keeps the invariant: not loading and failed at once; both maps keyed by id |
| BacklogStore.ReplayConsistent | src/modules/backlog/backlog-page.tsx:84-186 | the invariant survives any sequence of actions |
| BacklogStore.InitConsistent | src/modules/backlog/backlog-page.tsx:24-33 | the initial state satisfies the invariant and is neither loading nor failed |
| BacklogStore.LoadingMachine | src/modules/backlog/backlog-page.tsx:86-116 | starts record their kind and clear the error; `error` clears the kind and records `Something went wrong`; successes clear both, and `load:sprints:success` replaces the sprint list wholesale; other actions leave both; an unknown action changes nothing |
| BacklogStore.SearchSuccessMerges | src/modules/backlog/backlog-page.tsx:117-129 | no stored story is forgotten; new keys come from the batch; the last story of each id is stored; untouched keys keep their story; only the map and loading/error change |
| BacklogStore.TasksSuccessMerges | src/modules/backlog/backlog-page.tsx:162-174 | the same merge guarantees for the task map: no stored task is forgotten; new keys come from the batch; the last task of each id is stored; untouched keys keep their task; only the map and loading/error change |
| BacklogStore.SearchSuccessIdempotent | src/modules/backlog/backlog-page.tsx:117-129 | receiving the same search results twice is receiving them once |
| BacklogStore.SearchSuccessesCommute | src/modules/backlog/backlog-page.tsx:117-129 | search results about different stories can arrive in either order |
| BacklogStore.ToggleShowUserStoryFacts | src/modules/backlog/backlog-page.tsx:130-145 | sprint count and order are kept; exactly the sprints with the payload's id flip their flag (undefined counting as false); nothing else changes |
| BacklogStore.ToggleShowUserStoryTwice | src/modules/backlog/backlog-page.tsx:130-145 | toggling twice restores what is shown, an undefined flag becoming an explicit false |
| BacklogStore.ToggleShowTaskFacts | src/modules/backlog/backlog-page.tsx:146-161 | only the named story's flag flips; an unknown id changes nothing; loading and error are untouched |
| BacklogStore.UpdateFilterFacts | src/modules/backlog/backlog-page.tsx:175-182 | exactly the supplied fields are replaced (an empty string is supplied); the rest is untouched; the update is idempotent and the empty patch is the identity |
| BacklogStore.QueriesForExact | src/modules/backlog/backlog-page.tsx:269-283 | one query per open sprint, in order, with the current filter; a null sprint id is sent as the empty string |
| BacklogStore.FetchedExact | src/modules/backlog/backlog-page.tsx:285-288 | a story is received exactly when it is in the fixture and matches one of the queries |
| BacklogStore.SearchReceivesOpenSprintStories | src/modules/backlog/backlog-page.tsx:262-300 | every story received by the current-filter search belongs to an open sprint and passes the current filter |
| BacklogStore.NoOpenSprintSearch | src/modules/backlog/backlog-page.tsx:269-274 | with no open sprint the current-filter search leaves the state loading stories; `searchUserStories` settles instead |
| BacklogStore.BacklogContext.constructor | src/modules/backlog/backlog-page.tsx:211 | the store starts from the initial data |
| BacklogStore.BacklogContext.Dispatch | src/modules/backlog/backlog-page.tsx:84-186 | the state becomes the reducer's result, with the merges done by the loop, and the invariant is kept |
| BacklogStore.BacklogContext.LoadSprints | src/modules/backlog/backlog-page.tsx:216-231 | start, then the sprint fixture or the error |
| BacklogStore.BacklogContext.LoadTasks | src/modules/backlog/backlog-page.tsx:233-249 | start, then the story's tasks or the error |
| BacklogStore.BacklogContext.SetFilter | src/modules/backlog/backlog-page.tsx:251-260 | one `update:filter` with the patch |
| BacklogStore.BacklogContext.SearchWithCurrentFilters | src/modules/backlog/backlog-page.tsx:262-300 | start; with no open sprint nothing more; otherwise the merged results of one query per open sprint, or the error |
| BacklogStore.BacklogContext.LoadUserStoriesForSprint | src/modules/backlog/backlog-page.tsx:302-328 | start; a null or empty sprint id stops there; otherwise that sprint's stories under the current filter, or the error |
| BacklogStore.BacklogContext.SearchUserStories | src/modules/backlog/backlog-page.tsx:330-354 | start, then the merged results of one query per open sprint with the request's filter, or the error, without the open-sprint check |
| MockApi.MatchesQuery | src/modules/shared/data/mockData.ts:243-250 | defines the story filter: exact sprint id, case-insensitive containment of title, priority and assignee, a missing assignee failing |
| MockApi.ListUserStories | src/modules/shared/data/mockData.ts:241-251 | defines `getListUserStories` as the filter over the story fixture |
| MockApi.ListTasks | src/modules/shared/data/mockData.ts:253-254 | defines `getListTasks` as the filter on the story id over the task fixture |
| MockApi.ListSprints | src/modules/shared/data/mockData.ts:239 | defines `getListSprints` as the sprint fixture unchanged |
| MockApi.ListUserStoriesExact | src/modules/shared/data/mockData.ts:241-251 | the result is exactly the fixture's matching stories, each as often as in the fixture, in fixture order, all of the queried sprint |
| MockApi.BacklogStoriesNeverListed | src/modules/shared/data/mockData.ts:245 | a story with a null sprint id is never returned |
| MockApi.UnassignedStoriesNeverListed | src/modules/shared/data/mockData.ts:248 | a story with no assignee is never returned, even for an empty assignee filter |
| MockApi.EmptyFiltersMatchAssignedStories | src/modules/shared/data/mockData.ts:246-248 | with empty text filters, every assigned story of the sprint is returned and no other |
| MockApi.QueryIgnoresCase | src/modules/shared/data/mockData.ts:246-248 | lower-casing the filter strings does not change the result |
| MockApi.ListTasksExact | src/modules/shared/data/mockData.ts:253-254 | the result is exactly the fixture's tasks of the story, each as often as in the fixture, in fixture order |
| JsString.ToLowerCase | src/modules/shared/data/mockData.ts:246-248 | the lower-cased string has the same length and maps each character |
| JsString.ToLowerCaseIdempotent | src/modules/shared/data/mockData.ts:246-248 | lower-casing twice is lower-casing once |
| JsString.Includes | src/modules/shared/data/mockData.ts:246-248 | containment holds exactly when the needle occurs at some position |
| JsString.EmptyIncludedEverywhere | src/modules/shared/data/mockData.ts:246-248 | the empty filter is contained in every string |
| JsArray.FilterFacts | src/modules/shared/data/mockData.ts:243 | `filter` keeps exactly the elements satisfying the test, as often as they occur, in order |
| JsArray.FilterKeepsAll | src/modules/shared/data/mockData.ts:243 | filtering with a test every element passes returns the sequence |
| JsArray.FindFacts | src/components/pages/BacklogPage.tsx:38-43 | `find` yields nothing exactly when no element passes, and otherwise the first one that does |
| JsArray.FlatFacts | src/modules/backlog/backlog-page.tsx:286 | an element is in the flattened list exactly when it is in one of the lists |
| AppLayout.AppLayoutReducer | src/App.tsx:56-69 | defines `appLayoutReducer`, one case per action type and the state unchanged for any other |
| AppLayout.ReducerFacts | src/App.tsx:56-69 | updates set their flag only and are idempotent; toggles flip their flag only and cancel in pairs; unknown actions change nothing |
| AppLayout.FlagsIndependent | src/App.tsx:56-69 | over any run each flag ends as its own actions alone make it |
| AppLayout.TogglesParity | src/App.tsx:60-61 | an even number of sidebar toggles restores the flag, an odd number flips it |
| AppLayout.SidebarAfterUpdate | src/App.tsx:58-61 | after an update and some toggles the sidebar is the update's value flipped once per toggle |
| ApiContext.ApiReducer | src/lib/api-context.tsx:21-41 | defines `apiReducer`: each fetch action writes the record of its own key |
| ApiContext.ErrorMessageOf | src/lib/api-context.tsx:52-53 | defines the recorded message: the `Error`'s own message, else `Error` |
| ApiContext.FetchActions | src/lib/api-context.tsx:46-56 | defines the two actions `fetchData` dispatches for a resolved or rejected fetcher |
| ApiContext.ApiReducerFacts | src/lib/api-context.tsx:21-41 | start sets the key loading and forgets data and error; success stores the data; error stores the message and drops the data; other keys are unchanged; an unknown action changes nothing |
| ApiContext.FetchSettles | src/lib/api-context.tsx:46-56 | a completed fetch leaves its key not loading and holding exactly one of the data and the message; the message is the thrown `Error`'s own message, or `Error` for any other thrown value; other keys are unchanged |
| ApiContext.ApiProvider.constructor | src/lib/api-context.tsx:44 | the store starts empty |
| ApiContext.ApiProvider.Dispatch | src/lib/api-context.tsx:21-41 | the store becomes the reducer's result |
| ApiContext.ApiProvider.FetchData | src/lib/api-context.tsx:46-56 | start, then exactly one of success and error, for the same key |
| ApiQuery.QueryState | src/lib/useApiQuery.ts:6 | defines the record read: the stored one, else the empty record |
| ApiQuery.ShouldFetch | src/lib/useApiQuery.ts:9-10 | defines the effect's guard: not explicitly disabled, and no truthy data, no loading, no truthy error |
| ApiQuery.UnnamedKeyReadsEmpty | src/lib/useApiQuery.ts:6 | a key that no dispatched action names is never stored, so after any sequence of actions it reads as no data, not loading, no error |
| ApiQuery.GuardOnFreshOrDisabled | src/lib/useApiQuery.ts:8-14 | a disabled query never fetches; an enabled query for an unseen key always does |
| ApiQuery.GuardAfterAction | src/lib/useApiQuery.ts:10-11 | while loading the guard blocks; after success it fetches only for falsy data; after an error only for an empty message |
| ApiQuery.GuardAfterFetch | src/lib/useApiQuery.ts:10-11 | after a completed fetch the guard refetches only for falsy data or an `Error` with an empty message, so failures are not retried |
| ApiQuery.UseApiQuery | src/lib/useApiQuery.ts:6-16 | returns the record read; runs one fetch exactly when the guard passes, and otherwise leaves the provider alone |
| CustomMemo.ShallowEqual | src/utils/customMemo.tsx:5-25 | defines what `shallowCompare` decides: the same key count and `===` on every previous key |
| CustomMemo.CompareFunction | src/utils/customMemo.tsx:54 | defines the comparator choice: the caller's, else the deep one if asked for, else the shallow one |
| CustomMemo.ShouldRerender | src/utils/customMemo.tsx:57 | defines the re-render decision: nothing stored yet, or the comparator says the props differ |
| CustomMemo.CountChangedComparator | src/utils/customMemo.tsx:101-109 | defines the demo's comparator as written: `true` when `count` is not `===` |
| CustomMemo.CountUnchangedComparator | src/utils/customMemo.tsx:101-109 | defines the corrected comparator: `true` when `count` is `===` |
| CustomMemo.ShallowCompare | src/utils/customMemo.tsx:5-25 | the key-count check and the loop with an early exit decide shallow equality |
| CustomMemo.ShallowEqualSameKeys | src/utils/customMemo.tsx:16-24 | on records with the same keys and no NaN, shallow equality is equality; so it is reflexive there |
| CustomMemo.NaNNeverEqual | src/utils/customMemo.tsx:16-21 | a NaN prop makes a record unequal to itself |
| CustomMemo.MissingUndefinedKey | src/utils/customMemo.tsx:16-17 | only the previous keys are inspected, so an undefined-valued key matches a record without it, and the comparison is not symmetric |
| CustomMemo.ShallowEqualAgrees | src/utils/customMemo.tsx:9-24 | records called equal have the same key count and agree, without NaN, on every previous key |
| CustomMemo.RerenderDecision | src/utils/customMemo.tsx:54-57 | the first render always renders; later a caller's comparator wins, else the deep one if asked for, else the shallow one, and a render happens exactly when it says "different" |
| CustomMemo.MemoizedComponent.constructor | src/utils/customMemo.tsx:49-52 | both refs start empty |
| CustomMemo.MemoizedComponent.Render | src/utils/customMemo.tsx:53-68 | on a re-render a new element is made and the props stored; otherwise both refs stay; the element returned is always the one made from the stored props |
| CustomMemo.CountComparatorInverted | src/utils/customMemo.tsx:101-109 | as written, the demo re-renders exactly when `count` is unchanged |
| CustomMemo.CountChangeSkipped | src/utils/customMemo.tsx:101-109 | going from count 1 to count 2 is not rendered as written, and is rendered when corrected |
| CustomMemo.CountComparatorCorrected | src/utils/customMemo.tsx:101-109 | with the corrected comparator the demo re-renders exactly when `count` changes, whatever the other props |
| CustomMemo.NewCorrectedComparisonDemo | src/utils/customMemo.tsx:101-109 | the demo wrapper is built with the corrected comparator and no deep comparison |
| CustomMemo.RenderCorrectedComparisonDemo | src/utils/customMemo.tsx:101-109 | a later render of the corrected demo makes a new element exactly when `count` is not `===` the stored one |

## Left out

- The fixture arrays of `mockData.ts` are parameters, so no property depends on their contents.
- `toLowerCase` maps ASCII letters only, with no Unicode case mapping.
- The `Promise`, `await` and `Promise.all` mechanics, and the interleaving of concurrent requests,
  are not modelled. Whether a request fails, and what the API fetcher returns, are inputs. Each
  action function is modelled as running to completion on the store as it was when it started.
- The action functions read `backlogStoreRef.current`, a ref updated after render. The model reads
  the store's current state at the start of the call, so a stale ref is not modelled.
- The insertion order of the JavaScript `Map` copies is not modelled. The merged maps are Dafny
  `map`s, so only their keys and entries are stated.
- `deepCompare` (customMemo.tsx:28-41) relies on `JSON.stringify`, a foreign serialiser. It is a
  comparator parameter.
- `ShallowMemoDemo`, `DeepMemoDemo` and all JSX rendering are not modelled.
- React hooks and context plumbing are replaced by explicit classes and sequences of dispatches:
  `useReducer`, `useRef`, `useEffect` dependencies, `useCallback` and `createContext`.
  `console.log` is dropped.
- `ApiQuery.UseApiQuery` and `ApiQuery.ShouldFetch`: the truthiness of the fetched data is a
  parameter, because its type is unknown to the hook.
- JavaScript numbers are `real` in `CustomMemo.JsValue`, with `NaN` as its own value. `+0` and `-0`
  are not told apart.
- The `Unknown`/`Unrecognized` action constructors stand for every other `type` tag.
- The debounce timer of the backlog header, the HTTP service, and the layout, card, list, filter
  and page components are rendering or I/O and are not part of this model.

Details of the code the model keeps:
- `handleMoveToBacklog` tests `fromSprintId` for truthiness, so an empty string counts as absent.
- A source sprint id that is empty stops the move.
- The fetch guard of `useApiQuery` tests `error` for truthiness, so an empty error message does not
  block a refetch.

## Findings

| source | as written | input that shows it | evidently intended | confidence | as-written member | corrected member |
|---|---|---|---|---|---|---|
| src/utils/customMemo.tsx:101-109 | the custom comparator returns `prevProps.count !== nextProps.count`, and the wrapper treats `true` as "props equal, skip the render" | stored props `{count: 1}`, next props `{count: 2}`: the wrapper returns the cached element | return `prevProps.count === nextProps.count`, so the demo re-renders only when `count` changes, as its comment says | not executed | CustomMemo.CountComparatorInverted | CustomMemo.CountComparatorCorrected |
