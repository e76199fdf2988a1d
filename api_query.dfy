/**
 * The query hook over the API provider (src/lib/useApiQuery.ts): it reads the record of its key,
 * falling back to an empty record, and its effect starts a fetch only when the query is not
 * disabled and the record holds no truthy data, is not loading and holds no truthy error.
 * Truthiness of the fetched data, whose type is unknown to the hook, is a parameter.
 */
module ApiQuery {
  import opened Options
  import opened ApiContext

  /** The record the hook reads: the stored one (an object, so truthy), else the empty record. */
  function QueryState<D>(state: ApiStore<D>, key: string): ApiState<D>
  {
    if key in state then state[key] else ApiState(None, false, None)
  }

  /**
   * A key that no dispatched action names is never stored, so it reads as the empty record after
   * any sequence of actions on a store that lacks it, in particular on the initial empty store.
   */
  lemma {:induction false} UnnamedKeyReadsEmpty<D>(state: ApiStore<D>, actions: seq<ApiAction<D>>, key: string)
    requires key !in state
    requires forall i :: 0 <= i < |actions| && !actions[i].Unrecognized? ==> actions[i].key != key
    ensures key !in ApiReplay(state, actions)
    ensures QueryState(ApiReplay(state, actions), key) == ApiState(None, false, None)
    decreases |actions|
  {
    if actions != [] {
      UnnamedKeyReadsEmpty(ApiReducer(state, actions[0]), actions[1..], key);
    }
  }

  /**
   * The guard of the effect. `enabled` is `options?.enabled`: only an explicit `false` disables. An
   * error message is a string, so the empty message is falsy and does not block.
   */
  predicate ShouldFetch<D>(st: ApiState<D>, enabled: Option<bool>, truthy: D -> bool)
  {
    && enabled != Some(false)
    && !(st.data.Some? && truthy(st.data.value))
    && !st.loading
    && !(st.error.Some? && st.error.value != "")
  }

  /** A disabled query never fetches; an enabled query for a key never fetched always does. */
  lemma {:induction false} GuardOnFreshOrDisabled<D>(state: ApiStore<D>, key: string, enabled: Option<bool>, truthy: D -> bool)
    ensures enabled == Some(false) ==> !ShouldFetch(QueryState(state, key), enabled, truthy)
    ensures key !in state ==> (ShouldFetch(QueryState(state, key), enabled, truthy) <==> enabled != Some(false))
  {
  }

  /**
   * What the guard decides after each action on the key: while a fetch is running it blocks; after
   * a success it blocks unless the data is falsy; after a failure it blocks unless the message is
   * empty, so a failed query is not fetched again by the guard.
   */
  lemma {:induction false} GuardAfterAction<D>(state: ApiStore<D>, key: string, enabled: Option<bool>, truthy: D -> bool, data: D, message: string)
    ensures !ShouldFetch(QueryState(ApiReducer(state, FetchStart(key)), key), enabled, truthy)
    ensures ShouldFetch(QueryState(ApiReducer(state, FetchSuccess(key, data)), key), enabled, truthy) <==>
      enabled != Some(false) && !truthy(data)
    ensures ShouldFetch(QueryState(ApiReducer(state, FetchError(key, message)), key), enabled, truthy) <==>
      enabled != Some(false) && message == ""
  {
  }

  /**
   * Once a fetch has completed, the guard fetches again only for falsy data or for a rejection whose
   * recorded message is empty, which only an `Error` with an empty message produces.
   */
  lemma {:induction false} GuardAfterFetch<D>(state: ApiStore<D>, key: string, enabled: Option<bool>, truthy: D -> bool, outcome: FetchOutcome<D>)
    ensures var actions := FetchActions(key, outcome);
      var after := ApiReducer(ApiReducer(state, actions[0]), actions[1]);
      ShouldFetch(QueryState(after, key), enabled, truthy) <==>
        enabled != Some(false) &&
        match outcome
        case Resolved(value) => !truthy(value)
        case Rejected(thrown) => thrown.ErrorInstance? && thrown.message == ""
  {
  }

  /**
   * `useApiQuery`: returns the record read at render time; the effect runs `fetchData` exactly when
   * the guard passes on that record, and otherwise leaves the provider alone.
   */
  method UseApiQuery<D>(api: ApiProvider<D>, key: string, enabled: Option<bool>, truthy: D -> bool, outcome: FetchOutcome<D>)
    returns (apiState: ApiState<D>)
    modifies api
    ensures apiState == QueryState(old(api.state), key)
    ensures ShouldFetch(apiState, enabled, truthy) ==>
      api.dispatched == old(api.dispatched) + FetchActions(key, outcome)
      && api.state == ApiReducer(ApiReducer(old(api.state), FetchActions(key, outcome)[0]), FetchActions(key, outcome)[1])
    ensures !ShouldFetch(apiState, enabled, truthy) ==> api.dispatched == old(api.dispatched) && api.state == old(api.state)
  {
    apiState := if key in api.state then api.state[key] else ApiState(None, false, None);
    if enabled == Some(false) {
      return;
    }
    if !(apiState.data.Some? && truthy(apiState.data.value)) && !apiState.loading
      && !(apiState.error.Some? && apiState.error.value != "")
    {
      api.FetchData(key, outcome);
    }
  }
}
