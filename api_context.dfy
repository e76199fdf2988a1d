/**
 * The request cache of the API provider (src/lib/api-context.tsx): one `{data, loading, error}`
 * record per request key, a reducer over the three fetch actions, and `fetchData`, which
 * dispatches a start and then a success or an error for the same key. The fetcher is foreign code;
 * its outcome is an input here.
 */
module ApiContext {
  import opened Options

  /** The record of one key; `None` is `null`. */
  datatype ApiState<D> = ApiState(data: Option<D>, loading: bool, error: Option<string>)

  type ApiStore<D> = map<string, ApiState<D>>

  /** The three fetch actions; `Unrecognized` stands for any other `type` tag. */
  datatype ApiAction<D> =
    | FetchStart(key: string)
    | FetchSuccess(key: string, data: D)
    | FetchError(key: string, error: string)
    | Unrecognized

  /** `apiReducer`: each action writes the record of its own key. */
  function ApiReducer<D>(state: ApiStore<D>, action: ApiAction<D>): ApiStore<D>
  {
    match action
    case FetchStart(key) => state[key := ApiState(None, true, None)]
    case FetchSuccess(key, data) => state[key := ApiState(Some(data), false, None)]
    case FetchError(key, error) => state[key := ApiState(None, false, Some(error))]
    case Unrecognized => state
  }

  /**
   * A start forgets earlier data and errors and marks the key loading, a success stores the data,
   * an error stores the message and drops the data; every other key keeps its record, and an
   * unrecognized action changes nothing.
   */
  lemma {:induction false} ApiReducerFacts<D>(state: ApiStore<D>, action: ApiAction<D>)
    ensures action.FetchStart? ==> ApiReducer(state, action)[action.key] == ApiState(None, true, None)
    ensures action.FetchSuccess? ==> ApiReducer(state, action)[action.key] == ApiState(Some(action.data), false, None)
    ensures action.FetchError? ==> ApiReducer(state, action)[action.key] == ApiState(None, false, Some(action.error))
    ensures !action.Unrecognized? ==> ApiReducer(state, action).Keys == state.Keys + {action.key}
    ensures !action.Unrecognized? ==>
      forall k :: k in state && k != action.key ==> ApiReducer(state, action)[k] == state[k]
    ensures action.Unrecognized? ==> ApiReducer(state, action) == state
  {
  }

  /** What the fetcher threw: an `Error` instance with its message, or any other value. */
  datatype Thrown = ErrorInstance(message: string) | OtherValue

  /** The outcome of awaiting the fetcher. */
  datatype FetchOutcome<D> = Resolved(value: D) | Rejected(thrown: Thrown)

  /** The message `fetchData` records: the `Error`'s own message, otherwise `'Error'`. */
  function ErrorMessageOf(t: Thrown): string
  {
    if t.ErrorInstance? then t.message else "Error"
  }

  /** The actions `fetchData(key, fetcher)` dispatches for a given outcome of the fetcher. */
  function FetchActions<D>(key: string, outcome: FetchOutcome<D>): seq<ApiAction<D>>
  {
    [FetchStart(key),
     match outcome
     case Resolved(value) => FetchSuccess(key, value)
     case Rejected(thrown) => FetchError(key, ErrorMessageOf(thrown))]
  }

  /**
   * A completed fetch leaves its key settled, not loading, holding exactly one of the data (when
   * the fetcher resolved) and the message (when it rejected), and leaves every other key alone.
   */
  lemma {:induction false} FetchSettles<D>(state: ApiStore<D>, key: string, outcome: FetchOutcome<D>)
    ensures var after := ApiReducer(ApiReducer(state, FetchActions(key, outcome)[0]), FetchActions(key, outcome)[1]);
      && key in after
      && !after[key].loading
      && (after[key].data.Some? <==> outcome.Resolved?)
      && (after[key].error.Some? <==> outcome.Rejected?)
      && (outcome.Resolved? ==> after[key].data == Some(outcome.value))
      && (outcome.Rejected? && outcome.thrown.ErrorInstance? ==> after[key].error == Some(outcome.thrown.message))
      && (outcome.Rejected? && outcome.thrown.OtherValue? ==> after[key].error == Some("Error"))
      && after.Keys == state.Keys + {key}
      && forall k :: k in state && k != key ==> after[k] == state[k]
  {
  }

  /** The store after dispatching `actions` in order. */
  function ApiReplay<D>(state: ApiStore<D>, actions: seq<ApiAction<D>>): ApiStore<D>
    decreases |actions|
  {
    if actions == [] then state else ApiReplay(ApiReducer(state, actions[0]), actions[1..])
  }

  /** `ApiProvider`: the reducer's state cell and the trace of dispatched actions. */
  class ApiProvider<D> {
    var state: ApiStore<D>
    ghost var dispatched: seq<ApiAction<D>>

    /** The store starts empty. */
    constructor()
      ensures state == map[] && dispatched == []
    {
      state := map[];
      dispatched := [];
    }

    method Dispatch(action: ApiAction<D>)
      modifies this
      ensures state == ApiReducer(old(state), action)
      ensures dispatched == old(dispatched) + [action]
    {
      state := ApiReducer(state, action);
      dispatched := dispatched + [action];
    }

    /** `fetchData`: start, then the fetcher's data or its error message, under the same key. */
    method FetchData(key: string, outcome: FetchOutcome<D>)
      modifies this
      ensures dispatched == old(dispatched) + FetchActions(key, outcome)
      ensures state == ApiReducer(ApiReducer(old(state), FetchActions(key, outcome)[0]), FetchActions(key, outcome)[1])
    {
      Dispatch(FetchStart(key));
      match outcome {
        case Resolved(data) =>
          Dispatch(FetchSuccess(key, data));
        case Rejected(thrown) =>
          var message := "Error";
          if thrown.ErrorInstance? {
            message := thrown.message;
          }
          Dispatch(FetchError(key, message));
      }
    }
  }
}
