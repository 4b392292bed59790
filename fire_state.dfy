/**
 * The fetch state of the optimised fire hook: the loaded fire locations and prediction, a
 * loading flag and an error message, driven by the start, success, failure and clear-error
 * updates the hook passes to its state setter.
 */
module FireFetch {
  import opened Common
  import opened FireModels

  const LocationsError: string := "Failed to fetch fire locations"
  const PredictionsError: string := "Failed to fetch fire predictions"

  /** The hook's `FireState` record; `null` is `None`. */
  datatype FireState = FireState(
    locations: seq<FireLocation>, predictions: Option<PredictionResponse>, loading: bool, error: Option<string>)

  /** The state the hook starts from: nothing loaded, not loading, no error. */
  const InitialState: FireState := FireState([], None, false, None)

  // ---------------------------------------------------------------------------------------
  // The updaters (`prev => ({...prev, ...})`)

  /** Either fetch starts by raising `loading` and clearing `error`; the data stay. */
  function Started(prev: FireState): (s: FireState)
    ensures s.loading && s.error == None
    ensures s.locations == prev.locations && s.predictions == prev.predictions
  {
    prev.(loading := true, error := None)
  }

  /** A location fetch that succeeds replaces the locations and lowers `loading`. */
  function LocationsLoaded(prev: FireState, locations: seq<FireLocation>): (s: FireState)
    ensures s.locations == locations && !s.loading
    ensures s.predictions == prev.predictions && s.error == prev.error
  {
    prev.(locations := locations, loading := false)
  }

  /** A prediction fetch that succeeds replaces the prediction and lowers `loading`. */
  function PredictionsLoaded(prev: FireState, predictions: Option<PredictionResponse>): (s: FireState)
    ensures s.predictions == predictions && !s.loading
    ensures s.locations == prev.locations && s.error == prev.error
  {
    prev.(predictions := predictions, loading := false)
  }

  /** A fetch that fails records the message of its kind of request and lowers `loading`. */
  function Failed(prev: FireState, message: string): (s: FireState)
    ensures s.error == Some(message) && !s.loading
    ensures s.locations == prev.locations && s.predictions == prev.predictions
  {
    prev.(error := Some(message), loading := false)
  }

  /** `clearError` resets the error and nothing else. */
  function ErrorCleared(prev: FireState): (s: FireState)
    ensures s.error == None
    ensures s.locations == prev.locations && s.predictions == prev.predictions && s.loading == prev.loading
  {
    prev.(error := None)
  }

  // ---------------------------------------------------------------------------------------
  // A whole fetch: the start, then the outcome of the awaited request

  /** The state after `fetchFireLocations`, given how the awaited request settled. */
  function AfterLocationsFetch(prev: FireState, outcome: Attempt<seq<FireLocation>>): FireState {
    var started := Started(prev);
    match outcome
    case Resolved(locations) => LocationsLoaded(started, locations)
    case Rejected => Failed(started, LocationsError)
  }

  /** The state after `fetchPredictions`, given how the awaited request settled. */
  function AfterPredictionsFetch(prev: FireState, outcome: Attempt<Option<PredictionResponse>>): FireState {
    var started := Started(prev);
    match outcome
    case Resolved(predictions) => PredictionsLoaded(started, predictions)
    case Rejected => Failed(started, PredictionsError)
  }

  /**
   * A location fetch always ends with `loading` lowered and the prediction kept. It ends without
   * an error exactly when the request resolved, and then holds the fetched locations; when the
   * request rejected it keeps the previous locations and records the locations message.
   */
  lemma LocationsFetchOutcome(prev: FireState, outcome: Attempt<seq<FireLocation>>)
    ensures var s := AfterLocationsFetch(prev, outcome);
      && !s.loading && s.predictions == prev.predictions
      && (s.error == None <==> outcome.Resolved?)
      && (outcome.Resolved? ==> s.locations == outcome.value)
      && (outcome.Rejected? ==> s.locations == prev.locations && s.error == Some(LocationsError))
  {
  }

  /**
   * A prediction fetch always ends with `loading` lowered and the locations kept. It ends without
   * an error exactly when the request resolved, and then holds the fetched prediction; when the
   * request rejected it keeps the previous prediction and records the predictions message.
   */
  lemma PredictionsFetchOutcome(prev: FireState, outcome: Attempt<Option<PredictionResponse>>)
    ensures var s := AfterPredictionsFetch(prev, outcome);
      && !s.loading && s.locations == prev.locations
      && (s.error == None <==> outcome.Resolved?)
      && (outcome.Resolved? ==> s.predictions == outcome.value)
      && (outcome.Rejected? ==> s.predictions == prev.predictions && s.error == Some(PredictionsError))
  {
  }

  /**
   * The error a fetch leaves tells which request failed: whatever the states the two fetches
   * start from, a failed location fetch never leaves the error a prediction fetch leaves.
   */
  lemma ErrorNamesRequest(prev: FireState, outcome: Attempt<seq<FireLocation>>,
                          prev': FireState, outcome': Attempt<Option<PredictionResponse>>)
    ensures var s, s' := AfterLocationsFetch(prev, outcome), AfterPredictionsFetch(prev', outcome');
      (s.error.Some? || s'.error.Some?) ==> s.error != s'.error
  {
    assert LocationsError[21] != PredictionsError[21];
  }

  /**
   * Each fetch starts by clearing the error, so after two fetches the error is the second
   * fetch's alone, whichever request ran first and however it ended.
   */
  lemma LastFetchDecidesError(prev: FireState, outcome: Attempt<seq<FireLocation>>,
                              outcome': Attempt<Option<PredictionResponse>>)
    ensures AfterPredictionsFetch(AfterLocationsFetch(prev, outcome), outcome').error
            == AfterPredictionsFetch(prev, outcome').error
    ensures AfterLocationsFetch(AfterPredictionsFetch(prev, outcome'), outcome).error
            == AfterLocationsFetch(prev, outcome).error
  {
  }

  /** Clearing the error twice is the same as clearing it once. */
  lemma ErrorClearedIdempotent(prev: FireState)
    ensures ErrorCleared(ErrorCleared(prev)) == ErrorCleared(prev)
  {
  }

  // ---------------------------------------------------------------------------------------
  // The request wrappers the hook awaits

  /**
   * `getFireLocations`: the locations of the response, or `[]` when the request fails. The
   * wrapper catches every failure, so the promise it returns always resolves.
   */
  function FireLocationsRequest(response: Attempt<seq<FireLocation>>): (r: Attempt<seq<FireLocation>>)
    ensures r.Resolved?
    ensures r.value == if response.Resolved? then response.value else []
  {
    match response
    case Resolved(locations) => Resolved(locations)
    case Rejected => Resolved([])
  }

  /**
   * `getPrediction`: the prediction of the response, or `undefined` when the request fails. It
   * too catches every failure and so always resolves.
   */
  function PredictionRequest(response: Attempt<PredictionResponse>): (r: Attempt<Option<PredictionResponse>>)
    ensures r.Resolved?
    ensures r.value == if response.Resolved? then Some(response.value) else None
  {
    match response
    case Resolved(p) => Resolved(Some(p))
    case Rejected => Resolved(None)
  }

  /**
   * Through the real wrapper a location fetch never reaches its failure branch: a failed request
   * ends with no locations and no error.
   */
  lemma LocationsFailureUnreachable(prev: FireState, response: Attempt<seq<FireLocation>>)
    ensures var s := AfterLocationsFetch(prev, FireLocationsRequest(response));
      && s.error == None && !s.loading
      && s.locations == (if response.Resolved? then response.value else [])
  {
    LocationsFetchOutcome(prev, FireLocationsRequest(response));
  }

  /**
   * Through the real wrapper a prediction fetch never reaches its failure branch either: a failed
   * request ends with no prediction and no error.
   */
  lemma PredictionsFailureUnreachable(prev: FireState, response: Attempt<PredictionResponse>)
    ensures var s := AfterPredictionsFetch(prev, PredictionRequest(response));
      && s.error == None && !s.loading
      && s.predictions == (if response.Resolved? then Some(response.value) else None)
  {
    PredictionsFetchOutcome(prev, PredictionRequest(response));
  }

  // ---------------------------------------------------------------------------------------
  // The hook

  /** The hook's held `fireState` and the calls it offers. */
  class FireHook {
    var fireState: FireState

    constructor ()
      ensures fireState == InitialState
    {
      fireState := InitialState;
    }

    /** The first write of either fetch. */
    method Start()
      modifies this
      ensures fireState == Started(old(fireState))
    {
      fireState := Started(fireState);
    }

    /**
     * `fetchFireLocations`, where `outcome` is how the awaited `getFireLocations` settled: two
     * successive writes, the start and then the result or the error.
     */
    method FetchFireLocations(outcome: Attempt<seq<FireLocation>>)
      modifies this
      ensures fireState == AfterLocationsFetch(old(fireState), outcome)
    {
      Start();
      match outcome
      case Resolved(locations) =>
        fireState := LocationsLoaded(fireState, locations);
      case Rejected =>
        fireState := Failed(fireState, LocationsError);
    }

    /** `fetchPredictions`, where `outcome` is how the awaited `getPrediction` settled. */
    method FetchPredictions(outcome: Attempt<Option<PredictionResponse>>)
      modifies this
      ensures fireState == AfterPredictionsFetch(old(fireState), outcome)
    {
      Start();
      match outcome
      case Resolved(predictions) =>
        fireState := PredictionsLoaded(fireState, predictions);
      case Rejected =>
        fireState := Failed(fireState, PredictionsError);
    }

    method ClearError()
      modifies this
      ensures fireState == ErrorCleared(old(fireState))
    {
      fireState := ErrorCleared(fireState);
    }
  }
}
