/** The `useSkips` hook as a state machine over `{skips, loading, error}`:
    every fetch cycle (on mount, on a postcode/area change, or through
    `refetchSkips`) starts loading, then either stores the transformed records
    or stores the error message and clears the records, and stops loading. */
module SkipFetch {
  import opened Wrappers
  import opened Api
  import opened SkipTransform

  datatype FetchState = FetchState(skips: seq<DisplaySkip>, loading: bool, error: Option<string>)

  /** The three `useState` initial values. */
  function InitialState(): (s: FetchState)
    ensures s.skips == [] && s.loading && s.error.None?
  {
    FetchState([], true, None)
  }

  /** The state updates a fetch cycle performs, in the order it performs them. */
  datatype Event =
    | Started                          // setLoading(true); setError(null)
    | Succeeded(data: seq<RawSkip>)    // setSkips(transformSkipData(data)); setLoading(false)
    | Failed(message: string)          // setError(err.message); setSkips([]); setLoading(false)

  function Step(s: FetchState, e: Event, money: real -> string): (t: FetchState)
    ensures e.Started? ==> t.loading && t.error.None? && t.skips == s.skips
    ensures e.Succeeded? ==> !t.loading && t.error == s.error && |t.skips| == |e.data|
    ensures e.Succeeded? ==> forall i :: 0 <= i < |e.data| ==>
      Untransform(t.skips[i]) == e.data[i] && t.skips[i] == TransformSkip(e.data[i], money)
    ensures e.Failed? ==> !t.loading && t.error == Some(e.message) && t.skips == []
  {
    match e
    case Started => s.(loading := true, error := None)
    case Succeeded(data) => s.(skips := Transform(data, money), loading := false)
    case Failed(message) => s.(error := Some(message), skips := [], loading := false)
  }

  /** The event a settled request turns into. */
  function Completion(outcome: Result<seq<RawSkip>, Error>): Event {
    match outcome
    case Success(data) => Succeeded(data)
    case Failure(err) => Failed(err.message)
  }

  /** One complete `fetchSkips` cycle whose request settled with `outcome`. */
  function Cycle(s: FetchState, outcome: Result<seq<RawSkip>, Error>, money: real -> string): FetchState {
    Step(Step(s, Started, money), Completion(outcome), money)
  }

  /** A cycle ends with loading cleared and in exactly one of two shapes:
      the transformed records with no error, or no records and the message. */
  lemma CycleOutcome(s: FetchState, outcome: Result<seq<RawSkip>, Error>, money: real -> string)
    ensures var t := Cycle(s, outcome, money);
      && !t.loading
      && (outcome.Success? <==> t.error.None?)
      && (outcome.Success? ==> t.skips == Transform(outcome.value, money))
      && (outcome.Failure? ==> t.skips == [] && t.error == Some(outcome.error.message))
  {
  }

  /** Each cycle fully replaces the prior state: nothing carries over. */
  lemma CycleForgetsPriorState(s1: FetchState, s2: FetchState,
                               outcome: Result<seq<RawSkip>, Error>, money: real -> string)
    ensures Cycle(s1, outcome, money) == Cycle(s2, outcome, money)
  {
  }

  /** Starting is idempotent, and while loading the old records stay visible. */
  lemma StartIdempotent(s: FetchState, money: real -> string)
    ensures Step(Step(s, Started, money), Started, money) == Step(s, Started, money)
  {
  }

  /** The state a finished cycle leaves for `outcome`: not loading, and either
      the transformed records with no error, or no records and the message. */
  ghost predicate SettledOn(t: FetchState, outcome: Result<seq<RawSkip>, Error>, money: real -> string) {
    && !t.loading
    && (outcome.Success? ==> t.error.None? && t.skips == Transform(outcome.value, money))
    && (outcome.Failure? ==> t.skips == [] && t.error == Some(outcome.error.message))
  }

  /** `fetchSkips()` for the hook's parameters, with the API's collaborators. */
  function FetchSkips(s: FetchState, postcode: string, area: string, encode: string -> string,
                      fetch: Request -> Transport<seq<RawSkip>>, money: real -> string): (t: FetchState)
    ensures SettledOn(t, GetSkipsByLocation(postcode, area, encode, fetch), money)
  {
    Cycle(s, GetSkipsByLocation(postcode, area, encode, fetch), money)
  }

  /** `refetchSkips()` re-runs the cycle for the parameters the hook holds. */
  function RefetchSkips(s: FetchState, postcode: string, area: string, encode: string -> string,
                        fetch: Request -> Transport<seq<RawSkip>>, money: real -> string): (t: FetchState)
    ensures SettledOn(t, GetSkipsByLocation(postcode, area, encode, fetch), money)
  {
    FetchSkips(s, postcode, area, encode, fetch, money)
  }

  /** Re-fetching with an unchanged server answer lands where the first fetch
      did, whatever the state was in between. */
  lemma RefetchAfterFetch(s: FetchState, between: FetchState, postcode: string, area: string,
                          encode: string -> string, fetch: Request -> Transport<seq<RawSkip>>,
                          money: real -> string)
    ensures RefetchSkips(between, postcode, area, encode, fetch, money)
         == FetchSkips(s, postcode, area, encode, fetch, money)
  {
  }

  /** An HTTP error status leaves no records, no loading, and the status message. */
  lemma HttpErrorState(s: FetchState, postcode: string, area: string, encode: string -> string,
                       status: int, statusText: string, money: real -> string)
    ensures var fetch := (r: Request) => Answered(Reply(false, status, statusText, Success([])));
      FetchSkips(s, postcode, area, encode, fetch, money)
        == FetchState([], false, Some(StatusMessage(status, statusText)))
  {
  }

  /** An empty answer is a success, not an error. */
  lemma EmptyAnswerState(s: FetchState, postcode: string, area: string, encode: string -> string,
                         money: real -> string)
    ensures var fetch := (r: Request) => Answered(Reply(true, 200, "OK", Success([])));
      FetchSkips(s, postcode, area, encode, fetch, money) == FetchState([], false, None)
  {
  }

  /** A rejected network call stores the rejection's own message. */
  lemma NetworkFailureState(s: FetchState, postcode: string, area: string, encode: string -> string,
                            message: string, money: real -> string)
    ensures var fetch := (r: Request) => NetworkFailure(Error(message));
      FetchSkips(s, postcode, area, encode, fetch, money) == FetchState([], false, Some(message))
  {
  }

  /** Runs a series of whole cycles one after another. */
  function RunCycles(s: FetchState, outcomes: seq<Result<seq<RawSkip>, Error>>,
                     money: real -> string): FetchState
    decreases |outcomes|
  {
    if |outcomes| == 0 then s else RunCycles(Cycle(s, outcomes[0], money), outcomes[1..], money)
  }

  /** What the page may rely on at rest: an error shows no records. */
  ghost predicate ErrorMeansEmpty(s: FetchState) {
    s.error.Some? ==> s.skips == []
  }

  /** After any number of whole cycles from the initial state the error and the
      records never coexist, and after at least one the state is the last
      cycle's outcome alone. */
  lemma {:induction false} RunCyclesSettles(s: FetchState, outcomes: seq<Result<seq<RawSkip>, Error>>,
                                            money: real -> string)
    requires ErrorMeansEmpty(s)
    ensures ErrorMeansEmpty(RunCycles(s, outcomes, money))
    ensures |outcomes| > 0 ==>
      RunCycles(s, outcomes, money) == Cycle(s, outcomes[|outcomes| - 1], money)
    decreases |outcomes|
  {
    if |outcomes| > 0 {
      var next := Cycle(s, outcomes[0], money);
      CycleOutcome(s, outcomes[0], money);
      RunCyclesSettles(next, outcomes[1..], money);
      if |outcomes| > 1 {
        CycleForgetsPriorState(next, s, outcomes[|outcomes| - 1], money);
      }
    }
  }
}
