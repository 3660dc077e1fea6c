/**
 * The data hooks of the console (`src/hooks/useApi.ts`): `useApiData`, which
 * keeps `(data, loading, error)` for a fetched resource, and
 * `useApiMutation`, which keeps `(loading, error)` for an action and
 * resolves with the action's data or `null`. Each hook's React state is a
 * class; each `await` splits an operation into the steps before it and the
 * steps after the awaited call settles.
 */
module UseApi {
  import opened Wrappers
  import opened Js
  import opened Api

  /** How the awaited API call settled: with an envelope, or by throwing. */
  type CallOutcome = Result<Envelope, Exception>

  const ApiCallFailed: string := "API call failed"
  const UnknownError: string := "Unknown error occurred"

  /** The call settled with an envelope whose `success` is set. */
  predicate Succeeded(outcome: CallOutcome) {
    outcome.Success? && outcome.value.success
  }

  /** `response.message || 'API call failed'`: the message when there is one, never empty. */
  function FailureText(env: Envelope): (r: string)
    ensures r != ""
    ensures env.message.Some? && env.message.value != "" ==> r == env.message.value
    ensures !(env.message.Some? && env.message.value != "") ==> r == ApiCallFailed
  {
    if env.message.Some? && env.message.value != "" then env.message.value else ApiCallFailed
  }

  /**
   * The error a settled call leaves behind: none after a success envelope,
   * the envelope's message after a failure envelope, and the exception's
   * message (or `Unknown error occurred`) after a throw.
   */
  function OutcomeError(outcome: CallOutcome): (r: Option<string>)
    ensures r.None? <==> Succeeded(outcome)
    ensures outcome.Success? && !outcome.value.success ==> r == Some(FailureText(outcome.value))
    ensures outcome.Failure? ==> r == Some(MessageOr(outcome.error, UnknownError))
    ensures r.Some? && r.value == "" ==> outcome.Failure? && !outcome.error.NotAnError? && outcome.error.message == ""
  {
    match outcome
    case Success(response) => if response.success then None else Some(FailureText(response))
    case Failure(err) => Some(MessageOr(err, UnknownError))
  }

  /**
   * What `mutate` resolves with: `response.data || null` after a success
   * envelope, `null` otherwise. A non-null result is always truthy.
   */
  function MutationResult(outcome: CallOutcome): (r: Option<Json>)
    ensures r.Some? ==> Succeeded(outcome) && r == outcome.value.data && Truthy(r.value)
    ensures Succeeded(outcome) && TruthySlot(outcome.value.data) ==> r == outcome.value.data
    ensures OutcomeError(outcome).Some? ==> r.None?
  {
    if Succeeded(outcome) then Or(outcome.value.data, None) else None
  }

  /** The state of `useApiData`. */
  class ApiData {
    var data: Option<Json>
    var loading: bool
    var error: Option<string>

    /** The initial state: no data, loading, no error. */
    constructor ()
      ensures data == None && loading && error == None
    {
      data, loading, error := None, true, None;
    }

    /** `fetchData` up to the `await`: loading, with the error cleared. */
    method BeginFetch()
      modifies this
      ensures loading && error == None && data == old(data)
    {
      loading := true;
      error := None;
    }

    /** `fetchData` after the call settles, the `finally` included. */
    method CompleteFetch(outcome: CallOutcome)
      modifies this
      ensures !loading
      ensures Succeeded(outcome) ==> data == Or(outcome.value.data, None) && error == old(error)
      ensures !Succeeded(outcome) ==> data == old(data) && error == OutcomeError(outcome)
    {
      match outcome {
        case Success(response) =>
          if response.success {
            data := Or(response.data, None);
          } else {
            error := Some(FailureText(response));
          }
        case Failure(err) =>
          error := Some(MessageOr(err, UnknownError));
      }
      loading := false;
    }

    /**
     * A whole `fetchData` with no other call interleaved: success replaces the
     * data, failure keeps it; loading always ends false and the error is the
     * outcome's.
     */
    method FetchData(outcome: CallOutcome)
      modifies this
      ensures !loading
      ensures data == if Succeeded(outcome) then Or(outcome.value.data, None) else old(data)
      ensures error == OutcomeError(outcome)
    {
      BeginFetch();
      CompleteFetch(outcome);
    }
  }

  /** The state of `useApiMutation`. */
  class Mutation {
    var loading: bool
    var error: Option<string>

    /** The initial state: idle, no error. */
    constructor ()
      ensures !loading && error == None
    {
      loading, error := false, None;
    }

    /** `mutate` up to the `await`. */
    method BeginMutate()
      modifies this
      ensures loading && error == None
    {
      loading := true;
      error := None;
    }

    /** `mutate` after the call settles: the resolved value, with the `finally` applied. */
    method CompleteMutate(outcome: CallOutcome) returns (result: Option<Json>)
      modifies this
      ensures !loading
      ensures result == MutationResult(outcome)
      ensures error == if Succeeded(outcome) then old(error) else OutcomeError(outcome)
    {
      match outcome {
        case Success(response) =>
          if response.success {
            result := Or(response.data, None);
          } else {
            error := Some(FailureText(response));
            result := None;
          }
        case Failure(err) =>
          error := Some(MessageOr(err, UnknownError));
          result := None;
      }
      loading := false;
    }

    /** A whole `mutate` with no other call interleaved. */
    method Mutate(outcome: CallOutcome) returns (result: Option<Json>)
      modifies this
      ensures !loading
      ensures result == MutationResult(outcome)
      ensures error == OutcomeError(outcome)
    {
      BeginMutate();
      result := CompleteMutate(outcome);
    }
  }
}
