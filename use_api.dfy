/**
  The `useApi` request hook: one `{ data, loading, error }` record, set to loading
  when `execute` starts and settled when the request resolves or rejects, with the
  caller's callback and the toasts that follow.
 */
module ApiRequest {
  import opened Js
  import opened Api
  import opened Effects
  import opened ApiErrorHook

  /** `data` and `error` are `null` when `None`. */
  datatype RequestState<T> = RequestState(data: Option<T>, loading: bool, error: Option<ApiError>)

  /** How the awaited request ended. */
  datatype Outcome<T> = Resolved(value: T) | Rejected(error: ApiError)

  /**
    The hook's options; `None` is an option left out, and a missing `options`
    object is `NoOptions`. The callbacks are known only by whether they were given.
   */
  datatype ApiOptions = ApiOptions(
    hasOnSuccess: bool,
    hasOnError: bool,
    showErrorToast: Option<bool>,
    showSuccessToast: Option<bool>,
    successMessage: Option<string>)

  const NoOptions := ApiOptions(false, false, None, None, None)

  function InitialState<T>(): (s: RequestState<T>)
    ensures s.data.None? && !s.loading && s.error.None?
  {
    RequestState(None, false, None)
  }

  /** The first `setState` of `execute`. */
  function Started<T>(s: RequestState<T>): (r: RequestState<T>)
    ensures r.loading && r.error.None? && r.data == s.data
  {
    s.(loading := true, error := None)
  }

  /** The `setState` after the request: the result on success, the error on failure. */
  function Settled<T>(s: RequestState<T>, outcome: Outcome<T>): (r: RequestState<T>)
    ensures !r.loading
    ensures outcome.Resolved? ==> r.data == Some(outcome.value) && r.error == s.error
    ensures outcome.Rejected? ==> r.data == s.data && r.error == Some(outcome.error)
  {
    match outcome
    case Resolved(v) => s.(data := Some(v), loading := false)
    case Rejected(e) => s.(error := Some(e), loading := false)
  }

  /** What `execute` resolves to: the result, or `null` after a failure. */
  function Returned<T>(outcome: Outcome<T>): (r: Option<T>)
    ensures r.Some? <==> outcome.Resolved?
    ensures r.Some? ==> r.value == outcome.value
  {
    if outcome.Resolved? then Some(outcome.value) else None
  }

  /** `options?.showSuccessToast && options?.successMessage` */
  predicate ShowsSuccessToast(o: ApiOptions) {
    o.showSuccessToast == Some(true) && Given(o.successMessage)
  }

  /** The effects after the request settles: the caller's callback first, then the toasts. */
  function SettleEffects<T>(o: ApiOptions, outcome: Outcome<T>): (r: seq<Effect>)
    ensures outcome.Resolved? ==> |r| == (if o.hasOnSuccess then 1 else 0) + (if ShowsSuccessToast(o) then 1 else 0)
    ensures outcome.Resolved? && o.hasOnSuccess ==> r[0] == CallerOnSuccess
    ensures outcome.Resolved? && ShowsSuccessToast(o) ==> r[|r| - 1] == Toast(Success, o.successMessage.value)
    ensures outcome.Rejected? && o.hasOnError ==> |r| > 0 && r[0] == CallerOnError
    ensures outcome.Rejected? && o.showErrorToast != Some(false) ==>
      r[(if o.hasOnError then 1 else 0)..] == ErrorToasts(outcome.error)
    ensures outcome.Rejected? && o.showErrorToast == Some(false) ==> r == (if o.hasOnError then [CallerOnError] else [])
  {
    match outcome
    case Resolved(_) =>
      (if o.hasOnSuccess then [CallerOnSuccess] else [])
      + (if ShowsSuccessToast(o) then [Toast(Success, o.successMessage.value)] else [])
    case Rejected(e) =>
      var cb := if o.hasOnError then [CallerOnError] else [];
      var r := cb + (if o.showErrorToast != Some(false) then ErrorToasts(e) else []);
      assert r[|cb|..] == r[(if o.hasOnError then 1 else 0)..];
      r
  }

  /** Whatever came before, a successful `execute` ends with the result and no error. */
  lemma SuccessfulExecute<T>(s: RequestState<T>, v: T)
    ensures Settled(Started(s), Resolved(v)) == RequestState(Some(v), false, None)
  {
  }

  /** A failed `execute` keeps the data of the last success. */
  lemma FailureKeepsLastData<T>(s: RequestState<T>, v: T, e: ApiError)
    ensures Settled(Started(Settled(Started(s), Resolved(v))), Rejected(e)) == RequestState(Some(v), false, Some(e))
  {
  }

  /** Starting again clears the error of a failed `execute` but not its data. */
  lemma RestartClearsError<T>(s: RequestState<T>, e: ApiError)
    ensures Started(Settled(Started(s), Rejected(e))) == RequestState(s.data, true, None)
  {
  }

  /** With no options a success shows nothing and a failure shows the error toasts alone. */
  lemma DefaultOptionsEffects<T>(v: T, e: ApiError)
    ensures SettleEffects(NoOptions, Resolved(v)) == []
    ensures SettleEffects<T>(NoOptions, Rejected(e)) == ErrorToasts(e)
  {
    assert SettleEffects<T>(NoOptions, Rejected(e))[0..] == SettleEffects<T>(NoOptions, Rejected(e));
  }

  class UseApi<T> {
    var state: RequestState<T>
    const options: ApiOptions

    constructor (options: ApiOptions)
      ensures state == InitialState() && this.options == options
    {
      state := InitialState();
      this.options := options;
    }

    /** The start of `execute`, before the request is awaited. */
    method Begin()
      modifies this`state
      ensures state == Started(old(state))
    {
      state := state.(loading := true, error := None);
    }

    /** The rest of `execute`, once the request has settled. */
    method Settle(fx: EffectLog, outcome: Outcome<T>) returns (r: Option<T>)
      modifies this`state, fx
      ensures state == Settled(old(state), outcome)
      ensures fx.log == old(fx.log) + SettleEffects(options, outcome)
      ensures r == Returned(outcome)
    {
      match outcome
      case Resolved(result) =>
        state := state.(data := Some(result), loading := false);
        if options.hasOnSuccess {
          fx.Push(CallerOnSuccess);
        }
        if ShowsSuccessToast(options) {
          HandleSuccess(fx, options.successMessage.value);
        }
        r := Some(result);
      case Rejected(e) =>
        state := state.(error := Some(e), loading := false);
        if options.hasOnError {
          fx.Push(CallerOnError);
        }
        if options.showErrorToast != Some(false) {
          HandleError(fx, e);
        }
        r := None;
    }

    /** `execute`, run to completion. */
    method Execute(fx: EffectLog, outcome: Outcome<T>) returns (r: Option<T>)
      modifies this`state, fx
      ensures state == Settled(Started(old(state)), outcome)
      ensures !state.loading
      ensures fx.log == old(fx.log) + SettleEffects(options, outcome)
      ensures r == Returned(outcome)
    {
      Begin();
      r := Settle(fx, outcome);
    }

    method Reset()
      modifies this`state
      ensures state == InitialState()
    {
      state := RequestState(None, false, None);
    }
  }
}
