/**
  The mutation and query wrappers of `useCrud`: the success and error handlers of
  `useCreate`, `useUpdate` and `useDelete`, the optimistic-update protocol of
  `useOptimisticUpdate` over the query cache, and the option filtering of `useGet`.
 */
module Crud {
  import opened Js
  import opened Api
  import opened QueryKeys
  import opened Effects
  import opened ApiErrorHook

  datatype MutationKind = Create | Update | Delete

  /** The default `successMessage` of each hook. */
  function DefaultSuccessMessage(kind: MutationKind): (m: string)
    ensures m != ""
  {
    match kind
    case Create => "Tạo thành công!"
    case Update => "Cập nhật thành công!"
    case Delete => "Xóa thành công!"
  }

  /**
    The options a mutation hook reads; `None` is an option left out. The caller's
    own callbacks are known only by whether they were given.
   */
  datatype MutationOptions = MutationOptions(
    showSuccessToast: Option<bool>,
    showErrorToast: Option<bool>,
    successMessage: Option<string>,
    invalidateQueries: Option<seq<QueryKey>>,
    hasOnSuccess: bool,
    hasOnError: bool)

  function SuccessMessage(kind: MutationKind, o: MutationOptions): string {
    o.successMessage.GetOr(DefaultSuccessMessage(kind))
  }

  function InvalidatedKeys(o: MutationOptions): seq<QueryKey> {
    o.invalidateQueries.GetOr([])
  }

  function Invalidations(keys: seq<QueryKey>): (r: seq<Effect>)
    ensures |r| == |keys| && forall i :: 0 <= i < |keys| ==> r[i] == Invalidate(keys[i])
  {
    seq(|keys|, i requires 0 <= i < |keys| => Invalidate(keys[i]))
  }

  /** Whether the success toast is shown: `showSuccessToast` defaults to true. */
  function ToastCount(o: MutationOptions): nat {
    if o.showSuccessToast.GetOr(true) then 1 else 0
  }

  /** What the wrapped `onSuccess` does, in order. */
  function SuccessEffects(kind: MutationKind, o: MutationOptions): (r: seq<Effect>)
    ensures |r| == ToastCount(o) + |InvalidatedKeys(o)| + (if o.hasOnSuccess then 1 else 0)
    ensures forall i :: 0 <= i < |InvalidatedKeys(o)| ==> r[ToastCount(o) + i] == Invalidate(InvalidatedKeys(o)[i])
    ensures ToastCount(o) == 1 ==> r[0] == Toast(Success, SuccessMessage(kind, o))
    ensures o.hasOnSuccess ==> r[|r| - 1] == CallerOnSuccess
    ensures forall i :: ToastCount(o) <= i < |r| ==> !r[i].Toast?
  {
    var rest := Invalidations(InvalidatedKeys(o)) + (if o.hasOnSuccess then [CallerOnSuccess] else []);
    assert forall i :: 0 <= i < |rest| ==> !rest[i].Toast?;
    if ToastCount(o) == 1 then [Toast(Success, SuccessMessage(kind, o))] + rest else rest
  }

  /** The toasts of a failed mutation: delete never expands the field errors. */
  function MutationErrorToasts(kind: MutationKind, e: ApiError): seq<Effect> {
    if kind == Delete then [Toast(Error, e.message)] else ErrorToasts(e)
  }

  /** What the wrapped `onError` does, in order: the toasts, then the caller's callback. */
  function ErrorEffects(kind: MutationKind, o: MutationOptions, e: ApiError): (r: seq<Effect>)
    ensures |r| == (if o.showErrorToast.GetOr(true) then |MutationErrorToasts(kind, e)| else 0) + (if o.hasOnError then 1 else 0)
    ensures !o.showErrorToast.GetOr(true) ==> r == (if o.hasOnError then [CallerOnError] else [])
    ensures o.showErrorToast.GetOr(true) ==> r[..|r| - (if o.hasOnError then 1 else 0)] == MutationErrorToasts(kind, e)
    ensures o.hasOnError ==> r[|r| - 1] == CallerOnError
    ensures forall i :: 0 <= i < |r| ==> r[i].Toast? || (o.hasOnError && i == |r| - 1)
  {
    ErrorToastsShape(e);
    var toasts := if o.showErrorToast.GetOr(true) then MutationErrorToasts(kind, e) else [];
    var r := toasts + (if o.hasOnError then [CallerOnError] else []);
    assert r[..|toasts|] == toasts;
    r
  }

  /** Create and update show a non-empty field map field by field, one toast per message. */
  lemma CreateAndUpdateExpandFieldErrors(kind: MutationKind, o: MutationOptions, e: ApiError)
    requires kind != Delete && o.showErrorToast.GetOr(true) && HasFieldErrors(e)
    ensures |ErrorEffects(kind, o, e)| == MessageCount(e.errors.value) + (if o.hasOnError then 1 else 0)
  {
    ErrorToastsShape(e);
  }

  /** Delete shows exactly one toast, the error's message, whatever its field errors. */
  lemma DeleteShowsOneToast(o: MutationOptions, e: ApiError)
    requires o.showErrorToast.GetOr(true)
    ensures ErrorEffects(Delete, o, e)[0] == Toast(Error, e.message)
    ensures forall i :: 1 <= i < |ErrorEffects(Delete, o, e)| ==> !ErrorEffects(Delete, o, e)[i].Toast?
  {
  }

  /** `onSuccess` of a mutation hook. */
  method OnSuccess(fx: EffectLog, kind: MutationKind, o: MutationOptions)
    modifies fx
    ensures fx.log == old(fx.log) + SuccessEffects(kind, o)
  {
    var show := o.showSuccessToast.GetOr(true);
    ghost var toast := if show then [Toast(Success, SuccessMessage(kind, o))] else [];
    if show {
      HandleSuccess(fx, SuccessMessage(kind, o));
    }
    ghost var afterToast := fx.log;
    assert afterToast == old(fx.log) + toast;
    var keys := InvalidatedKeys(o);
    var i := 0;
    while i < |keys|
      invariant 0 <= i <= |keys|
      invariant fx.log == afterToast + Invalidations(keys[..i])
    {
      fx.Push(Invalidate(keys[i]));
      assert Invalidations(keys[..i + 1]) == Invalidations(keys[..i]) + [Invalidate(keys[i])];
      i := i + 1;
    }
    assert keys[..i] == keys;
    if o.hasOnSuccess {
      fx.Push(CallerOnSuccess);
    }
    assert fx.log == old(fx.log) + (toast + Invalidations(keys) + (if o.hasOnSuccess then [CallerOnSuccess] else []));
  }

  /** `onError` of a mutation hook. */
  method OnError(fx: EffectLog, kind: MutationKind, o: MutationOptions, e: ApiError)
    modifies fx
    ensures fx.log == old(fx.log) + ErrorEffects(kind, o, e)
  {
    if o.showErrorToast.GetOr(true) {
      if kind == Delete {
        fx.Push(Toast(Error, e.message));
      } else {
        HandleError(fx, e);
      }
    }
    if o.hasOnError {
      fx.Push(CallerOnError);
    }
  }

  /** `useGet`: every option but `showErrorToast` reaches the query. */
  function QueryOptions(options: map<string, Val>): (r: map<string, Val>)
    ensures "showErrorToast" !in r
    ensures forall k :: k in options && k != "showErrorToast" ==> k in r && r[k] == options[k]
    ensures r.Keys == options.Keys - {"showErrorToast"}
  {
    options - {"showErrorToast"}
  }

  /** The object `useQuery` receives: key and function first, then the forwarded options. */
  function UseGetConfig(queryKey: Val, queryFn: Val, options: map<string, Val>): (r: map<string, Val>)
    ensures "showErrorToast" !in r && "queryKey" in r && "queryFn" in r
    ensures "queryKey" !in options ==> r["queryKey"] == queryKey
    ensures "queryFn" !in options ==> r["queryFn"] == queryFn
    ensures forall k :: k in options && k != "showErrorToast" ==> k in r && r[k] == options[k]
  {
    map["queryKey" := queryKey, "queryFn" := queryFn] + QueryOptions(options)
  }

  /** Filtering the options is idempotent: a second pass forwards the same options. */
  lemma QueryOptionsIdempotent(options: map<string, Val>)
    ensures QueryOptions(QueryOptions(options)) == QueryOptions(options)
  {
  }

  /** `getQueryData`: `undefined` for a key with no entry. */
  function GetData(entries: map<QueryKey, Val>, k: QueryKey): Val {
    if k in entries then entries[k] else Undefined
  }

  /** `setQueryData` with a value: an `undefined` value leaves the cache as it is. */
  function SetData(entries: map<QueryKey, Val>, k: QueryKey, v: Val): (r: map<QueryKey, Val>)
    ensures v == Undefined ==> r == entries
    ensures v != Undefined ==> GetData(r, k) == v
    ensures forall k' :: k' != k ==> GetData(r, k') == GetData(entries, k')
  {
    if v == Undefined then entries else entries[k := v]
  }

  datatype MutateResult = MutateResult(entries: map<QueryKey, Val>, previousData: Val)

  /** `onMutate`: snapshot the entry, and write the optimistic value only over truthy data. */
  function OnMutateCache(entries: map<QueryKey, Val>, k: QueryKey, update: (Val, Val) -> Val, variables: Val): (r: MutateResult)
    ensures r.previousData == GetData(entries, k)
    ensures !Truthy(r.previousData) ==> r.entries == entries
    ensures Truthy(r.previousData) ==> r.entries == SetData(entries, k, update(r.previousData, variables))
  {
    var previous := GetData(entries, k);
    if Truthy(previous) then MutateResult(SetData(entries, k, update(previous, variables)), previous)
    else MutateResult(entries, previous)
  }

  /** `onError`: restore a truthy snapshot. */
  function OnErrorCache(entries: map<QueryKey, Val>, k: QueryKey, previousData: Val): (r: map<QueryKey, Val>)
    ensures Truthy(previousData) ==> GetData(r, k) == previousData
    ensures !Truthy(previousData) ==> r == entries
    ensures forall k' :: k' != k ==> GetData(r, k') == GetData(entries, k')
  {
    if Truthy(previousData) then SetData(entries, k, previousData) else entries
  }

  /** A failed optimistic mutation leaves the whole cache exactly as it found it. */
  lemma RollbackRestores(entries: map<QueryKey, Val>, k: QueryKey, update: (Val, Val) -> Val, variables: Val)
    ensures var m := OnMutateCache(entries, k, update, variables);
      OnErrorCache(m.entries, k, m.previousData) == entries
  {
    var m := OnMutateCache(entries, k, update, variables);
    if Truthy(m.previousData) {
      var mid := SetData(entries, k, update(m.previousData, variables));
      assert k in entries;
      assert SetData(mid, k, m.previousData) == entries;
    }
  }

  /** The optimistic write touches no other key. */
  lemma OptimisticWriteIsLocal(entries: map<QueryKey, Val>, k: QueryKey, update: (Val, Val) -> Val, variables: Val, other: QueryKey)
    requires other != k
    ensures GetData(OnMutateCache(entries, k, update, variables).entries, other) == GetData(entries, other)
  {
  }

  /** The query cache the optimistic protocol reads and writes. */
  class QueryCache {
    var entries: map<QueryKey, Val>

    constructor (entries: map<QueryKey, Val>)
      ensures this.entries == entries
    {
      this.entries := entries;
    }

    function Get(k: QueryKey): Val
      reads this
    {
      GetData(entries, k)
    }

    method Set(k: QueryKey, v: Val)
      modifies this
      ensures entries == SetData(old(entries), k, v)
    {
      if v != Undefined {
        entries := entries[k := v];
      }
    }
  }

  /** The three handlers `useOptimisticUpdate` installs for one cache key. */
  class OptimisticUpdate {
    const queryKey: QueryKey
    const update: (Val, Val) -> Val
    const hasOnError: bool

    constructor (queryKey: QueryKey, update: (Val, Val) -> Val, hasOnError: bool)
      ensures this.queryKey == queryKey && this.update == update && this.hasOnError == hasOnError
    {
      this.queryKey := queryKey;
      this.update := update;
      this.hasOnError := hasOnError;
    }

    method OnMutate(cache: QueryCache, variables: Val) returns (previousData: Val)
      modifies cache
      ensures var m := OnMutateCache(old(cache.entries), queryKey, update, variables);
        cache.entries == m.entries && previousData == m.previousData
    {
      previousData := cache.Get(queryKey);
      if Truthy(previousData) {
        var optimistic := update(previousData, variables);
        cache.Set(queryKey, optimistic);
      }
    }

    method OnError(cache: QueryCache, fx: EffectLog, previousData: Val)
      modifies cache, fx
      ensures cache.entries == OnErrorCache(old(cache.entries), queryKey, previousData)
      ensures fx.log == old(fx.log) + if hasOnError then [CallerOnError] else []
    {
      if Truthy(previousData) {
        cache.Set(queryKey, previousData);
      }
      if hasOnError {
        fx.Push(CallerOnError);
      }
    }

    /** `onSettled`, on success and failure alike. */
    method OnSettled(fx: EffectLog)
      modifies fx
      ensures fx.log == old(fx.log) + [Invalidate(queryKey)]
    {
      fx.Push(Invalidate(queryKey));
    }
  }

  /** A mutation that fails: the cache ends where it began and the key is invalidated last. */
  method FailedOptimisticMutation(u: OptimisticUpdate, cache: QueryCache, fx: EffectLog, variables: Val)
    modifies cache, fx
    ensures cache.entries == old(cache.entries)
    ensures |fx.log| > 0 && fx.log[|fx.log| - 1] == Invalidate(u.queryKey)
  {
    var previousData := u.OnMutate(cache, variables);
    u.OnError(cache, fx, previousData);
    u.OnSettled(fx);
    RollbackRestores(old(cache.entries), u.queryKey, u.update, variables);
  }
}
