/**
  The observable effects of the hooks, in the order they happen: toasts, cache
  invalidations and calls of the caller's own `onSuccess` / `onError` callbacks.
 */
module Effects {
  import opened QueryKeys

  /** The four `sonner` toast kinds. */
  datatype ToastKind = Success | Error | Info | Warning

  datatype Effect =
    | Toast(kind: ToastKind, text: string)
    | Invalidate(key: QueryKey)
    | CallerOnSuccess
    | CallerOnError

  /** Everything the hooks have done so far, oldest first. */
  class EffectLog {
    var log: seq<Effect>

    constructor ()
      ensures log == []
    {
      log := [];
    }

    method Push(e: Effect)
      modifies this
      ensures log == old(log) + [e]
    {
      log := log + [e];
    }
  }
}
