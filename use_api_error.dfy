/**
  The toast helpers of `useApiError`. A classified error with a non-empty field
  map is shown as one error toast per message, "field: message", fields in entry
  order and each field's messages in list order; any other error as one toast
  holding its message.
 */
module ApiErrorHook {
  import opened Js
  import opened Api
  import opened Effects

  function FieldToast(field: string, message: string): Effect {
    Toast(Error, field + ": " + message)
  }

  /** The toasts of one field. */
  function MessageToasts(field: string, messages: seq<string>): (r: seq<Effect>)
    ensures |r| == |messages|
    ensures forall j :: 0 <= j < |messages| ==> r[j] == FieldToast(field, messages[j])
  {
    seq(|messages|, j requires 0 <= j < |messages| => FieldToast(field, messages[j]))
  }

  /** The toasts of every field, in entry order. */
  function FieldToasts(errors: FieldErrors): seq<Effect> {
    if errors == [] then []
    else
      var last := errors[|errors| - 1];
      FieldToasts(errors[..|errors| - 1]) + MessageToasts(last.0, last.1)
  }

  /** The total number of messages over all fields. */
  function MessageCount(errors: FieldErrors): nat {
    if errors == [] then 0 else MessageCount(errors[..|errors| - 1]) + |errors[|errors| - 1].1|
  }

  /** `error.errors && Object.keys(error.errors).length > 0` */
  predicate HasFieldErrors(e: ApiError) {
    e.errors.Some? && |e.errors.value| > 0
  }

  /** The toasts `handleError` shows for an error. */
  function ErrorToasts(e: ApiError): seq<Effect> {
    if HasFieldErrors(e) then FieldToasts(e.errors.value) else [Toast(Error, e.message)]
  }

  lemma {:induction false} FieldToastCount(errors: FieldErrors)
    ensures |FieldToasts(errors)| == MessageCount(errors)
    decreases |errors|
  {
    if errors != [] {
      FieldToastCount(errors[..|errors| - 1]);
    }
  }

  /** The toasts of two runs of fields are those of the first run followed by those of the second. */
  lemma {:induction false} FieldToastsAppend(a: FieldErrors, b: FieldErrors)
    ensures FieldToasts(a + b) == FieldToasts(a) + FieldToasts(b)
    decreases |b|
  {
    if b == [] {
      assert a + b == a;
    } else {
      var ab, b', last := a + b, b[..|b| - 1], b[|b| - 1];
      assert ab[..|ab| - 1] == a + b';
      assert ab[|ab| - 1] == last;
      assert FieldToasts(ab) == FieldToasts(a + b') + MessageToasts(last.0, last.1);
      FieldToastsAppend(a, b');
      assert FieldToasts(b) == FieldToasts(b') + MessageToasts(last.0, last.1);
    }
  }

  /**
    The order of the toasts: the `j`-th message of the `i`-th field is shown after
    every message of the fields before it, and after the `j` messages before it.
   */
  lemma FieldToastOrder(errors: FieldErrors, i: nat, j: nat)
    requires i < |errors| && j < |errors[i].1|
    ensures MessageCount(errors[..i]) + j < |FieldToasts(errors)|
    ensures FieldToasts(errors)[MessageCount(errors[..i]) + j] == FieldToast(errors[i].0, errors[i].1[j])
  {
    var before, one, rest := errors[..i], [errors[i]], errors[i + 1..];
    assert errors == before + one + rest;
    var mine := MessageToasts(errors[i].0, errors[i].1);
    assert FieldToasts(one) == mine by {
      assert one[..0] == [];
    }
    FieldToastsAppend(before, one);
    FieldToastsAppend(before + one, rest);
    var pre := FieldToasts(before);
    assert FieldToasts(errors) == pre + mine + FieldToasts(rest);
    FieldToastCount(before);
    assert |pre| == MessageCount(before);
    assert (pre + mine + FieldToasts(rest))[|pre| + j] == mine[j];
  }

  /** Every toast `handleError` shows is an error toast. */
  lemma {:induction false} FieldToastsAreErrors(errors: FieldErrors)
    ensures forall k :: 0 <= k < |FieldToasts(errors)| ==> FieldToasts(errors)[k].Toast? && FieldToasts(errors)[k].kind == Error
    decreases |errors|
  {
    if errors != [] {
      FieldToastsAreErrors(errors[..|errors| - 1]);
    }
  }

  /** The number of toasts, and that they are all error toasts. */
  lemma ErrorToastsShape(e: ApiError)
    ensures |ErrorToasts(e)| == if HasFieldErrors(e) then MessageCount(e.errors.value) else 1
    ensures forall k :: 0 <= k < |ErrorToasts(e)| ==> ErrorToasts(e)[k].Toast? && ErrorToasts(e)[k].kind == Error
    ensures !HasFieldErrors(e) ==> ErrorToasts(e) == [Toast(Error, e.message)]
  {
    if HasFieldErrors(e) {
      FieldToastCount(e.errors.value);
      FieldToastsAreErrors(e.errors.value);
    }
  }

  /** A field map whose every list is empty shows no toast at all, not even the message. */
  lemma {:induction false} EmptyListsShowNothing(errors: FieldErrors)
    requires forall i :: 0 <= i < |errors| ==> errors[i].1 == []
    ensures FieldToasts(errors) == []
    decreases |errors|
  {
    if errors != [] {
      EmptyListsShowNothing(errors[..|errors| - 1]);
    }
  }

  /** A 422 response whose object body carries a non-empty `errors` map is shown field by field. */
  lemma ValidationResponseToasts(message: Option<string>, error: Option<string>, errors: FieldErrors)
    requires errors != []
    ensures ErrorToasts(Classify(WithResponse(UnprocessableEntity, Record(message, error, Some(errors))))) == FieldToasts(errors)
  {
  }

  /** Any other classified failure (no response, a non-422 status) is shown as its one message. */
  lemma OtherFailuresShowMessage(f: Failure)
    requires !(f.WithResponse? && f.status == UnprocessableEntity)
    ensures ErrorToasts(Classify(f)) == [Toast(Error, Classify(f).message)]
  {
  }

  /** `handleError`: the nested loops over fields and their messages. */
  method HandleError(fx: EffectLog, e: ApiError)
    modifies fx
    ensures fx.log == old(fx.log) + ErrorToasts(e)
  {
    if HasFieldErrors(e) {
      var errors := e.errors.value;
      ghost var start := fx.log;
      var i := 0;
      while i < |errors|
        invariant 0 <= i <= |errors|
        invariant fx.log == start + FieldToasts(errors[..i])
      {
        var field, messages := errors[i].0, errors[i].1;
        var j := 0;
        while j < |messages|
          invariant 0 <= j <= |messages|
          invariant fx.log == start + FieldToasts(errors[..i]) + MessageToasts(field, messages[..j])
        {
          fx.Push(FieldToast(field, messages[j]));
          assert MessageToasts(field, messages[..j + 1]) == MessageToasts(field, messages[..j]) + [FieldToast(field, messages[j])];
          j := j + 1;
        }
        assert messages[..j] == messages;
        assert errors[..i + 1][..i] == errors[..i];
        i := i + 1;
      }
      assert errors[..i] == errors;
    } else {
      fx.Push(Toast(Error, e.message));
    }
  }

  method HandleSuccess(fx: EffectLog, message: string)
    modifies fx
    ensures fx.log == old(fx.log) + [Toast(Success, message)]
  {
    fx.Push(Toast(Success, message));
  }

  method HandleInfo(fx: EffectLog, message: string)
    modifies fx
    ensures fx.log == old(fx.log) + [Toast(Info, message)]
  {
    fx.Push(Toast(Info, message));
  }

  method HandleWarning(fx: EffectLog, message: string)
    modifies fx
    ensures fx.log == old(fx.log) + [Toast(Warning, message)]
  {
    fx.Push(Toast(Warning, message));
  }
}
