/**
 * The client's `toast` slice: the queue of notifications on screen. The
 * new toast's id (from the clock and a random number) and its timestamp are
 * parameters.
 */
module ToastSlice {
  import opened Wrappers

  /** The `{ type, title, message, duration }` payload of addToast; a missing duration is None. */
  datatype ToastRequest = ToastRequest(kind: string, title: string, message: string, duration: Option<int>)

  datatype Toast = Toast(id: int, kind: string, title: string, message: string, duration: int, timestamp: int)

  /** `duration || 5000`: a missing or zero duration gives 5000 ms. */
  function DurationOr(duration: Option<int>): (d: int)
    ensures d != 0
    ensures duration.Some? && duration.value != 0 ==> d == duration.value
    ensures duration.None? || duration.value == 0 ==> d == 5000
  {
    match duration
    case Some(n) => if n == 0 then 5000 else n
    case None => 5000
  }

  /** The toast addToast builds from a request. */
  function MakeToast(request: ToastRequest, id: int, now: int): (t: Toast)
    ensures t.kind == request.kind && t.title == request.title && t.message == request.message
    ensures t.duration == DurationOr(request.duration) && t.id == id && t.timestamp == now
  {
    Toast(id, request.kind, request.title, request.message, DurationOr(request.duration), now)
  }

  /** `filter(toast => toast.id !== id)`. */
  function RemoveToastId(s: seq<Toast>, id: int): (r: seq<Toast>)
    ensures |r| <= |s|
    ensures forall t :: t in r <==> t in s && t.id != id
  {
    if s == [] then []
    else (if s[0].id != id then [s[0]] else []) + RemoveToastId(s[1..], id)
  }

  /** Removal keeps the others in order: it distributes over concatenation. */
  lemma {:induction false} RemoveToastIdConcat(a: seq<Toast>, b: seq<Toast>, id: int)
    ensures RemoveToastId(a + b, id) == RemoveToastId(a, id) + RemoveToastId(b, id)
  {
    if a == [] {
      assert a + b == b;
    } else {
      assert (a + b)[1..] == a[1..] + b;
      RemoveToastIdConcat(a[1..], b, id);
    }
  }

  /** A toast added and then removed by its id leaves the queue as it was, if the id was new. */
  lemma AddThenRemove(s: seq<Toast>, t: Toast)
    requires forall x :: x in s ==> x.id != t.id
    ensures RemoveToastId(s + [t], t.id) == s
  {
    RemoveToastIdConcat(s, [t], t.id);
    RemoveToastIdAbsent(s, t.id);
  }

  lemma {:induction false} RemoveToastIdAbsent(s: seq<Toast>, id: int)
    requires forall x :: x in s ==> x.id != id
    ensures RemoveToastId(s, id) == s
  {
    if s != [] {
      RemoveToastIdAbsent(s[1..], id);
      assert s == [s[0]] + s[1..];
    }
  }

  class ToastQueue {
    var toasts: seq<Toast>

    /** `initialState`. */
    constructor ()
      ensures toasts == []
    {
      toasts := [];
    }

    /** `addToast`: appends one toast built from the request. */
    method AddToast(request: ToastRequest, id: int, now: int)
      modifies this
      ensures toasts == old(toasts) + [MakeToast(request, id, now)]
    {
      var toast := MakeToast(request, id, now);
      toasts := toasts + [toast];
    }

    /** `removeToast`: drops every toast with the id. */
    method RemoveToast(id: int)
      modifies this
      ensures toasts == RemoveToastId(old(toasts), id)
    {
      toasts := RemoveToastId(toasts, id);
    }

    /** `clearAllToasts`. */
    method ClearAllToasts()
      modifies this
      ensures toasts == []
    {
      toasts := [];
    }

    /** `showSuccessToast`: addToast with type "success". */
    method ShowSuccessToast(title: string, message: string, duration: Option<int>, id: int, now: int)
      modifies this
      ensures toasts == old(toasts) + [MakeToast(ToastRequest("success", title, message, duration), id, now)]
    {
      AddToast(ToastRequest("success", title, message, duration), id, now);
    }

    /** `showErrorToast`: addToast with type "error". */
    method ShowErrorToast(title: string, message: string, duration: Option<int>, id: int, now: int)
      modifies this
      ensures toasts == old(toasts) + [MakeToast(ToastRequest("error", title, message, duration), id, now)]
    {
      AddToast(ToastRequest("error", title, message, duration), id, now);
    }

    /** `showInfoToast`: addToast with type "info". */
    method ShowInfoToast(title: string, message: string, duration: Option<int>, id: int, now: int)
      modifies this
      ensures toasts == old(toasts) + [MakeToast(ToastRequest("info", title, message, duration), id, now)]
    {
      AddToast(ToastRequest("info", title, message, duration), id, now);
    }

    /** `showWarningToast`: addToast with type "warning". */
    method ShowWarningToast(title: string, message: string, duration: Option<int>, id: int, now: int)
      modifies this
      ensures toasts == old(toasts) + [MakeToast(ToastRequest("warning", title, message, duration), id, now)]
    {
      AddToast(ToastRequest("warning", title, message, duration), id, now);
    }
  }
}
