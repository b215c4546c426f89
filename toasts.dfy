/**
 * The toast queue (`useToast`): a list of notices that `addToast` appends to and
 * `removeToast` filters. The generated id is a parameter.
 */
module Toasts {
  import opened Wrappers
  import Seqs

  datatype ToastType = Success | Error | Info

  datatype Toast = Toast(id: string, message: string, kind: ToastType)

  /** `t => t.id !== id` */
  function KeepOthers(id: string): Toast -> bool
  {
    (t: Toast) => t.id != id
  }

  /** The list after `removeToast(id)`: every toast with another id, in order. */
  function Without(toasts: seq<Toast>, id: string): seq<Toast>
  {
    Seqs.Filter(KeepOthers(id), toasts)
  }

  predicate HasId(toasts: seq<Toast>, id: string)
  {
    exists i :: 0 <= i < |toasts| && toasts[i].id == id
  }

  class ToastQueue {
    var toasts: seq<Toast>

    constructor ()
      ensures toasts == []
    {
      toasts := [];
    }

    /** `addToast(message, type = 'success')` with the generated `id`. */
    method AddToast(message: string, kind: Option<ToastType>, id: string)
      modifies this
      ensures toasts == old(toasts) + [Toast(id, message, kind.GetOr(Success))]
    {
      toasts := toasts + [Toast(id, message, kind.GetOr(Success))];
    }

    /** `removeToast(id)` */
    method RemoveToast(id: string)
      modifies this
      ensures toasts == Without(old(toasts), id)
    {
      toasts := Without(toasts, id);
    }
  }

  /**
   * Removing drops every toast with that id and keeps every other toast, in order:
   * removing from a concatenation removes from each part.
   */
  lemma WithoutSpec(toasts: seq<Toast>, more: seq<Toast>, id: string)
    ensures !HasId(Without(toasts, id), id)
    ensures forall i :: 0 <= i < |toasts| && toasts[i].id != id ==> toasts[i] in Without(toasts, id)
    ensures Without(toasts + more, id) == Without(toasts, id) + Without(more, id)
  {
    Seqs.FilterAppend(KeepOthers(id), toasts, more);
  }

  /** Removing an id nobody has changes nothing, and removing twice is removing once. */
  lemma WithoutAbsent(toasts: seq<Toast>, id: string)
    ensures !HasId(toasts, id) <==> Without(toasts, id) == toasts
    ensures Without(Without(toasts, id), id) == Without(toasts, id)
  {
    Seqs.FilterKeepsAll(KeepOthers(id), toasts);
    Seqs.FilterIdempotent(KeepOthers(id), toasts);
  }

  /** A toast added under a fresh id and then removed leaves the list as it was. */
  lemma AddThenRemove(toasts: seq<Toast>, id: string, message: string, kind: ToastType)
    requires !HasId(toasts, id)
    ensures Without(toasts + [Toast(id, message, kind)], id) == toasts
  {
    WithoutSpec(toasts, [Toast(id, message, kind)], id);
    WithoutAbsent(toasts, id);
  }
}
