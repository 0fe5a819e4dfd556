/** The toast hook: the list of notifications on screen, a new toast
    appended under a random id, the handle that dismisses or updates it,
    and the hook's own dismiss. The module-level `toast` touches no list. */
module Toasts {
  import opened Wrappers
  import opened Lists

  datatype Variant = Default | Destructive

  /** A notification; its `action` node is not modelled. */
  datatype Toast = Toast(id: string, title: Option<string>, description: Option<string>,
                         variant: Option<Variant>)

  /** The changes `update` spreads over a toast: `None` for a key the
      argument leaves out, `Some(v)` for one it gives (possibly as
      `undefined`, which is `Some(None)`). */
  datatype Patch = Patch(title: Option<Option<string>>, description: Option<Option<string>>,
                         variant: Option<Option<Variant>>)

  /** `{...toast, ...props}`. */
  function Patched(t: Toast, p: Patch): (r: Toast)
    ensures r.id == t.id
    ensures r.title == (if p.title.Some? then p.title.value else t.title)
    ensures r.description == (if p.description.Some? then p.description.value else t.description)
    ensures r.variant == (if p.variant.Some? then p.variant.value else t.variant)
  {
    Toast(t.id,
          if p.title.Some? then p.title.value else t.title,
          if p.description.Some? then p.description.value else t.description,
          if p.variant.Some? then p.variant.value else t.variant)
  }

  predicate HasOtherId(id: string, t: Toast) { t.id != id }

  function OtherThan(id: string): Toast -> bool {
    (t: Toast) => HasOtherId(id, t)
  }

  function WithId(id: string): Toast -> bool {
    (t: Toast) => t.id == id
  }

  /** `filter(toast => toast.id !== id)`: the toasts with any other id, in
      their order. */
  function Without(toasts: seq<Toast>, id: string): (r: seq<Toast>)
    ensures IsSubsequence(r, toasts)
    ensures forall k :: 0 <= k < |r| ==> r[k].id != id
    ensures |r| == |toasts| - Count(toasts, WithId(id))
  {
    var r := Filter(toasts, OtherThan(id));
    FilterLength(toasts, OtherThan(id));
    WithoutCount(toasts, id);
    r
  }

  lemma {:induction false} WithoutCount(toasts: seq<Toast>, id: string)
    ensures Count(toasts, OtherThan(id)) == |toasts| - Count(toasts, WithId(id))
  {
    if |toasts| > 0 {
      WithoutCount(toasts[1..], id);
    }
  }

  /** `map(toast => toast.id === id ? {...toast, ...props} : toast)`. */
  function Updated(toasts: seq<Toast>, id: string, p: Patch): (r: seq<Toast>)
    ensures |r| == |toasts|
    ensures forall k :: 0 <= k < |r| ==> r[k].id == toasts[k].id
    ensures forall k :: 0 <= k < |r| ==> r[k] == if toasts[k].id == id then Patched(toasts[k], p) else toasts[k]
  {
    seq(|toasts|, k requires 0 <= k < |toasts| =>
      if toasts[k].id == id then Patched(toasts[k], p) else toasts[k])
  }

  predicate IdUnused(toasts: seq<Toast>, id: string) {
    forall k :: 0 <= k < |toasts| ==> toasts[k].id != id
  }

  /** Dismissing a toast that was just added under an unused id gives the
      list back as it was. */
  lemma AddThenDismiss(toasts: seq<Toast>, t: Toast)
    requires IdUnused(toasts, t.id)
    ensures Without(toasts + [t], t.id) == toasts
  {
    FilterSnoc(toasts, t, OtherThan(t.id));
    FilterAll(toasts, OtherThan(t.id));
  }

  /** A second dismiss of the same id changes nothing. */
  lemma DismissIdempotent(toasts: seq<Toast>, id: string)
    ensures Without(Without(toasts, id), id) == Without(toasts, id)
  {
    FilterAll(Without(toasts, id), OtherThan(id));
  }

  /** Updating an id no toast carries changes nothing. */
  lemma UpdateUnusedId(toasts: seq<Toast>, id: string, p: Patch)
    requires IdUnused(toasts, id)
    ensures Updated(toasts, id, p) == toasts
  {
  }

  /** What `toast` returns: its id and the two closures, which are bound to
      a hook's list (`bound`) or, for the module-level `toast`, do nothing. */
  datatype Handle = Handle(id: string, bound: bool)

  /** The handle's `dismiss` applied to the hook's list. */
  function HandleDismiss(h: Handle, toasts: seq<Toast>): (r: seq<Toast>)
    ensures !h.bound ==> r == toasts
    ensures h.bound ==> r == Without(toasts, h.id)
  {
    if h.bound then Without(toasts, h.id) else toasts
  }

  /** The handle's `update` applied to the hook's list. */
  function HandleUpdate(h: Handle, toasts: seq<Toast>, p: Patch): (r: seq<Toast>)
    ensures !h.bound ==> r == toasts
    ensures h.bound ==> r == Updated(toasts, h.id, p)
  {
    if h.bound then Updated(toasts, h.id, p) else toasts
  }

  /** The module-level `toast`: only a log line and a handle that does
      nothing; `id` is its random id. */
  function DirectToast(id: string): (h: Handle)
    ensures h.id == id && !h.bound
    ensures forall toasts :: HandleDismiss(h, toasts) == toasts
  {
    Handle(id, false)
  }

  /** The hook's list of toasts. */
  class ToastList {
    var toasts: seq<Toast>

    constructor ()
      ensures toasts == []
    {
      toasts := [];
    }

    /** `toast(props)` with the random `id` it draws: exactly one toast is
        appended, with the variant "default" unless one is given. */
    method AddToast(id: string, title: Option<string>, description: Option<string>, variant: Option<Variant>)
      returns (h: Handle)
      modifies this
      ensures toasts == old(toasts) + [Toast(id, title, description, Some(variant.GetOr(Default)))]
      ensures h == Handle(id, true)
    {
      toasts := toasts + [Toast(id, title, description, Some(variant.GetOr(Default)))];
      h := Handle(id, true);
    }

    /** The handle's `dismiss`, and the five-second timer `toast` starts. */
    method DismissById(id: string)
      modifies this
      ensures toasts == Without(old(toasts), id)
    {
      toasts := Without(toasts, id);
    }

    /** The handle's `update`. */
    method Update(id: string, p: Patch)
      modifies this
      ensures toasts == Updated(old(toasts), id, p)
    {
      toasts := Updated(toasts, id, p);
    }

    /** The hook's `dismiss(toastId?)`: a missing or empty id clears the
        list, any other id removes the toasts with that id. */
    method Dismiss(toastId: Option<string>)
      modifies this
      ensures toastId.None? || toastId.value == "" ==> toasts == []
      ensures toastId.Some? && toastId.value != "" ==> toasts == Without(old(toasts), toastId.value)
    {
      if toastId.Some? && toastId.value != "" {
        toasts := Without(toasts, toastId.value);
      } else {
        toasts := [];
      }
    }
  }
}
