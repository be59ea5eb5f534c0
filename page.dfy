/** The page-level helpers of frontend/js/main.js that other code calls: toast notifications
    and the loading overlay. The DOM is reduced to what callers can observe: the sequence of
    notifications and loader actions, and how many overlays are in the document. */
module Page {

  /** The `type` argument of `showToast`. */
  datatype ToastKind = Info | Success | Error

  datatype UiEvent =
    | Toasted(message: string, kind: ToastKind)
    | LoaderShown
    | LoaderHidden

  /** The overlay count after `hideLoader`: it removes one overlay when there is one. */
  function AfterHide(overlays: nat): nat
  {
    if overlays > 0 then overlays - 1 else 0
  }

  /** The overlay count after a sequence of events, starting from `overlays`. */
  function Overlays(overlays: nat, events: seq<UiEvent>): nat
  {
    if events == [] then overlays
    else
      var before := Overlays(overlays, events[..|events| - 1]);
      match events[|events| - 1]
      case LoaderShown => before + 1
      case LoaderHidden => AfterHide(before)
      case Toasted(_, _) => before
  }

  /** Number of occurrences of `e` in `events`. */
  function Occurrences(events: seq<UiEvent>, e: UiEvent): nat
  {
    if events == [] then 0
    else Occurrences(events[..|events| - 1], e) + (if events[|events| - 1] == e then 1 else 0)
  }

  /** Number of toasts in `events`. */
  function ToastCount(events: seq<UiEvent>): nat
  {
    if events == [] then 0
    else ToastCount(events[..|events| - 1]) + (if events[|events| - 1].Toasted? then 1 else 0)
  }

  /** How each count changes when one more event is recorded. */
  lemma CountsAppend(events: seq<UiEvent>, x: UiEvent, overlays: nat)
    ensures Occurrences(events + [x], LoaderShown) ==
            Occurrences(events, LoaderShown) + (if x == LoaderShown then 1 else 0)
    ensures Occurrences(events + [x], LoaderHidden) ==
            Occurrences(events, LoaderHidden) + (if x == LoaderHidden then 1 else 0)
    ensures ToastCount(events + [x]) == ToastCount(events) + (if x.Toasted? then 1 else 0)
    ensures Overlays(overlays, events + [x]) ==
            match x
            case LoaderShown => Overlays(overlays, events) + 1
            case LoaderHidden => AfterHide(Overlays(overlays, events))
            case Toasted(_, _) => Overlays(overlays, events)
  {
    assert (events + [x])[..|events|] == events;
  }

  class Page {
    /** Number of `.loader-overlay` elements in the document. */
    var overlays: nat
    /** Every notification and loader action, oldest first. */
    var events: seq<UiEvent>

    constructor ()
      ensures overlays == 0 && events == []
    {
      overlays := 0;
      events := [];
    }

    /** `showToast(message, type)`. */
    method ShowToast(message: string, kind: ToastKind)
      modifies this
      ensures events == old(events) + [Toasted(message, kind)]
      ensures overlays == old(overlays)
    {
      events := events + [Toasted(message, kind)];
    }

    /** `showLoader()`: appends one overlay. */
    method ShowLoader()
      modifies this
      ensures events == old(events) + [LoaderShown]
      ensures overlays == old(overlays) + 1
    {
      events := events + [LoaderShown];
      overlays := overlays + 1;
    }

    /** `hideLoader()`: removes the first overlay, if any. */
    method HideLoader()
      modifies this
      ensures events == old(events) + [LoaderHidden]
      ensures overlays == AfterHide(old(overlays))
    {
      events := events + [LoaderHidden];
      if overlays > 0 {
        overlays := overlays - 1;
      }
    }
  }
}
