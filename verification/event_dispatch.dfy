/** The event dispatch as it stands: an in-memory queue that only grows. */
module EventDispatch {
  import opened Base
  import opened Events

  datatype EventDispatch = EventDispatch(entries: seq<Event>)

  datatype Submitted = Submitted(result: Result<()>, dispatch: EventDispatch)

  /** A dispatch that has not seen any event yet. */
  function Ephemeral(): (d: EventDispatch)
    ensures |d.entries| == 0
  {
    EventDispatch([])
  }

  /** `push_back`: the event becomes the newest entry; every earlier entry
      stays where it was; the call never fails. */
  function SubmitEvent(d: EventDispatch, e: Event): (s: Submitted)
    ensures s.result.Ok?
    ensures |s.dispatch.entries| == |d.entries| + 1
    ensures s.dispatch.entries[..|d.entries|] == d.entries
    ensures s.dispatch.entries[|d.entries|] == e
  {
    Submitted(Ok(()), EventDispatch(d.entries + [e]))
  }

  /** Submitting events one after another keeps them in submission order. */
  lemma SubmitPreservesOrder(d: EventDispatch, e1: Event, e2: Event)
    ensures SubmitEvent(SubmitEvent(d, e1).dispatch, e2).dispatch.entries == d.entries + [e1, e2]
  {
  }
}
