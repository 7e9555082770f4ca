/**
  The tracing span as the middleware uses it: an append-only log of what was
  done to it, and whether it has been finished.  The tracer behind it
  (context extraction, span creation, export) is not part of this model;
  starting a span is one `Started` event.
*/
module Tracing {
  import opened Wrappers
  import opened Options

  /** Tag values of the kinds the middleware records.  `Bytes` is a string
      converted from a byte slice, which keeps the bytes verbatim. */
  datatype TagValue = Text(s: string) | Flag(b: bool) | Bytes(raw: seq<byte>) | Uint16(code: nat)

  datatype Event =
    | Started(operationName: string)
    | Tagged(key: string, value: TagValue)
    | Observed(observer: Observer)
    | Finished

  /**
    A well-formed span log: it opens with the one `Started` event, and a
    `Finished` event can only be the last one, present exactly when the span
    is finished.  So nothing is recorded after `Finished`.
  */
  ghost predicate Lifecycle(events: seq<Event>, finished: bool)
  {
    && |events| > 0
    && events[0].Started?
    && (forall i :: 0 < i < |events| ==> !events[i].Started?)
    && (forall i :: 0 <= i < |events| - 1 ==> !events[i].Finished?)
    && (finished <==> events[|events| - 1].Finished?)
  }

  class Span {
    var events: seq<Event>
    var finished: bool

    ghost predicate Valid()
      reads this
    {
      Lifecycle(events, finished)
    }

    /** StartSpan: a fresh, unfinished span with the given operation name. */
    constructor (operationName: string)
      ensures Valid() && !finished
      ensures events == [Started(operationName)]
    {
      events := [Started(operationName)];
      finished := false;
    }

    method SetTag(key: string, value: TagValue)
      requires Valid() && !finished
      modifies this
      ensures Valid() && !finished
      ensures events == old(events) + [Tagged(key, value)]
    {
      events := events + [Tagged(key, value)];
    }

    /** Hands the span to the configured observer. */
    method Observe(observer: Observer)
      requires Valid() && !finished
      modifies this
      ensures Valid() && !finished
      ensures events == old(events) + [Observed(observer)]
    {
      events := events + [Observed(observer)];
    }

    method Finish()
      requires Valid() && !finished
      modifies this
      ensures Valid() && finished
      ensures events == old(events) + [Finished]
    {
      events := events + [Finished];
      finished := true;
    }
  }
}
