/** The stream segments a turn delivery publishes, for any events and any failures to publish. */
module StreamTrace {
  import opened Wrappers

  datatype Event = Delta(content: string) | End(mergeNext: bool) | RetryStatus(exhausted: bool, attempt: nat) | Other

  /** A stream event as published: the segment is the changing part of its stream id. */
  datatype Published = Published(event: Event, segment: nat)

  /** `trace` holds the stream events that were published. */
  datatype Stream = Stream(open: bool, segment: nat, retry: Option<Event>, trace: seq<Published>)

  const FRESH := Stream(false, 0, None, [])

  predicate IsStream(e: Event) {
    e.Delta? || e.End?
  }

  predicate IsFinal(p: Published) {
    p.event.End? && !p.event.mergeNext
  }

  /** `_publish_event` on a streaming turn; if publishing raises, what comes behind it does not happen. */
  function Publish(s: Stream, e: Event, raises: bool): Stream {
    var s := if e.RetryStatus? then s.(retry := if e.exhausted then Some(e) else None) else s;
    if raises || !IsStream(e) then s
    else
      var trace := s.trace + [Published(e, s.segment)];
      if e.Delta? then s.(open := true, trace := trace)
      else s.(open := e.mergeNext, segment := if e.mergeNext then s.segment else s.segment + 1, trace := trace)
  }

  function Abort(s: Stream, raises: bool): Stream {
    if s.open then Publish(s, End(false), raises) else s
  }

  datatype Call = PublishCall(event: Event, raises: bool) | AbortCall(raises: bool)

  function Run(calls: seq<Call>): Stream {
    if calls == [] then FRESH
    else
      var before, call := Run(calls[..|calls| - 1]), calls[|calls| - 1];
      if call.PublishCall? then Publish(before, call.event, call.raises) else Abort(before, call.raises)
  }

  // ----- well-formed traces ---------------------------------------------------------------------

  /** Segments never decrease, and nothing of a segment follows its final end. */
  ghost predicate Ordered(trace: seq<Published>) {
    forall i, j :: 0 <= i < j < |trace| ==>
      trace[i].segment <= trace[j].segment && (IsFinal(trace[i]) ==> trace[i].segment < trace[j].segment)
  }

  /** Something of the segment was published. */
  ghost predicate Started(trace: seq<Published>, segment: nat) {
    exists i :: 0 <= i < |trace| && trace[i].segment == segment
  }

  ghost predicate Ended(trace: seq<Published>, segment: nat) {
    exists i :: 0 <= i < |trace| && trace[i].segment == segment && IsFinal(trace[i])
  }

  ghost predicate StreamOk(s: Stream) {
    && Ordered(s.trace)
    && (forall i :: 0 <= i < |s.trace| ==> s.trace[i].segment <= s.segment)
    && (forall k: nat :: k < s.segment ==> Ended(s.trace, k))
    && !Ended(s.trace, s.segment)
    && (s.open <==> Started(s.trace, s.segment))
  }

  lemma MorePublished(trace: seq<Published>, p: Published, k: nat)
    ensures Started(trace + [p], k) <==> Started(trace, k) || p.segment == k
    ensures Ended(trace + [p], k) <==> Ended(trace, k) || (p.segment == k && IsFinal(p))
  {
    var after := trace + [p];
    assert after[|trace|] == p;
    assert forall i :: 0 <= i < |trace| ==> after[i] == trace[i];
  }

  lemma PublishKeeps(s: Stream, e: Event, raises: bool)
    requires StreamOk(s)
    ensures StreamOk(Publish(s, e, raises))
  {
    hide Started, Ended;
    if !raises && IsStream(e) {
      forall k: nat
        ensures Started(s.trace + [Published(e, s.segment)], k) <==> Started(s.trace, k) || s.segment == k
        ensures Ended(s.trace + [Published(e, s.segment)], k) <==>
                  Ended(s.trace, k) || (s.segment == k && IsFinal(Published(e, s.segment)))
      {
        MorePublished(s.trace, Published(e, s.segment), k);
      }
      NoFinalYet(s.trace, s.segment);
      if Publish(s, e, raises).segment > s.segment { NothingBeyond(s.trace, s.segment); }
    }
  }

  lemma NoFinalYet(trace: seq<Published>, segment: nat)
    requires !Ended(trace, segment)
    ensures forall i :: 0 <= i < |trace| && trace[i].segment == segment ==> !IsFinal(trace[i])
  {
  }

  lemma NothingBeyond(trace: seq<Published>, segment: nat)
    requires forall i :: 0 <= i < |trace| ==> trace[i].segment <= segment
    ensures !Started(trace, segment + 1) && !Ended(trace, segment + 1)
  {
  }

  /** Whatever is published and aborted in whatever order, the trace is well-formed, and open says what it means to. */
  lemma {:induction false} EveryTraceIsWellFormed(calls: seq<Call>)
    ensures StreamOk(Run(calls))
  {
    hide StreamOk;
    if calls == [] {
      FreshIsOk();
    } else {
      var call := calls[|calls| - 1];
      EveryTraceIsWellFormed(calls[..|calls| - 1]);
      PublishKeeps(Run(calls[..|calls| - 1]), if call.PublishCall? then call.event else End(false), call.raises);
    }
  }

  lemma FreshIsOk()
    ensures StreamOk(FRESH)
  {
  }

  lemma AbortedIsClosed(s: Stream)
    requires StreamOk(s)
    ensures var after := Abort(s, false);
            && StreamOk(after) && !after.open
            && forall k: nat :: Started(after.trace, k) <==> Ended(after.trace, k)
  {
    var after := Abort(s, false);
    PublishKeeps(s, End(false), false);
    assert StreamOk(after) && !after.open;
    forall k: nat ensures Started(after.trace, k) <==> Ended(after.trace, k) {
      if Started(after.trace, k) {
        var i :| 0 <= i < |after.trace| && after.trace[i].segment == k;
        assert k <= after.segment;
      }
    }
  }

  /** An abort publishes nothing on a closed stream and one final end on an open one; then no segment is open. */
  lemma AbortClosesEverything(calls: seq<Call>)
    ensures var (s, after) := (Run(calls), Abort(Run(calls), false));
            && after.trace == s.trace + (if Started(s.trace, s.segment) then [Published(End(false), s.segment)] else [])
            && !after.open
            && forall k: nat :: Started(after.trace, k) ==> Ended(after.trace, k)
  {
    var s, after := Run(calls), Abort(Run(calls), false);
    EveryTraceIsWellFormed(calls);
    AbortedIsClosed(s);
    hide Started, Ended;
  }

  // ----- the delivery object -----------------------------------------------------------------------

  class TurnDelivery {
    const streaming: bool
    var open: bool
    var segment: nat
    var retry: Option<Event>
    ghost var trace: seq<Published>

    constructor (streaming: bool)
      ensures State() == FRESH && this.streaming == streaming && Valid() && StreamOk(State())
    {
      open, segment, retry, trace := false, 0, None, [];
      this.streaming := streaming;
      FreshIsOk();
    }

    /** Only a streaming turn opens a segment. */
    predicate Valid()
      reads this
    {
      open ==> streaming
    }

    ghost function State(): Stream
      reads this
    {
      Stream(open, segment, retry, trace)
    }

    /**
     Without a stream base id, stream events are swallowed. A trace that is well-formed stays so: the event goes to the
     current segment, and `open` still means that this segment has output and no final end.
     */
    method PublishEvent(e: Event, raises: bool)
      requires Valid()
      modifies this
      ensures Valid()
      ensures State() == if streaming || !IsStream(e) then Publish(old(State()), e, raises) else old(State())
      ensures old(StreamOk(State())) ==>
                && StreamOk(State())
                && (trace == old(trace) || trace == old(trace) + [Published(e, old(segment))])
                && (trace != old(trace) <==> streaming && IsStream(e) && !raises)
      // A retry status is remembered while retries are exhausted; a delta opens its segment, a final end closes it.
      ensures retry == if e.RetryStatus? then (if e.exhausted then Some(e) else None) else old(retry)
      ensures trace != old(trace) ==>
                && (open <==> e.Delta? || e.mergeNext)
                && segment == old(segment) + if e == End(false) then 1 else 0
      ensures trace == old(trace) ==> open == old(open) && segment == old(segment)
    {
      ghost var before := State();
      if StreamOk(before) { PublishKeeps(before, e, raises); }
      hide StreamOk;
      if e.RetryStatus? {
        retry := if e.exhausted then Some(e) else None;
      }
      if IsStream(e) {
        if !streaming {
          return;
        }
        if !raises {
          trace := trace + [Published(e, segment)];
        }
      }
      if raises {
        return;
      }
      if e.Delta? {
        open := true;
      } else if e.End? {
        open := e.mergeNext;
        if !e.mergeNext {
          segment := segment + 1;
        }
      }
    }

    /** Unless publishing raises, every segment that has output then has its final end, and gets no second one. */
    method AbortStream(raises: bool)
      requires Valid()
      modifies this
      ensures Valid() && State() == Abort(old(State()), raises)
      ensures trace == old(trace) + if old(open) && !raises then [Published(End(false), old(segment))] else []
      ensures retry == old(retry) && (raises ==> open == old(open) && segment == old(segment))
      ensures old(StreamOk(State())) ==> StreamOk(State())
      ensures old(StreamOk(State())) && !raises ==>
                !open && (forall k: nat :: Started(trace, k) <==> Ended(trace, k)) && |trace| <= |old(trace)| + 1
    {
      ghost var before := State();
      if StreamOk(before) && !raises { AbortedIsClosed(before); }
      hide StreamOk, Started, Ended;
      if open {
        PublishEvent(End(false), raises);
      }
    }
  }
}
