/** Lifecycle events: queued without limit, sent in order, drained by a sentinel. */
module EventQueue {
  import opened Wrappers

  /** `pending` ends with `None`, the sentinel, once the publisher has been told to close. */
  datatype Publisher<T> = Publisher(pending: seq<Option<T>>, sent: seq<T>, done: bool) {
    /** Everything ever offered and not lost: sent, or still to be sent. */
    function All(): seq<T> {
      sent + Unsent(pending)
    }
  }

  /** The events in a queue, in front of its sentinel. */
  function Unsent<T>(pending: seq<Option<T>>): seq<T> {
    if pending == [] || pending[0].None? then [] else [pending[0].value] + Unsent(pending[1..])
  }

  function Publish<T>(p: Publisher<T>, event: T): Publisher<T> {
    p.(pending := p.pending + [Some(event)])
  }

  function Close<T>(p: Publisher<T>): Publisher<T> {
    p.(pending := p.pending + [None])
  }

  /** One turn of the publishing loop. */
  function Pump<T>(p: Publisher<T>): Publisher<T>
    requires !p.done && p.pending != []
  {
    match p.pending[0]
    case Some(event) => p.(pending := p.pending[1..], sent := p.sent + [event])
    case None => p.(pending := p.pending[1..], done := true)
  }

  ghost predicate Open<T>(p: Publisher<T>) {
    !p.done && forall e | e in p.pending :: e.Some?
  }

  /** Told to close: the sentinel is the last entry, or has been read. */
  ghost predicate Closing<T>(p: Publisher<T>) {
    if p.done then p.pending == []
    else
      && p.pending != []
      && p.pending[|p.pending| - 1].None?
      && forall e | e in DropLast(p.pending) :: e.Some?
  }

  lemma {:induction false} UnsentAppend<T>(pending: seq<Option<T>>, last: Option<T>)
    requires forall e | e in pending :: e.Some?
    ensures Unsent(pending + [last]) == Unsent(pending) + (if last.Some? then [last.value] else [])
  {
    if pending == [] {
      assert pending + [last] == [last] && [last][1..] == [];
    } else {
      assert pending[0] in pending && (pending + [last])[1..] == pending[1..] + [last];
      UnsentAppend(pending[1..], last);
    }
  }

  /** An open publisher takes every event, behind all earlier ones. */
  lemma PublishKeepsOrder<T>(p: Publisher<T>, event: T)
    requires Open(p)
    ensures Open(Publish(p, event)) && Publish(p, event).All() == p.All() + [event]
  {
    UnsentAppend(p.pending, Some(event));
  }

  lemma CloseLosesNothing<T>(p: Publisher<T>)
    requires Open(p)
    ensures Closing(Close(p)) && Close(p).All() == p.All()
  {
    UnsentAppend(p.pending, None);
    assert DropLast(Close(p).pending) == p.pending;
  }

  /** Sending moves the front event over; nothing is lost, repeated or reordered. */
  lemma PumpLosesNothing<T>(p: Publisher<T>)
    requires !p.done && p.pending != [] && (Open(p) || Closing(p))
    ensures Pump(p).All() == p.All()
    ensures p.sent <= Pump(p).sent
    ensures Open(p) ==> Open(Pump(p))
    ensures Closing(p) ==> Closing(Pump(p))
  {
    assert p.pending[0] in p.pending;
    var front := DropLast(p.pending);
    assert front != [] ==> front[0] == p.pending[0] && front[0] in front;
    if p.pending[0].Some? {
      assert |p.pending| > 1 ==> DropLast(p.pending[1..]) == front[1..];
    } else {
      assert p.pending == [None];
    }
  }

  /** A publisher that has stopped has sent everything. */
  lemma StoppedHasSentAll<T>(p: Publisher<T>)
    requires p.done && Closing(p)
    ensures p.sent == p.All()
  {
  }

  // ---- The object ----

  class EventsPublisher<T> {
    var pending: seq<Option<T>>
    var sent: seq<T>
    var done: bool

    ghost function View(): Publisher<T>
      reads this
    {
      Publisher(pending, sent, done)
    }

    constructor ()
      ensures View() == Publisher([], [], false) && Open(View())
    {
      pending, sent, done := [], [], false;
    }

    method PublishEvent(event: T)
      modifies this
      ensures View() == Publish(old(View()), event)
    {
      pending := pending + [Some(event)];
    }

    /** The publishing loop, run to the end: what `close` waits for. */
    method PublishLoop()
      requires Closing(View()) && !done
      modifies this
      ensures done && Closing(View()) && sent == old(View().All())
    {
      while !done
        invariant Closing(View()) && View().All() == old(View().All())
        decreases |pending|, !done
      {
        PumpLosesNothing(View());
        ghost var next := Pump(View());
        var envelope := pending[0];
        pending := pending[1..];
        if envelope.None? {
          done := true;
        } else {
          sent := sent + [envelope.value];
        }
        assert View() == next;
      }
      StoppedHasSentAll(View());
    }

    /** Every event queued before closing has been sent when `close` returns. */
    method CloseAndWait()
      requires Open(View())
      modifies this
      ensures done && sent == old(View().All())
    {
      CloseLosesNothing(View());
      pending := pending + [None];
      PublishLoop();
    }
  }
}
