/** Which topics clients listen to, as the publishing socket reports it. */
module Subscriptions {
  import opened Wrappers

  type Bytes = seq<nat>

  /** A first byte of one subscribes to the rest, zero unsubscribes; anything else is not about subscriptions. */
  function Announce(subscribe: bool, prefix: Bytes): Bytes {
    [if subscribe then 1 else 0] + prefix
  }

  predicate IsNotification(message: Bytes) {
    message != [] && (message[0] == 0 || message[0] == 1)
  }

  /** One turn of the subscription loop. */
  function Handle(topic: Bytes, filters: set<Bytes>, message: Bytes): set<Bytes> {
    if !IsNotification(message) || !(message[1..] <= topic) then filters
    else if message[0] == 1 then filters + {message[1..]}
    else filters - {message[1..]}
  }

  function HandleAll(topic: Bytes, filters: set<Bytes>, messages: seq<Bytes>): set<Bytes>
    decreases |messages|
  {
    if messages == [] then filters else HandleAll(topic, Handle(topic, filters, messages[0]), messages[1..])
  }

  /** The filters of all connected clients, the notifications under way, and the set kept by the publisher. */
  datatype Network = Network(clients: multiset<Bytes>, pending: seq<Bytes>, filters: set<Bytes>)

  datatype Change = Subscribe(prefix: Bytes) | Unsubscribe(prefix: Bytes) | Noise(message: Bytes) | Receive

  predicate Possible(n: Network, change: Change) {
    match change
    case Subscribe(_) => true
    case Unsubscribe(prefix) => prefix in n.clients
    case Noise(message) => !IsNotification(message)
    case Receive => n.pending != []
  }

  /** The socket reports only the first subscriber and the last unsubscription of a filter. */
  function Changed(topic: Bytes, n: Network, change: Change): Network
    requires Possible(n, change)
  {
    match change
    case Subscribe(prefix) =>
      n.(
        clients := n.clients + multiset{prefix},
        pending := if prefix in n.clients then n.pending else n.pending + [Announce(true, prefix)])
    case Unsubscribe(prefix) =>
      n.(
        clients := n.clients - multiset{prefix},
        pending := if n.clients[prefix] > 1 then n.pending else n.pending + [Announce(false, prefix)])
    case Noise(message) => n.(pending := n.pending + [message])
    case Receive => n.(pending := n.pending[1..], filters := Handle(topic, n.filters, n.pending[0]))
  }

  /** What is known and what is under way together give the live filters that match the topic. */
  ghost predicate Tracks(topic: Bytes, n: Network) {
    forall prefix :: prefix in HandleAll(topic, n.filters, n.pending) <==> prefix in n.clients && prefix <= topic
  }

  lemma {:induction false} HandleAllAppend(topic: Bytes, filters: set<Bytes>, messages: seq<Bytes>, last: Bytes)
    ensures HandleAll(topic, filters, messages + [last]) == Handle(topic, HandleAll(topic, filters, messages), last)
    decreases |messages|
  {
    if messages == [] {
      assert messages + [last] == [last] && [last][1..] == [];
    } else {
      assert (messages + [last])[1..] == messages[1..] + [last];
      HandleAllAppend(topic, Handle(topic, filters, messages[0]), messages[1..], last);
    }
  }

  lemma ChangeKeepsTracking(topic: Bytes, n: Network, change: Change)
    requires Possible(n, change) && Tracks(topic, n)
    ensures Tracks(topic, Changed(topic, n, change))
  {
    match change
    case Subscribe(prefix) =>
      var message := Announce(true, prefix);
      assert message[1..] == prefix;
      HandleAllAppend(topic, n.filters, n.pending, message);
    case Unsubscribe(prefix) =>
      var message := Announce(false, prefix);
      assert message[1..] == prefix;
      HandleAllAppend(topic, n.filters, n.pending, message);
    case Noise(message) =>
      HandleAllAppend(topic, n.filters, n.pending, message);
    case Receive =>
  }

  predicate AllPossible(topic: Bytes, n: Network, changes: seq<Change>)
    decreases |changes|
  {
    changes == [] || (Possible(n, changes[0]) && AllPossible(topic, Changed(topic, n, changes[0]), changes[1..]))
  }

  function ChangedAll(topic: Bytes, n: Network, changes: seq<Change>): Network
    requires AllPossible(topic, n, changes)
    decreases |changes|
  {
    if changes == [] then n else ChangedAll(topic, Changed(topic, n, changes[0]), changes[1..])
  }

  lemma {:induction false} ChangesKeepTracking(topic: Bytes, n: Network, changes: seq<Change>)
    requires Tracks(topic, n) && AllPossible(topic, n, changes)
    ensures Tracks(topic, ChangedAll(topic, n, changes))
    decreases |changes|
  {
    if changes != [] {
      ChangeKeepsTracking(topic, n, changes[0]);
      ChangesKeepTracking(topic, Changed(topic, n, changes[0]), changes[1..]);
    }
  }

  /** Once all notifications are in, a filter is kept exactly if some client that matches the topic still has it. */
  lemma FlagFollowsClients(topic: Bytes, changes: seq<Change>)
    requires AllPossible(topic, Network(multiset{}, [], {}), changes)
    requires ChangedAll(topic, Network(multiset{}, [], {}), changes).pending == []
    ensures
      var n := ChangedAll(topic, Network(multiset{}, [], {}), changes);
      n.filters != {} <==> exists prefix :: prefix in n.clients && prefix <= topic
  {
    var start := Network(multiset{}, [], {});
    assert Tracks(topic, start);
    ChangesKeepTracking(topic, start, changes);
    var n := ChangedAll(topic, start, changes);
    if n.filters != {} {
      var prefix :| prefix in n.filters;
      assert prefix in n.clients && prefix <= topic;
    }
  }
}

/** Best-effort telemetry: a bounded queue that drops its oldest entry. */
module Telemetry {
  import opened Wrappers
  import opened Subscriptions

  datatype Topic = FrameTopic | RunTopic | EpisodeTopic

  datatype Event = Event(topic: Topic, run: nat, payload: int)

  /** A message on the wire. */
  datatype Envelope = Envelope(sequence: nat, event: Event)

  function CountTopic(sent: seq<Envelope>, topic: Topic): nat {
    if sent == [] then 0
    else CountTopic(DropLast(sent), topic) + (if sent[|sent| - 1].event.topic == topic then 1 else 0)
  }

  ghost predicate NumberedAt(sent: seq<Envelope>, i: nat)
    requires i < |sent|
  {
    sent[i].sequence == CountTopic(sent[..i], sent[i].event.topic)
  }

  /** The messages of each topic are numbered 0, 1, 2, … without a gap. */
  ghost predicate Numbered(sent: seq<Envelope>) {
    forall i | 0 <= i < |sent| :: NumberedAt(sent, i)
  }

  /** The counter of a topic; one that was never used is zero. */
  function Counter(sequences: map<Topic, nat>, topic: Topic): nat {
    if topic in sequences then sequences[topic] else 0
  }

  ghost predicate Counted(sequences: map<Topic, nat>, sent: seq<Envelope>) {
    forall topic :: Counter(sequences, topic) == CountTopic(sent, topic)
  }

  /** `places` shows where each message stood among everything offered: in order, and before `limit`. */
  ghost predicate PlacedBefore(sent: seq<Envelope>, places: seq<nat>, offered: seq<Event>, limit: nat) {
    && |places| == |sent| && limit <= |offered|
    && (forall i | 0 <= i < |sent| :: places[i] < limit && sent[i].event == offered[places[i]])
    && (forall i, j | 0 <= i < j < |sent| :: places[i] < places[j])
  }

  class TelemetryPublisher {
    const capacity: nat
    const frameTopic: Bytes
    var queue: seq<Event>
    var sequences: map<Topic, nat>
    var frameFilters: set<Bytes>
    var hasFrameSubscribers: bool

    /** Everything put into the queue, everything sent, and where the sent messages stood. */
    ghost var offered: seq<Event>
    ghost var sent: seq<Envelope>
    ghost var places: seq<nat>

    ghost predicate Valid()
      reads this
    {
      && 0 < capacity
      && |queue| <= capacity && |queue| <= |offered|
      && queue == offered[|offered| - |queue|..]
      && PlacedBefore(sent, places, offered, |offered| - |queue|)
      && Numbered(sent)
      && Counted(sequences, sent)
      && hasFrameSubscribers == (frameFilters != {})
    }

    constructor (size: nat, frameTopic: Bytes)
      requires 0 < size
      ensures Valid() && capacity == size && this.frameTopic == frameTopic
      ensures offered == [] && sent == [] && queue == [] && !hasFrameSubscribers
    {
      capacity, queue := size, [];
      this.frameTopic := frameTopic;
      sequences := map[];
      frameFilters, hasFrameSubscribers := {}, false;
      offered, sent, places := [], [], [];
    }

    /** A full queue loses its oldest entry, whatever its topic. */
    method OfferEvent(event: Event)
      requires Valid()
      modifies this`queue, this`offered
      ensures Valid() && offered == old(offered) + [event]
      ensures queue == (if |old(queue)| < capacity then old(queue) else old(queue)[1..]) + [event]
    {
      if |queue| == capacity {
        queue := queue[1..];
      }
      queue := queue + [event];
      offered := offered + [event];
    }

    /** Frames are queued only while somebody watches. */
    method OfferFrame(run: nat, payload: int)
      requires Valid()
      modifies this`queue, this`offered
      ensures Valid()
      ensures offered == old(offered) + (if hasFrameSubscribers then [Event(FrameTopic, run, payload)] else [])
    {
      if hasFrameSubscribers {
        OfferEvent(Event(FrameTopic, run, payload));
      }
    }

    /** What sending one event means for the wire: nothing for a frame that nobody watches any more. */
    ghost function Sent(before: seq<Envelope>, event: Event): seq<Envelope>
      reads this`hasFrameSubscribers
    {
      if event.topic == FrameTopic && !hasFrameSubscribers then before
      else before + [Envelope(CountTopic(before, event.topic), event)]
    }

    method Send(event: Event, ghost place: nat)
      requires Numbered(sent) && Counted(sequences, sent)
      requires PlacedBefore(sent, places, offered, place) && place < |offered| && offered[place] == event
      modifies this`sequences, this`sent, this`places
      ensures Numbered(sent) && Counted(sequences, sent) && PlacedBefore(sent, places, offered, place + 1)
      ensures sent == Sent(old(sent), event)
    {
      if event.topic == FrameTopic && !hasFrameSubscribers {
        return;
      }
      var envelope := Envelope(Counter(sequences, event.topic), event);
      AppendNumbered(sequences, sent, envelope);
      AppendPlaced(sent, places, offered, place, envelope);
      sequences := sequences[event.topic := envelope.sequence + 1];
      sent := sent + [envelope];
      places := places + [place];
    }

    /** One turn of the event loop: the oldest event leaves the queue. */
    method SendNext()
      requires Valid() && queue != []
      modifies this`queue, this`sequences, this`sent, this`places
      ensures Valid() && queue == old(queue)[1..] && sent == Sent(old(sent), old(queue)[0])
    {
      var event := queue[0];
      ghost var place := |offered| - |queue|;
      assert offered[place] == event && offered[place..][1..] == offered[place + 1..];
      queue := queue[1..];
      Send(event, place);
    }

    /** One turn of the subscription loop. */
    method ReceiveSubscription(message: Bytes)
      requires Valid()
      modifies this`frameFilters, this`hasFrameSubscribers
      ensures Valid() && frameFilters == Handle(frameTopic, old(frameFilters), message)
    {
      if message == [] || (message[0] != 0 && message[0] != 1) {
        return;
      }
      var prefix := message[1..];
      if !(prefix <= frameTopic) {
        return;
      }
      if message[0] == 1 {
        frameFilters := frameFilters + {prefix};
      } else {
        frameFilters := frameFilters - {prefix};
      }
      hasFrameSubscribers := frameFilters != {};
    }
  }

  lemma AppendPlaced(sent: seq<Envelope>, places: seq<nat>, offered: seq<Event>, limit: nat, next: Envelope)
    requires PlacedBefore(sent, places, offered, limit) && limit < |offered| && next.event == offered[limit]
    ensures PlacedBefore(sent + [next], places + [limit], offered, limit + 1)
  {
  }

  lemma AppendNumbered(sequences: map<Topic, nat>, sent: seq<Envelope>, next: Envelope)
    requires Numbered(sent) && Counted(sequences, sent) && next.sequence == Counter(sequences, next.event.topic)
    ensures Numbered(sent + [next])
    ensures Counted(sequences[next.event.topic := next.sequence + 1], sent + [next])
  {
    var longer := sent + [next];
    assert DropLast(longer) == sent;
    forall i | 0 <= i < |longer| ensures NumberedAt(longer, i) {
      if i < |sent| {
        assert NumberedAt(sent, i) && longer[..i] == sent[..i];
      } else {
        assert longer[..i] == sent;
      }
    }
    forall topic ensures Counter(sequences[next.event.topic := next.sequence + 1], topic) == CountTopic(longer, topic) {
      assert Counter(sequences, topic) == CountTopic(sent, topic);
    }
  }

  /** Two messages of one topic with nothing of it between them have consecutive numbers. */
  lemma {:induction false} NumbersCountUp(sent: seq<Envelope>, i: nat, j: nat)
    requires Numbered(sent) && i < j < |sent| && sent[i].event.topic == sent[j].event.topic
    requires forall k | i < k < j :: sent[k].event.topic != sent[i].event.topic
    ensures sent[j].sequence == sent[i].sequence + 1
  {
    assert NumberedAt(sent, i) && NumberedAt(sent, j);
    CountStays(sent, i + 1, j, sent[i].event.topic);
    assert DropLast(sent[..i + 1]) == sent[..i];
  }

  lemma {:induction false} CountStays(sent: seq<Envelope>, i: nat, j: nat, topic: Topic)
    requires i <= j <= |sent| && forall k | i <= k < j :: sent[k].event.topic != topic
    ensures CountTopic(sent[..j], topic) == CountTopic(sent[..i], topic)
    decreases j
  {
    if i < j {
      CountStays(sent, i, j - 1, topic);
      assert DropLast(sent[..j]) == sent[..j - 1];
    }
  }
}
