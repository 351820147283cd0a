/** The Python client's websocket connection: one socket shared by many requests,
    each with its own response queue.

    A queue is shared by the pending table and by the stream that reads it, so it
    is named by a handle. */
module InferenceSocket {

  datatype Item = Message(payload: nat, terminal: bool) | ParseError(payload: nat) | ConnectionDropped

  predicate Closes(item: Item) {
    match item
    case Message(_, terminal) => terminal
    case _ => true
  }

  /** A text frame: a message, or one that cannot be parsed but may still name the
      request it belongs to. */
  datatype Frame =
    | Parsed(id: string, payload: nat, terminal: bool)
    | Unparsable(id: string, payload: nat)
    | Unattributable

  datatype Event = Send(id: string) | Receive(frame: Frame) | Close | LoopEnds

  /** `queues[h]` lists everything ever put in queue `h`. */
  datatype Connection = Connection(connected: bool, pending: map<string, nat>, queues: seq<seq<Item>>)

  predicate WellFormed(c: Connection) {
    && (forall id :: id in c.pending ==> c.pending[id] < |c.queues|)
    && (forall i, j :: i in c.pending && j in c.pending && c.pending[i] == c.pending[j] ==> i == j)
  }

  function Put(c: Connection, id: string, item: Item): Connection
    requires WellFormed(c) && id in c.pending
  {
    var h := c.pending[id];
    c.(queues := c.queues[h := c.queues[h] + [item]],
       pending := if Closes(item) then c.pending - {id} else c.pending)
  }

  /** The item a frame puts in the queue of the request it names. */
  function Carried(frame: Frame): Item
    requires !frame.Unattributable?
  {
    match frame
    case Parsed(_, payload, terminal) => Message(payload, terminal)
    case Unparsable(_, payload) => ParseError(payload)
  }

  /** An unparsable frame must name its request by a non-empty id. */
  predicate Reaches(frame: Frame, id: string) {
    !frame.Unattributable? && frame.id == id && (frame.Unparsable? ==> id != "")
  }

  function Handle(c: Connection, event: Event): Connection
    requires WellFormed(c)
  {
    match event
    case Send(id) =>
      if !c.connected then c
      else Connection(true, c.pending[id := |c.queues|], c.queues + [[]])
    case Receive(frame) =>
      if !frame.Unattributable? && Reaches(frame, frame.id) && frame.id in c.pending
      then Put(c, frame.id, Carried(frame)) else c
    case Close => c.(connected := false)
    case LoopEnds =>
      Connection(false, map[],
        seq(|c.queues|, h requires 0 <= h < |c.queues| =>
          if h in c.pending.Values then c.queues[h] + [ConnectionDropped] else c.queues[h]))
  }

  /** The queue of `id` gains one item, and the id is unlisted if that is the last. */
  predicate TakesFrom(c: Connection, d: Connection, id: string, item: Item, last: bool)
    requires id in c.pending && c.pending[id] < |c.queues|
  {
    && d.connected == c.connected && |d.queues| == |c.queues|
    && d.pending == (if last then c.pending - {id} else c.pending)
    && d.queues[c.pending[id]] == c.queues[c.pending[id]] + [item]
    && forall h :: 0 <= h < |c.queues| && h != c.pending[id] ==> d.queues[h] == c.queues[h]
  }

  class InferenceSocketConnection {
    var connected: bool
    var pending: map<string, nat>
    var queues: seq<seq<Item>>

    function State(): Connection
      reads this
    {
      Connection(connected, pending, queues)
    }

    constructor ()
      ensures State() == Connection(true, map[], [])
    {
      connected, pending, queues := true, map[], [];
    }

    /** `None` of the handle is the ConnectionDroppedError raised to the caller. */
    method SendRequest(id: string) returns (accepted: bool, handle: nat)
      requires WellFormed(State())
      modifies this
      ensures State() == Handle(old(State()), Send(id))
      ensures accepted == old(connected) && (accepted ==> handle == |old(queues)| && pending[id] == handle)
    {
      accepted, handle := connected, |queues|;
      if accepted {
        queues := queues + [[]];
        pending := pending[id := handle];
      }
    }

    method DispatchMessage(frame: Frame)
      requires WellFormed(State())
      modifies this
      ensures State() == Handle(old(State()), Receive(frame))
      ensures match frame
              case Unattributable => State() == old(State())
              case Unparsable(id, payload) =>
                if id != "" && id in old(pending) then TakesFrom(old(State()), State(), id, ParseError(payload), true)
                else State() == old(State())
              case Parsed(id, payload, terminal) =>
                if id in old(pending) then TakesFrom(old(State()), State(), id, Message(payload, terminal), terminal)
                else State() == old(State())
    {
      match frame {
        case Unattributable =>
        case Unparsable(id, payload) => PushParseErrorToPending(id, payload);
        case Parsed(id, payload, terminal) =>
          if id in pending {
            PutNowait(pending[id], Message(payload, terminal));
            if terminal {
              pending := pending - {id};
            }
          }
      }
    }

    method PutNowait(handle: nat, item: Item)
      requires handle < |queues|
      modifies this`queues
      ensures queues == old(queues)[handle := old(queues)[handle] + [item]]
    {
      queues := queues[handle := queues[handle] + [item]];
    }

    method PushParseErrorToPending(id: string, payload: nat)
      requires WellFormed(State())
      modifies this
      ensures State() == Handle(old(State()), Receive(Unparsable(id, payload)))
    {
      if id != "" && id in pending {
        PutNowait(pending[id], ParseError(payload));
        pending := pending - {id};
      }
    }

    /** The caller closes the socket; the loops drain later. */
    method CloseSocket()
      modifies this`connected
      ensures WellFormed(old(State())) ==> State() == Handle(old(State()), Close)
    {
      connected := false;
    }

    /** Runs at the end of the read loop and of the write loop. */
    method DrainPending()
      requires WellFormed(State())
      modifies this
      ensures State() == Handle(old(State()), LoopEnds)
    {
      connected := false;
      var drained := pending;
      pending := map[];
      var todo := drained.Keys;
      while todo != {}
        invariant todo <= drained.Keys
        invariant !connected && pending == map[] && |queues| == |old(queues)|
        invariant forall h :: 0 <= h < |queues| ==>
          queues[h] == if h in drained.Values && !(exists id :: id in todo && drained[id] == h)
                       then old(queues)[h] + [ConnectionDropped] else old(queues)[h]
      {
        var id :| id in todo;
        todo := todo - {id};
        PutNowait(drained[id], ConnectionDropped);
      }
    }
  }

  lemma HandleKeepsWellFormed(c: Connection, event: Event)
    requires WellFormed(c)
    ensures WellFormed(Handle(c, event)) && |Handle(c, event).queues| >= |c.queues|
  {
  }

  function After(c: Connection, events: seq<Event>): (d: Connection)
    requires WellFormed(c)
    ensures WellFormed(d) && |d.queues| >= |c.queues|
    decreases |events|
  {
    if events == [] then c
    else HandleKeepsWellFormed(c, events[0]); After(Handle(c, events[0]), events[1..])
  }

  /** What the stream of request `id` should receive from the events after its send:
      its own frames up to the first that closes it, or the loss of the connection.
      Sending the same id again takes the id away from it. */
  function Expected(events: seq<Event>, id: string, connected: bool): seq<Item>
    decreases |events|
  {
    if events == [] then []
    else
      match events[0]
      case Receive(frame) =>
        if Reaches(frame, id) then
          var item := Carried(frame);
          [item] + if Closes(item) then [] else Expected(events[1..], id, connected)
        else Expected(events[1..], id, connected)
      case LoopEnds => [ConnectionDropped]
      case Close => Expected(events[1..], id, false)
      case Send(other) =>
        if connected && other == id then [] else Expected(events[1..], id, connected)
  }

  /** A queue no id points to is never written again. */
  lemma {:induction false} UnlistedQueueIsFrozen(c: Connection, events: seq<Event>, h: nat)
    requires WellFormed(c) && h < |c.queues| && h !in c.pending.Values
    ensures After(c, events).queues[h] == c.queues[h] && h !in After(c, events).pending.Values
    decreases |events|
  {
    if events != [] {
      HandleKeepsWellFormed(c, events[0]);
      UnlistedStaysUnlisted(c, events[0], h);
      UnlistedQueueIsFrozen(Handle(c, events[0]), events[1..], h);
    }
  }

  lemma UnlistedStaysUnlisted(c: Connection, event: Event, h: nat)
    requires WellFormed(c) && h < |c.queues| && h !in c.pending.Values
    ensures var d := Handle(c, event); h < |d.queues| && d.queues[h] == c.queues[h] && h !in d.pending.Values
  {
    var d := Handle(c, event);
    forall id | id in d.pending ensures d.pending[id] != h {
      if id in c.pending {
        assert c.pending[id] in c.pending.Values;
      }
    }
  }

  /** Every stream receives exactly its own frames, in order, up to the first that
      closes it, whatever other requests and frames are interleaved; a lost
      connection closes it with exactly one exception, however many loops end. */
  lemma {:induction false} StreamReceivesItsOwn(c: Connection, events: seq<Event>, id: string, h: nat)
    requires WellFormed(c) && id in c.pending && c.pending[id] == h
    ensures After(c, events).queues[h] == c.queues[h] + Expected(events, id, c.connected)
    decreases |events|
  {
    if events != [] {
      var d := Handle(c, events[0]);
      HandleKeepsWellFormed(c, events[0]);
      if id in d.pending && d.pending[id] == h {
        OneEventStaysListed(c, events[0], id, h);
        StreamReceivesItsOwn(d, events[1..], id, h);
      } else {
        OneEventUnlists(c, events[0], id, h);
        UnlistedQueueIsFrozen(d, events[1..], h);
      }
    }
  }

  /** From its send on, a request's queue holds what its stream is expected to receive. */
  lemma SentRequestReceivesItsOwn(c: Connection, id: string, events: seq<Event>)
    requires WellFormed(c) && c.connected
    ensures WellFormed(Handle(c, Send(id)))
    ensures |After(Handle(c, Send(id)), events).queues| > |c.queues|
    ensures After(Handle(c, Send(id)), events).queues[|c.queues|] == Expected(events, id, true)
  {
    HandleKeepsWellFormed(c, Send(id));
    StreamReceivesItsOwn(Handle(c, Send(id)), events, id, |c.queues|);
  }

  predicate HasClosing(items: seq<Item>) {
    exists item :: item in items && Closes(item)
  }

  /** The id is sent again while the stream is still open. */
  predicate Superseded(events: seq<Event>, id: string, connected: bool)
    decreases |events|
  {
    events != [] &&
    match events[0]
    case Receive(frame) =>
      (Reaches(frame, id) ==> !Closes(Carried(frame))) && Superseded(events[1..], id, connected)
    case LoopEnds => false
    case Close => Superseded(events[1..], id, false)
    case Send(other) => (connected && other == id) || Superseded(events[1..], id, connected)
  }

  /** A stream's queue is listed as pending exactly while it holds no closing item,
      unless its id was sent again; then it is neither listed nor ever closed. */
  lemma {:induction false} PendingExactlyWhileOpen(c: Connection, events: seq<Event>, id: string, h: nat)
    requires WellFormed(c) && id in c.pending && c.pending[id] == h
    ensures h in After(c, events).pending.Values <==>
              !Superseded(events, id, c.connected) && !HasClosing(Expected(events, id, c.connected))
    ensures Superseded(events, id, c.connected) ==> !HasClosing(Expected(events, id, c.connected))
    decreases |events|
  {
    if events == [] {
      assert c.pending[id] in c.pending.Values;
    } else {
      var d := Handle(c, events[0]);
      HandleKeepsWellFormed(c, events[0]);
      var expected := Expected(events, id, c.connected);
      if id in d.pending && d.pending[id] == h {
        OneEventStaysListed(c, events[0], id, h);
        PendingExactlyWhileOpen(d, events[1..], id, h);
        var rest := Expected(events[1..], id, d.connected);
        assert expected == if events[0].Receive? && Reaches(events[0].frame, id)
                           then [Carried(events[0].frame)] + rest else rest;
        assert HasClosing(rest) ==> HasClosing(expected) by {
          assert forall item :: item in rest ==> item in expected;
        }
      } else {
        OneEventUnlists(c, events[0], id, h);
        UnlistedQueueIsFrozen(d, events[1..], h);
        assert expected != [] ==> expected[0] in expected && Closes(expected[0]);
      }
    }
  }

  /** Two sends under one id: whatever happens next, the first stream receives
      nothing, not even the loss of the connection, while the second lives on. */
  lemma ReusedIdOrphansTheFirstStream(c: Connection, id: string, events: seq<Event>)
    requires WellFormed(c) && c.connected
    ensures WellFormed(Handle(c, Send(id))) && |After(Handle(c, Send(id)), [Send(id)] + events).queues| >= |c.queues| + 2
    ensures var queues := After(Handle(c, Send(id)), [Send(id)] + events).queues;
            queues[|c.queues|] == [] && queues[|c.queues| + 1] == Expected(events, id, true)
    ensures Superseded([Send(id)] + events, id, true)
  {
    var resent := [Send(id)] + events;
    assert resent[0] == Send(id) && resent[1..] == events;
    SentRequestReceivesItsOwn(c, id, resent);
    SentRequestReceivesItsOwn(Handle(c, Send(id)), id, events);
  }

  lemma OneEventStaysListed(c: Connection, event: Event, id: string, h: nat)
    requires WellFormed(c) && id in c.pending && c.pending[id] == h
    requires id in Handle(c, event).pending && Handle(c, event).pending[id] == h
    ensures event.Receive? && Reaches(event.frame, id) ==>
              !Closes(Carried(event.frame)) && Handle(c, event).queues[h] == c.queues[h] + [Carried(event.frame)]
    ensures !(event.Receive? && Reaches(event.frame, id)) ==> Handle(c, event).queues[h] == c.queues[h]
    ensures !event.LoopEnds? && (event.Send? && c.connected ==> event.id != id)
  {
  }

  lemma OneEventUnlists(c: Connection, event: Event, id: string, h: nat)
    requires WellFormed(c) && id in c.pending && c.pending[id] == h
    requires !(id in Handle(c, event).pending && Handle(c, event).pending[id] == h)
    ensures h !in Handle(c, event).pending.Values
    ensures Handle(c, event).queues[h] == c.queues[h] +
              if event.LoopEnds? then [ConnectionDropped]
              else if event.Receive? then [Carried(event.frame)] else []
    ensures event.LoopEnds? || (event.Receive? && Reaches(event.frame, id) && Closes(Carried(event.frame)))
            || (event.Send? && c.connected && event.id == id)
  {
    assert c.pending[id] in c.pending.Values;
    var d := Handle(c, event);
    forall other | other in d.pending ensures d.pending[other] != h {
    }
  }

  /** What an event puts in the queue of request `id`. */
  function ItemsOf(event: Event, id: string): seq<Item> {
    match event
    case Receive(Parsed(other, payload, terminal)) => if other == id then [Message(payload, terminal)] else []
    case Receive(Unparsable(other, payload)) => if other == id && id != "" then [ParseError(payload)] else []
    case LoopEnds => [ConnectionDropped]
    case _ => []
  }

  /** The event closes the stream, or takes its id away. */
  predicate EndsStream(event: Event, id: string, connected: bool) {
    match event
    case Receive(Parsed(other, _, terminal)) => other == id && terminal
    case Receive(Unparsable(other, _)) => other == id && id != ""
    case LoopEnds => true
    case Send(other) => connected && other == id
    case _ => false
  }

  /** Told by the frames alone: a stream receives what each frame that names it carries,
      in order, up to the first event that ends it, and nothing after. */
  lemma ExpectedFrameByFrame(event: Event, rest: seq<Event>, id: string, connected: bool)
    ensures Expected([event] + rest, id, connected)
            == ItemsOf(event, id)
               + if EndsStream(event, id, connected) then []
                 else Expected(rest, id, connected && event != Close)
  {
    assert ([event] + rest)[1..] == rest;
    var later := Expected(rest, id, connected && event != Close);
    assert [] + later == later;
  }

  predicate OpenUntilLast(items: seq<Item>) {
    forall i :: 0 <= i < |items| - 1 ==> !Closes(items[i])
  }

  /** Only the last item of what a stream receives can close it. */
  lemma {:induction false} OnlyTheLastCloses(events: seq<Event>, id: string, connected: bool)
    ensures OpenUntilLast(Expected(events, id, connected))
    decreases |events|
  {
    if events != [] {
      var stillConnected := connected && !events[0].Close?;
      var rest := Expected(events[1..], id, stillConnected);
      OnlyTheLastCloses(events[1..], id, stillConnected);
      if events[0].Receive? && Reaches(events[0].frame, id) {
        var item := Carried(events[0].frame);
        assert Expected(events, id, connected) == [item] + if Closes(item) then [] else rest;
      } else if !events[0].LoopEnds? && !(events[0].Send? && connected && events[0].id == id) {
        assert Expected(events, id, connected) == rest;
      } else {
        assert |Expected(events, id, connected)| <= 1;
      }
    }
  }

  datatype Next = StopIteration | Waiting | Yields(item: Item) | Raises(item: Item)

  /** The iterator over one response queue; `taken` items have been got from it. */
  class ResponseStream {
    const handle: nat
    var taken: nat
    var done: bool

    predicate Valid(queue: seq<Item>)
      reads this
    {
      taken <= |queue| && (done <==> taken > 0 && Closes(queue[taken - 1]))
    }

    constructor (handle: nat)
      ensures this.handle == handle && taken == 0 && !done
    {
      this.handle, taken, done := handle, 0, false;
    }

    method GetNext(queue: seq<Item>) returns (next: Next)
      requires Valid(queue)
      modifies this
      ensures Valid(queue)
      ensures old(done) ==> next == StopIteration && taken == old(taken)
      ensures !old(done) && old(taken) == |queue| ==> next == Waiting && taken == old(taken)
      ensures !old(done) && old(taken) < |queue| ==>
                taken == old(taken) + 1 &&
                next == (if queue[old(taken)].Message? then Yields(queue[old(taken)]) else Raises(queue[old(taken)]))
    {
      if done {
        return StopIteration;
      }
      if taken == |queue| {
        return Waiting;
      }
      var item := queue[taken];
      taken := taken + 1;
      if !item.Message? {
        done := true;
        return Raises(item);
      }
      if item.terminal {
        done := true;
      }
      return Yields(item);
    }
  }

  /** A reader that has ended has read everything its stream received. */
  lemma EndedReaderHasReadAll(events: seq<Event>, id: string, connected: bool, taken: nat)
    requires var expected := Expected(events, id, connected);
             0 < taken <= |expected| && Closes(expected[taken - 1])
    ensures taken == |Expected(events, id, connected)|
  {
    OnlyTheLastCloses(events, id, connected);
  }
}
