/** One inference request in the balancer: wait for an agent, hand the request
    over, forward the agent's stream and give the slot back.

    The environment is a sequence of polls of the event loop.  A poll says which
    sources are ready and whether what is sent in it arrives.  The agent's items
    wait in the response channel until they are received. */
module RequestLifecycle {

  /** An item of the agent's stream; `done` marks the terminal one. */
  datatype Item = Item(payload: nat, done: bool)

  datatype Message = Response(item: Item) | Error(code: nat)

  /** What the request does to the outside, in order. */
  datatype Effect = Send(message: Message, arrived: bool) | Stop(reached: bool) | ReleaseSlot

  /** `responseReady`: the channel holds an unreceived item, or is closed. */
  datatype Poll = Poll(
    shutdown: bool,
    agentClosed: bool,
    clientClosed: bool,
    timedOut: bool,
    responseReady: bool,
    sendOk: bool,
    stopOk: bool)

  datatype Mode = ForwardingToClient | DrainingUntilAgentConfirms

  datatype Exit = Running | ShutDown | AgentGone | AgentUnreachable | DrainTimedOut | ChannelClosed | StreamDone

  /** The event that ended the forwarding of responses. */
  datatype Cause = ByShutdown | ByAgentClosing | ByClientClosing | ByTimeout | ByChannelClosing | ByLastItem | ByFailedSend

  /** The highest-priority ready source that ends forwarding, if any, when `taken`
      items of the stream have been received. */
  predicate Ends(poll: Poll, stream: seq<Item>, taken: nat, cause: Cause)
    requires taken <= |stream|
  {
    var quiet := !poll.shutdown && !poll.agentClosed && !poll.clientClosed && !poll.timedOut;
    match cause
    case ByShutdown => poll.shutdown
    case ByAgentClosing => poll.agentClosed && !poll.shutdown
    case ByClientClosing => poll.clientClosed && !poll.shutdown && !poll.agentClosed
    case ByTimeout => poll.timedOut && !poll.shutdown && !poll.agentClosed && !poll.clientClosed
    case ByChannelClosing => quiet && poll.responseReady && taken == |stream|
    case ByLastItem => quiet && poll.responseReady && taken < |stream| && stream[taken].done
    case ByFailedSend => quiet && poll.responseReady && taken < |stream| && !stream[taken].done && !poll.sendOk
  }

  /** What the request does when forwarding ends for `cause`. */
  function Farewell(poll: Poll, stream: seq<Item>, taken: nat, cause: Cause): seq<Effect>
    requires taken <= |stream| && Ends(poll, stream, taken, cause)
  {
    match cause
    case ByShutdown => [Send(Error(503), poll.sendOk), Stop(poll.stopOk)]
    case ByAgentClosing => [Send(Error(502), poll.sendOk)]
    case ByClientClosing => [Stop(poll.stopOk)]
    case ByTimeout => [Send(Error(504), poll.sendOk), Stop(poll.stopOk)]
    case ByChannelClosing => [Send(Error(502), poll.sendOk)]
    case ByLastItem => [Send(Response(stream[taken]), poll.sendOk)]
    case ByFailedSend => [Send(Response(stream[taken]), false), Stop(poll.stopOk)]
  }

  /** Causes after which the agent is asked to stop and then drained. */
  predicate Drains(cause: Cause) {
    cause.ByClientClosing? || cause.ByTimeout? || cause.ByFailedSend?
  }

  /** The first `n` items, each sent and received. */
  function Forwarded(stream: seq<Item>, n: nat): (log: seq<Effect>)
    requires n <= |stream|
    ensures |log| == n
  {
    seq(n, i requires 0 <= i < n => Send(Response(stream[i]), true))
  }

  predicate NoneDone(stream: seq<Item>, n: nat)
    requires n <= |stream|
  {
    forall k :: 0 <= k < n ==> !stream[k].done
  }

  predicate Calm(poll: Poll) {
    !poll.shutdown && !poll.agentClosed && !poll.clientClosed && !poll.timedOut
  }

  /** Items received by the first `n` polls when nothing takes priority over the channel. */
  function ReadyCount(polls: seq<Poll>, n: nat): nat
    requires n <= |polls|
  {
    if n == 0 then 0 else ReadyCount(polls, n - 1) + if polls[n - 1].responseReady then 1 else 0
  }

  /** The first `n` polls forwarded `kept` items and gave no reason to end. */
  predicate Forwarding(stream: seq<Item>, polls: seq<Poll>, n: nat, kept: nat)
    requires n <= |polls|
  {
    && kept == ReadyCount(polls, n) && kept <= |stream| && NoneDone(stream, kept)
    && forall j :: 0 <= j < n ==> Calm(polls[j]) && (polls[j].responseReady ==> polls[j].sendOk)
  }

  /** Forwarding ended at poll `at` for `cause`, after `kept` items. */
  predicate Ended(stream: seq<Item>, polls: seq<Poll>, log: seq<Effect>, kept: nat, at: nat, cause: Cause) {
    && at < |polls| && Forwarding(stream, polls, at, kept)
    && Ends(polls[at], stream, kept, cause)
    && log == Forwarded(stream, kept) + Farewell(polls[at], stream, kept, cause)
  }

  /** Why the loop was left at once, given why forwarding ended. */
  predicate ExitFits(exit: Exit, cause: Cause, stopOk: bool) {
    match cause
    case ByShutdown => exit == ShutDown
    case ByAgentClosing => exit == AgentGone
    case ByChannelClosing => exit == ChannelClosed
    case ByLastItem => exit == StreamDone
    case _ => exit == AgentUnreachable && !stopOk
  }

  lemma ForwardingContinues(stream: seq<Item>, polls: seq<Poll>, i: nat, kept: nat)
    requires i < |polls| && Forwarding(stream, polls, i, kept) && Calm(polls[i])
    requires polls[i].responseReady ==> polls[i].sendOk
    ensures !polls[i].responseReady ==> Forwarding(stream, polls, i + 1, kept)
    ensures polls[i].responseReady && kept < |stream| && !stream[kept].done ==>
              Forwarding(stream, polls, i + 1, kept + 1) &&
              Forwarded(stream, kept + 1) == Forwarded(stream, kept) + [Send(Response(stream[kept]), true)]
  {
  }

  /** Draining since poll `at` has gone on for the polls before `n`: nothing ended it,
      and every ready item, none of them terminal, has been received. */
  predicate Draining(stream: seq<Item>, polls: seq<Poll>, kept: nat, at: nat, cause: Cause, n: nat, taken: nat) {
    && at < n <= |polls| && taken <= |stream|
    && (forall j :: at < j < n ==> !polls[j].shutdown && !polls[j].agentClosed && !polls[j].timedOut)
    && taken == kept + (if cause.ByFailedSend? then 1 else 0) + ReadyCount(polls, n) - ReadyCount(polls, at + 1)
    && forall j :: kept <= j < taken ==> !stream[j].done
  }

  lemma DrainingContinues(stream: seq<Item>, polls: seq<Poll>, kept: nat, at: nat, cause: Cause, i: nat, taken: nat)
    requires Draining(stream, polls, kept, at, cause, i, taken) && i < |polls|
    requires !polls[i].shutdown && !polls[i].agentClosed && !polls[i].timedOut
    requires polls[i].responseReady ==> taken < |stream| && !stream[taken].done
    ensures Draining(stream, polls, kept, at, cause, i + 1, taken + if polls[i].responseReady then 1 else 0)
  {
  }

  /** The poll ends the draining, for the highest-priority source that is ready. */
  predicate EndsDraining(poll: Poll, stream: seq<Item>, taken: nat, exit: Exit) {
    if poll.shutdown then exit == ShutDown
    else if poll.agentClosed then exit == AgentGone
    else if poll.timedOut then exit == DrainTimedOut
    else
      && poll.responseReady && taken <= |stream|
      && if taken == |stream| then exit == ChannelClosed else stream[taken].done && exit == StreamDone
  }

  /** The poll gives no reason to end forwarding; a ready item is passed on. */
  predicate Forwards(poll: Poll, stream: seq<Item>, taken: nat, received: nat, log: seq<Effect>, longer: seq<Effect>) {
    && Calm(poll)
    && if poll.responseReady
       then poll.sendOk && taken < |stream| && !stream[taken].done && received == taken + 1
            && longer == log + [Send(Response(stream[taken]), true)]
       else received == taken && longer == log
  }

  /** One pass of the event loop. */
  method HandlePoll(stream: seq<Item>, poll: Poll, mode: Mode, taken: nat, log: seq<Effect>)
    returns (exit: Exit, next: Mode, received: nat, longer: seq<Effect>, handled: nat, ghost cause: Cause)
    requires taken <= |stream|
    ensures taken <= received <= |stream| && handled <= 1
    ensures exit.Running? && next == mode ==> handled == received - taken
    ensures mode.ForwardingToClient? && exit.Running? && next.ForwardingToClient? ==>
              Forwards(poll, stream, taken, received, log, longer)
    ensures mode.ForwardingToClient? && !(exit.Running? && next.ForwardingToClient?) ==>
              Ends(poll, stream, taken, cause) && longer == log + Farewell(poll, stream, taken, cause)
    ensures mode.ForwardingToClient? && exit.Running? && next.DrainingUntilAgentConfirms? ==>
              Drains(cause) && poll.stopOk
    ensures mode.ForwardingToClient? && !exit.Running? ==> next == mode && ExitFits(exit, cause, poll.stopOk)
    ensures mode.ForwardingToClient? && exit.Running? && next.DrainingUntilAgentConfirms? ==>
              received == taken + if cause.ByFailedSend? then 1 else 0
    ensures mode.DrainingUntilAgentConfirms? ==> next == mode && longer == log
    ensures mode.DrainingUntilAgentConfirms? && exit.Running? ==>
              && !poll.shutdown && !poll.agentClosed && !poll.timedOut
              && received == taken + (if poll.responseReady then 1 else 0)
              && (poll.responseReady ==> taken < |stream| && !stream[taken].done)
    ensures mode.DrainingUntilAgentConfirms? && !exit.Running? ==> EndsDraining(poll, stream, taken, exit)
    ensures exit.StreamDone? ==> received > 0 && stream[received - 1].done
    ensures exit.ChannelClosed? ==> received == |stream|
  {
    exit, next, received, longer, handled, cause := Running, mode, taken, log, 1, ByShutdown;
    var isForwardingToClient := mode.ForwardingToClient?;
    if poll.shutdown {
      if isForwardingToClient {
        longer := log + [Send(Error(503), poll.sendOk), Stop(poll.stopOk)];
      }
      exit := ShutDown;
    } else if poll.agentClosed {
      if isForwardingToClient {
        longer, cause := log + [Send(Error(502), poll.sendOk)], ByAgentClosing;
      }
      exit := AgentGone;
    } else if poll.clientClosed && isForwardingToClient {
      longer, cause := log + [Stop(poll.stopOk)], ByClientClosing;
      if poll.stopOk {
        next := DrainingUntilAgentConfirms;
      } else {
        exit := AgentUnreachable;
      }
    } else if poll.timedOut {
      if !isForwardingToClient {
        exit := DrainTimedOut;
      } else {
        longer, cause := log + [Send(Error(504), poll.sendOk), Stop(poll.stopOk)], ByTimeout;
        if poll.stopOk {
          next := DrainingUntilAgentConfirms;
        } else {
          exit := AgentUnreachable;
        }
      }
    } else if poll.responseReady {
      if taken == |stream| {
        if isForwardingToClient {
          longer, cause := log + [Send(Error(502), poll.sendOk)], ByChannelClosing;
        }
        exit := ChannelClosed;
      } else {
        var response := stream[taken];
        received := taken + 1;
        if !isForwardingToClient {
          if response.done {
            exit := StreamDone;
          }
        } else {
          longer := log + [Send(Response(response), poll.sendOk)];
          if response.done {
            exit, cause := StreamDone, ByLastItem;
          } else if !poll.sendOk {
            longer, cause := log + [Send(Response(response), false), Stop(poll.stopOk)], ByFailedSend;
            if poll.stopOk {
              next := DrainingUntilAgentConfirms;
            } else {
              exit := AgentUnreachable;
            }
          }
        }
      }
    } else {
      handled := 0;
    }
  }

  method ForwardResponsesStream(stream: seq<Item>, polls: seq<Poll>)
    returns (exit: Exit, mode: Mode, log: seq<Effect>, taken: nat, iterations: nat,
             ghost kept: nat, ghost at: nat, ghost cause: Cause, ghost drained: nat, ghost left: nat)
    ensures kept <= taken <= |stream|
    ensures exit.Running? && mode.ForwardingToClient? ==>
              Forwarding(stream, polls, |polls|, taken) && log == Forwarded(stream, taken)
    ensures !exit.Running? || mode.DrainingUntilAgentConfirms? ==> Ended(stream, polls, log, kept, at, cause)
    ensures !exit.Running? && mode.ForwardingToClient? ==> ExitFits(exit, cause, polls[at].stopOk)
    ensures mode.DrainingUntilAgentConfirms? ==> Drains(cause) && polls[at].stopOk
    ensures exit.Running? && mode.DrainingUntilAgentConfirms? ==>
              Draining(stream, polls, kept, at, cause, |polls|, taken)
    ensures !exit.Running? && mode.DrainingUntilAgentConfirms? ==>
              left < |polls| && Draining(stream, polls, kept, at, cause, left, drained)
              && EndsDraining(polls[left], stream, drained, exit)
    ensures exit.StreamDone? ==> taken > 0 && stream[taken - 1].done
    ensures exit.ChannelClosed? ==> taken == |stream|
    ensures iterations <= taken + 2
  {
    exit, mode, log, taken, iterations := Running, ForwardingToClient, [], 0, 0;
    kept, at, cause, drained, left := 0, 0, ByShutdown, 0, 0;
    var i := 0;
    while i < |polls| && exit.Running?
      invariant 0 <= i <= |polls|
      invariant kept <= taken <= |stream|
      invariant exit.Running? && mode.ForwardingToClient? ==>
                  Forwarding(stream, polls, i, taken) && log == Forwarded(stream, taken)
      invariant !exit.Running? || mode.DrainingUntilAgentConfirms? ==> Ended(stream, polls, log, kept, at, cause)
      invariant !exit.Running? && mode.ForwardingToClient? ==> ExitFits(exit, cause, polls[at].stopOk)
      invariant mode.DrainingUntilAgentConfirms? ==> Drains(cause) && polls[at].stopOk
      invariant exit.Running? && mode.DrainingUntilAgentConfirms? ==>
                  Draining(stream, polls, kept, at, cause, i, taken)
      invariant !exit.Running? && mode.DrainingUntilAgentConfirms? ==>
                  left < |polls| && Draining(stream, polls, kept, at, cause, left, drained)
                  && EndsDraining(polls[left], stream, drained, exit)
      invariant exit.StreamDone? ==> taken > 0 && stream[taken - 1].done
      invariant exit.ChannelClosed? ==> taken == |stream|
      invariant iterations <= taken + (if mode.ForwardingToClient? then 0 else 1) + (if exit.Running? then 0 else 1)
    {
      var wasForwarding, before := mode.ForwardingToClient?, taken;
      var handled;
      ghost var reason;
      exit, mode, taken, log, handled, reason := HandlePoll(stream, polls[i], mode, taken, log);
      iterations := iterations + handled;
      drained, left := before, i;
      if wasForwarding {
        if exit.Running? && mode.ForwardingToClient? {
          ForwardingContinues(stream, polls, i, before);
        } else {
          kept, at, cause := before, i, reason;
        }
      } else if exit.Running? {
        DrainingContinues(stream, polls, kept, at, cause, i, before);
      }
      i := i + 1;
    }
  }

  function Delivered(log: seq<Effect>): seq<Message> {
    if log == [] then []
    else
      var last := log[|log| - 1];
      Delivered(log[..|log| - 1]) + if last.Send? && last.arrived then [last.message] else []
  }

  function Stops(log: seq<Effect>): nat {
    if log == [] then 0
    else Stops(log[..|log| - 1]) + if log[|log| - 1].Stop? then 1 else 0
  }

  predicate Closing(m: Message) {
    m.Error? || m.item.done
  }

  function Responses(items: seq<Item>): (messages: seq<Message>)
    ensures |messages| == |items|
  {
    seq(|items|, i requires 0 <= i < |items| => Response(items[i]))
  }

  /** The client has seen the first `kept` items of the stream, none of them
      terminal, then at most one closing message. */
  ghost predicate Answered(stream: seq<Item>, messages: seq<Message>, kept: nat, closed: bool) {
    && kept <= |stream| && NoneDone(stream, kept)
    && if closed
       then |messages| == kept + 1 && messages[..kept] == Responses(stream[..kept]) && Closing(messages[kept])
            && (messages[kept].Response? ==> kept < |stream| && messages[kept] == Response(stream[kept]))
       else messages == Responses(stream[..kept])
  }

  predicate NothingSentAfterStop(log: seq<Effect>) {
    forall i, j :: 0 <= i < j < |log| && log[i].Stop? ==> !log[j].Send?
  }

  lemma {:induction false} EffectsAppend(a: seq<Effect>, b: seq<Effect>)
    ensures Delivered(a + b) == Delivered(a) + Delivered(b)
    ensures Stops(a + b) == Stops(a) + Stops(b)
    decreases |b|
  {
    if b == [] {
      assert a + b == a;
    } else {
      var front := b[..|b| - 1];
      EffectsAppend(a, front);
      assert (a + b)[..|a + b| - 1] == a + front;
    }
  }

  lemma {:induction false} ForwardedEffects(stream: seq<Item>, n: nat)
    requires n <= |stream|
    ensures Delivered(Forwarded(stream, n)) == Responses(stream[..n])
    ensures Stops(Forwarded(stream, n)) == 0
  {
    if n > 0 {
      ForwardedEffects(stream, n - 1);
      assert Forwarded(stream, n)[..n - 1] == Forwarded(stream, n - 1);
    }
  }

  lemma OneEffect(e: Effect)
    ensures Delivered([e]) == if e.Send? && e.arrived then [e.message] else []
    ensures Stops([e]) == if e.Stop? then 1 else 0
  {
    assert [e][..0] == [];
  }

  lemma TwoEffects(e: Effect, f: Effect)
    ensures Delivered([e, f]) == Delivered([e]) + Delivered([f])
    ensures Stops([e, f]) == Stops([e]) + Stops([f])
  {
    EffectsAppend([e], [f]);
    assert [e, f] == [e] + [f];
  }

  lemma FarewellEffects(poll: Poll, stream: seq<Item>, taken: nat, cause: Cause)
    requires taken <= |stream| && Ends(poll, stream, taken, cause)
    ensures var farewell := Farewell(poll, stream, taken, cause);
            && Stops(farewell) == (if cause.ByAgentClosing? || cause.ByChannelClosing? || cause.ByLastItem? then 0 else 1)
            && |Delivered(farewell)| == (if farewell[0].Send? && farewell[0].arrived then 1 else 0)
            && (Delivered(farewell) != [] ==>
                  Delivered(farewell) == [farewell[0].message] && Closing(farewell[0].message))
            && NothingSentAfterStop(farewell)
  {
    var farewell := Farewell(poll, stream, taken, cause);
    OneEffect(farewell[0]);
    if |farewell| == 2 {
      OneEffect(farewell[1]);
      TwoEffects(farewell[0], farewell[1]);
      assert farewell == [farewell[0], farewell[1]];
    } else {
      assert farewell == [farewell[0]];
    }
  }

  /** What the client sees once forwarding has ended. */
  lemma EndedIsAnswered(stream: seq<Item>, polls: seq<Poll>, log: seq<Effect>, kept: nat, at: nat, cause: Cause)
    requires Ended(stream, polls, log, kept, at, cause)
    ensures Answered(stream, Delivered(log), kept, !cause.ByClientClosing? && !cause.ByFailedSend? && polls[at].sendOk)
    ensures Stops(log) <= 1 && NothingSentAfterStop(log)
    ensures Stops(log) == 0 <==> cause.ByAgentClosing? || cause.ByChannelClosing? || cause.ByLastItem?
  {
    var farewell := Farewell(polls[at], stream, kept, cause);
    ForwardedEffects(stream, kept);
    FarewellEffects(polls[at], stream, kept, cause);
    EffectsAppend(Forwarded(stream, kept), farewell);
  }

  datatype WaitResult = Found | BufferOverflow | WaitTimedOut | WaitFailed

  /** What decides the wait for an agent: the tokens are looked at before the result. */
  datatype Wait = Wait(shutdown: bool, clientClosed: bool, result: WaitResult, sendOk: bool)

  predicate Dispatched(wait: Wait) {
    !wait.shutdown && !wait.clientClosed && wait.result.Found?
  }

  /** A client that has cancelled is sent nothing; any other one error, with the code
      of what stopped the wait. */
  ghost predicate TurnedAway(wait: Wait, log: seq<Effect>) {
    if wait.clientClosed && !wait.shutdown then log == []
    else
      exists code ::
        && log == [Send(Error(code), wait.sendOk)]
        && (code == 503 <==> wait.shutdown || wait.result.BufferOverflow?)
        && (code == 504 <==> !wait.shutdown && wait.result.WaitTimedOut?)
        && (code == 500 <==> !wait.shutdown && wait.result.WaitFailed?)
  }

  method WaitForAgentController(wait: Wait) returns (found: bool, log: seq<Effect>)
    ensures found == Dispatched(wait)
    ensures if found then log == [] else TurnedAway(wait, log)
  {
    found, log := false, [];
    if wait.shutdown {
      log := [Send(Error(503), wait.sendOk)];
    } else if wait.clientClosed {
    } else {
      match wait.result {
        case Found => found := true;
        case BufferOverflow => log := [Send(Error(503), wait.sendOk)];
        case WaitTimedOut => log := [Send(Error(504), wait.sendOk)];
        case WaitFailed => log := [Send(Error(500), wait.sendOk)];
      }
    }
  }

  /** The client never cancels and everything sent arrives. */
  predicate Undisrupted(wait: Wait, setupSendOk: bool, polls: seq<Poll>) {
    && !wait.clientClosed && wait.sendOk && setupSendOk
    && forall poll :: poll in polls ==> !poll.clientClosed && poll.sendOk
  }

  /** The slot, held from dispatch on, is given back once and as the last effect. */
  predicate SlotHeldToTheEnd(log: seq<Effect>, held: bool, returned: bool) {
    && (held && returned ==> log != [])
    && forall i :: 0 <= i < |log| ==> (log[i].ReleaseSlot? <==> held && returned && i == |log| - 1)
  }

  /** The client's view is an answer, and the agent is stopped at most once, last. */
  ghost predicate Settled(stream: seq<Item>, log: seq<Effect>, kept: nat, closed: bool) {
    Answered(stream, Delivered(log), kept, closed) && Stops(log) <= 1 && NothingSentAfterStop(log)
  }

  lemma SilenceSettles(stream: seq<Item>)
    ensures Settled(stream, [], 0, false)
  {
  }

  lemma OneErrorSettles(stream: seq<Item>, code: nat, arrived: bool)
    ensures Settled(stream, [Send(Error(code), arrived)], 0, arrived)
  {
    OneEffect(Send(Error(code), arrived));
  }

  lemma ForwardedSettles(stream: seq<Item>, kept: nat)
    requires kept <= |stream| && NoneDone(stream, kept)
    ensures Settled(stream, Forwarded(stream, kept), kept, false)
  {
    ForwardedEffects(stream, kept);
  }

  lemma ReleaseSettles(stream: seq<Item>, log: seq<Effect>, kept: nat, closed: bool)
    requires Settled(stream, log, kept, closed)
    ensures Settled(stream, log + [ReleaseSlot], kept, closed)
    ensures Stops(log + [ReleaseSlot]) == Stops(log) && Delivered(log + [ReleaseSlot]) == Delivered(log)
  {
    EffectsAppend(log, [ReleaseSlot]);
    OneEffect(ReleaseSlot);
    assert Delivered(log) + [] == Delivered(log);
  }

  /** The first poll that gives a reason to end forwarding is poll `at`, or there is
      none and `at` is past the last; `kept` items were ready before it. */
  ghost predicate Cut(stream: seq<Item>, polls: seq<Poll>, at: nat, kept: nat) {
    && at <= |polls| && Forwarding(stream, polls, at, kept)
    && (at < |polls| ==>
          || !Calm(polls[at])
          || (polls[at].responseReady && (kept == |stream| || stream[kept].done || !polls[at].sendOk)))
  }

  lemma {:induction false} ReadyCountRises(polls: seq<Poll>, m: nat, n: nat)
    requires m <= n <= |polls|
    ensures ReadyCount(polls, m) <= ReadyCount(polls, n)
    decreases n
  {
    if m < n {
      ReadyCountRises(polls, m, n - 1);
    }
  }

  /** Where forwarding ends is determined by the agent's stream and the polls. */
  lemma CutIsUnique(stream: seq<Item>, polls: seq<Poll>, at: nat, kept: nat, otherAt: nat, otherKept: nat)
    requires Cut(stream, polls, at, kept) && Cut(stream, polls, otherAt, otherKept)
    ensures at == otherAt && kept == otherKept
  {
    if at < otherAt {
      CutIsNotLater(stream, polls, at, kept, otherAt, otherKept);
    } else if otherAt < at {
      CutIsNotLater(stream, polls, otherAt, otherKept, at, kept);
    }
  }

  lemma CutIsNotLater(stream: seq<Item>, polls: seq<Poll>, at: nat, kept: nat, n: nat, more: nat)
    requires Cut(stream, polls, at, kept) && at < n <= |polls|
    ensures !Forwarding(stream, polls, n, more)
  {
    if Forwarding(stream, polls, n, more) {
      ReadyCountRises(polls, at + 1, n);
    }
  }

  /** What ended the forwarding, by the poll that did: the message that closes the
      client's view, if it arrives, whether the agent was told to stop, and the exit
      unless the agent is to be drained. */
  predicate ClosedBy(poll: Poll, stream: seq<Item>, kept: nat, closing: seq<Message>, stops: nat, exit: Exit)
    requires kept <= |stream|
  {
    if poll.shutdown then
      closing == Arriving(Error(503), poll.sendOk) && stops == 1 && exit == ShutDown
    else if poll.agentClosed then
      closing == Arriving(Error(502), poll.sendOk) && stops == 0 && exit == AgentGone
    else if poll.clientClosed then
      closing == [] && stops == 1 && (exit == AgentUnreachable <==> !poll.stopOk)
    else if poll.timedOut then
      closing == Arriving(Error(504), poll.sendOk) && stops == 1 && (exit == AgentUnreachable <==> !poll.stopOk)
    else if kept == |stream| then
      closing == Arriving(Error(502), poll.sendOk) && stops == 0 && exit == ChannelClosed
    else if stream[kept].done then
      closing == Arriving(Response(stream[kept]), poll.sendOk) && stops == 0 && exit == StreamDone
    else
      closing == [] && stops == 1 && (exit == AgentUnreachable <==> !poll.stopOk)
  }

  function Arriving(message: Message, arrived: bool): seq<Message> {
    if arrived then [message] else []
  }

  /** What the client has received and the agent been told, and how the loop ended. */
  ghost predicate Reported(stream: seq<Item>, polls: seq<Poll>, at: nat, kept: nat,
                           delivered: seq<Message>, stops: nat, exit: Exit) {
    && Cut(stream, polls, at, kept)
    && if at == |polls| then delivered == Responses(stream[..kept]) && stops == 0 && exit == Running
       else
         exists closing ::
           delivered == Responses(stream[..kept]) + closing && ClosedBy(polls[at], stream, kept, closing, stops, exit)
  }

  lemma EndedIsReported(stream: seq<Item>, polls: seq<Poll>, log: seq<Effect>, kept: nat, at: nat, cause: Cause, exit: Exit)
    requires Ended(stream, polls, log, kept, at, cause)
    requires if polls[at].stopOk && Drains(cause) then exit != AgentUnreachable else ExitFits(exit, cause, polls[at].stopOk)
    ensures Reported(stream, polls, at, kept, Delivered(log), Stops(log), exit)
  {
    var poll := polls[at];
    var farewell := Farewell(poll, stream, kept, cause);
    ForwardedEffects(stream, kept);
    FarewellEffects(poll, stream, kept, cause);
    EffectsAppend(Forwarded(stream, kept), farewell);
    FarewellCloses(poll, stream, kept, cause, exit);
    assert Delivered(log) == Responses(stream[..kept]) + Delivered(farewell);
  }

  lemma FarewellCloses(poll: Poll, stream: seq<Item>, kept: nat, cause: Cause, exit: Exit)
    requires kept <= |stream| && Ends(poll, stream, kept, cause)
    requires if poll.stopOk && Drains(cause) then exit != AgentUnreachable else ExitFits(exit, cause, poll.stopOk)
    ensures var farewell := Farewell(poll, stream, kept, cause);
            ClosedBy(poll, stream, kept, Delivered(farewell), Stops(farewell), exit)
  {
    var farewell := Farewell(poll, stream, kept, cause);
    FarewellEffects(poll, stream, kept, cause);
    OneEffect(farewell[0]);
    if |farewell| == 2 {
      OneEffect(farewell[1]);
      TwoEffects(farewell[0], farewell[1]);
      assert farewell == [farewell[0], farewell[1]];
    } else {
      assert farewell == [farewell[0]];
    }
  }

  /** The forwarding loop as its caller sees it. */
  method ForwardAndReport(stream: seq<Item>, polls: seq<Poll>)
    returns (exit: Exit, log: seq<Effect>, iterations: nat, ghost kept: nat, ghost closed: bool, ghost at: nat)
    ensures Settled(stream, log, kept, closed) && ReleaseSlot !in log
    ensures Reported(stream, polls, at, kept, Delivered(log), Stops(log), exit)
    ensures !exit.Running? && (forall poll :: poll in polls ==> !poll.clientClosed && poll.sendOk) ==> closed
    ensures exit.Running? || exit.StreamDone? || exit.ChannelClosed? || exit.AgentGone? || Stops(log) == 1
    ensures iterations <= |stream| + 2
  {
    var mode, taken;
    ghost var cause, drained, left;
    exit, mode, log, taken, iterations, kept, at, cause, drained, left := ForwardResponsesStream(stream, polls);
    if exit.Running? && mode.ForwardingToClient? {
      kept, closed, at := taken, false, |polls|;
      ForwardedSettles(stream, kept);
      ForwardedEffects(stream, kept);
    } else {
      EndedIsAnswered(stream, polls, log, kept, at, cause);
      EndedIsReported(stream, polls, log, kept, at, cause, exit);
      closed := !cause.ByClientClosing? && !cause.ByFailedSend? && polls[at].sendOk;
    }
  }

  /** Nothing gets in the way while the first `n` polls bring the items up to the
      terminal one, which is item `last`. */
  ghost predicate Smooth(stream: seq<Item>, polls: seq<Poll>, last: nat, n: nat) {
    && last < |stream| && stream[last].done && NoneDone(stream, last)
    && n <= |polls| && ReadyCount(polls, n) > last
    && forall j :: 0 <= j < n ==> Calm(polls[j]) && polls[j].sendOk
  }

  /** Then the client gets the stream whole, and the agent is not told to stop. */
  lemma SmoothIsDelivered(stream: seq<Item>, polls: seq<Poll>, at: nat, kept: nat,
                          delivered: seq<Message>, stops: nat, exit: Exit, last: nat, n: nat)
    requires Reported(stream, polls, at, kept, delivered, stops, exit) && Smooth(stream, polls, last, n)
    ensures delivered == Responses(stream[..last + 1]) && stops == 0 && exit == StreamDone
  {
    if n <= at {
      ReadyCountRises(polls, n, at);
      assert false;
    }
    assert kept == last;
    assert Responses(stream[..last + 1]) == Responses(stream[..last]) + [Response(stream[last])];
  }

  /** The whole request.  It has not returned when the polls run out first. */
  method RequestFromAgent(wait: Wait, setupOk: bool, setupSendOk: bool, stream: seq<Item>, polls: seq<Poll>)
    returns (returned: bool, exit: Exit, log: seq<Effect>, iterations: nat,
             ghost kept: nat, ghost closed: bool, ghost at: nat)
    ensures Settled(stream, log, kept, closed)
    ensures returned && Undisrupted(wait, setupSendOk, polls) ==> closed
    ensures SlotHeldToTheEnd(log, Dispatched(wait), returned)
    ensures returned == (!(Dispatched(wait) && setupOk) || !exit.Running?)
    ensures !Dispatched(wait) ==> TurnedAway(wait, log)
    ensures Dispatched(wait) && !setupOk ==> log == [Send(Error(500), setupSendOk), ReleaseSlot]
    ensures Dispatched(wait) && setupOk ==> Reported(stream, polls, at, kept, Delivered(log), Stops(log), exit)
    ensures Dispatched(wait) && setupOk ==> forall last, n :: Smooth(stream, polls, last, n) ==>
              returned && exit == StreamDone && Stops(log) == 0 && Delivered(log) == Responses(stream[..last + 1])
    ensures returned && Dispatched(wait) && setupOk ==>
              exit.StreamDone? || exit.ChannelClosed? || exit.AgentGone? || Stops(log) == 1
    ensures iterations <= |stream| + 2
  {
    returned, exit, iterations, kept, closed, at := true, Running, 0, 0, false, 0;
    var found;
    found, log := WaitForAgentController(wait);
    if !found {
      if log == [] {
        SilenceSettles(stream);
      } else {
        OneErrorSettles(stream, log[0].message.code, wait.sendOk);
        closed := wait.sendOk;
      }
      return;
    }
    if !setupOk {
      log, closed := [Send(Error(500), setupSendOk)], setupSendOk;
      OneErrorSettles(stream, 500, setupSendOk);
    } else {
      exit, log, iterations, kept, closed, at := ForwardAndReport(stream, polls);
      returned := !exit.Running?;
      forall last, n | Smooth(stream, polls, last, n)
        ensures exit == StreamDone && Stops(log) == 0 && Delivered(log) == Responses(stream[..last + 1])
      {
        SmoothIsDelivered(stream, polls, at, kept, Delivered(log), Stops(log), exit, last, n);
      }
    }
    if returned {
      ReleaseSettles(stream, log, kept, closed);
      log := log + [ReleaseSlot];
    }
  }
}
