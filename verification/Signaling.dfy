/** The client's side of the signaling connection: who gets to hear of an answer. */
module Signaling {
  import opened Basics
  import opened Model

  /** Callbacks are told apart by a number; each registration brings a new one. */
  type Callback = nat

  datatype Call = Call(callback: Callback, sdp: SdpMessage)

  datatype Event =
    | OnAnswer(sessionId: string, callback: Callback)
    | Message(msg: ServerMessage)

  /** The callbacks waiting for an answer, and the calls made so far. */
  datatype Listener = Listener(waiting: map<string, Callback>, calls: seq<Call>)

  function Step(l: Listener, e: Event): Listener {
    match e
    case OnAnswer(sessionId, callback) => l.(waiting := l.waiting[sessionId := callback])
    case Message(msg) =>
      if msg.Answer? && msg.answer.sessionId in l.waiting then
        var sdp := msg.answer;
        Listener(l.waiting - {sdp.sessionId}, l.calls + [Call(l.waiting[sdp.sessionId], sdp)])
      else l
  }

  function After(events: seq<Event>): Listener {
    if events == [] then Listener(map[], []) else Step(After(events[..|events| - 1]), events[|events| - 1])
  }

  function MessagesOf(events: seq<Event>): seq<ServerMessage> {
    if events == [] then []
    else
      var last := events[|events| - 1];
      MessagesOf(events[..|events| - 1]) + (if last.Message? then [last.msg] else [])
  }

  class ManagedSignalingConnection {
    var onAnswer: map<string, Callback>
    var calls: seq<Call>
    var forwarded: seq<ServerMessage>
    ghost var events: seq<Event>

    ghost predicate Valid()
      reads this
    {
      Listener(onAnswer, calls) == After(events) && forwarded == MessagesOf(events)
    }

    constructor ()
      ensures Valid() && events == []
    {
      onAnswer, calls, forwarded, events := map[], [], [], [];
    }

    method Register(sessionId: string, callback: Callback)
      requires Valid()
      modifies this
      ensures Valid() && events == old(events) + [OnAnswer(sessionId, callback)]
      ensures forwarded == old(forwarded)
    {
      onAnswer := onAnswer[sessionId := callback];
      ghost var done := events + [OnAnswer(sessionId, callback)];
      assert done[..|events|] == events;
      events := done;
    }

    /** One turn of the listener: an answer goes to the callback waiting for it, and every message to the application. */
    method Receive(msg: ServerMessage)
      requires Valid()
      modifies this
      ensures Valid() && events == old(events) + [Message(msg)]
      ensures forwarded == old(forwarded) + [msg]
    {
      if msg.Answer? && msg.answer.sessionId in onAnswer {
        var callback := onAnswer[msg.answer.sessionId];
        onAnswer := onAnswer - {msg.answer.sessionId};
        calls := calls + [Call(callback, msg.answer)];
      }
      forwarded := forwarded + [msg];
      ghost var done := events + [Message(msg)];
      assert done[..|events|] == events;
      events := done;
    }
  }

  // ---- What becomes of a callback ---------------------------------------------------------------

  function CallsOf(calls: seq<Call>, callback: Callback): seq<SdpMessage> {
    if calls == [] then []
    else
      var last := calls[|calls| - 1];
      CallsOf(calls[..|calls| - 1], callback) + (if last.callback == callback then [last.sdp] else [])
  }

  predicate Concerns(e: Event, sessionId: string) {
    match e
    case OnAnswer(sessionId', _) => sessionId' == sessionId
    case Message(msg) => msg.Answer? && msg.answer.sessionId == sessionId
  }

  /** The first event after the one at `i` that concerns the same session. */
  function FirstAfter(events: seq<Event>, i: nat): Option<Event>
    requires i < |events| && events[i].OnAnswer?
    decreases |events|
  {
    if |events| == i + 1 then None
    else
      match FirstAfter(events[..|events| - 1], i)
      case Some(e) => Some(e)
      case None =>
        var last := events[|events| - 1];
        if Concerns(last, events[i].sessionId) then Some(last) else None
  }

  ghost predicate OwnCallbacks(events: seq<Event>) {
    forall i, j :: 0 <= i < j < |events| && events[i].OnAnswer? && events[j].OnAnswer? ==>
      events[i].callback != events[j].callback
  }

  lemma {:induction false} OnlyRegistered(events: seq<Event>, callback: Callback)
    requires forall i :: 0 <= i < |events| && events[i].OnAnswer? ==> events[i].callback != callback
    ensures CallsOf(After(events).calls, callback) == []
    ensures forall s :: s in After(events).waiting ==> After(events).waiting[s] != callback
    decreases |events|
  {
    if events != [] {
      var init, last := events[..|events| - 1], events[|events| - 1];
      OnlyRegistered(init, callback);
      StepCalls(After(init), last, callback);
    }
  }

  lemma StepCalls(l: Listener, e: Event, callback: Callback)
    ensures CallsOf(Step(l, e).calls, callback) == CallsOf(l.calls, callback) +
              (if e.Message? && e.msg.Answer? && e.msg.answer.sessionId in l.waiting
                  && l.waiting[e.msg.answer.sessionId] == callback
               then [e.msg.answer] else [])
  {
    var calls := CallsOf(l.calls, callback);
    assert calls + [] == calls;
    if Step(l, e).calls != l.calls {
      assert Step(l, e).calls[..|l.calls|] == l.calls;
    }
  }

  /** A callback is called once, with the first answer for its own session after it was registered, unless another one
      was registered for the session before; otherwise it is never called. An answer that came before has no effect. */
  lemma {:induction false} CalledOnceAtMost(events: seq<Event>, i: nat)
    requires i < |events| && events[i].OnAnswer? && OwnCallbacks(events)
    ensures var (l, e) := (After(events), events[i]);
            var waiting := e.sessionId in l.waiting && l.waiting[e.sessionId] == e.callback;
            && (forall s :: s in l.waiting && l.waiting[s] == e.callback ==> s == e.sessionId)
            && match FirstAfter(events, i)
               case None => waiting && CallsOf(l.calls, e.callback) == []
               case Some(OnAnswer(_, _)) => !waiting && CallsOf(l.calls, e.callback) == []
               case Some(Message(msg)) =>
                 !waiting && msg.Answer? && msg.answer.sessionId == e.sessionId
                 && CallsOf(l.calls, e.callback) == [msg.answer]
    decreases |events|
  {
    var init, last := events[..|events| - 1], events[|events| - 1];
    if |events| == i + 1 {
      OnlyRegistered(init, last.callback);
    } else {
      CalledOnceAtMost(init, i);
      assert init[i] == events[i];
      StepCalls(After(init), last, events[i].callback);
    }
  }
}
