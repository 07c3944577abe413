/** Where session descriptions go: to the one peer they are meant for, in the origin's own room, and as they are. */
module ServerRouting {
  import opened Basics
  import opened Model
  import opened Registry
  import opened Server
  import opened ServerViews

  /** The message a request turns into. It says who the origin was when it connected. */
  function Made(peer: ClientInfo, request: Request): ServerMessage
    requires !request.Revise?
  {
    match request
    case SendOffer(sessionId, _, sdp) => Offer(SdpMessage(peer, sessionId, sdp))
    case SendAnswer(sessionId, _, sdp) => Answer(SdpMessage(peer, sessionId, sdp))
  }

  function Origin(msg: ServerMessage): ClientInfo
    requires msg.Offer? || msg.Answer?
  {
    if msg.Offer? then msg.offer.peer else msg.answer.peer
  }

  function Copies(log: seq<ServerMessage>, msg: ServerMessage): nat
    decreases |log|
  {
    if log == [] then 0 else Copies(log[..|log| - 1], msg) + (if log[|log| - 1] == msg then 1 else 0)
  }

  function CopiesTo(work: seq<Envelope>, c: Uuid, msg: ServerMessage): nat {
    if work == [] then 0 else (if work[0] == Envelope(c, msg) then 1 else 0) + CopiesTo(work[1..], c, msg)
  }

  function Times(asked: seq<Request>, request: Request): nat
    decreases |asked|
  {
    if asked == [] then 0
    else Times(asked[..|asked| - 1], request) + (if asked[|asked| - 1] == request then 1 else 0)
  }

  /** What became of a request: delivered, under way, or not carried out yet. */
  function Live(g: State, z: Uuid, request: Request): nat
    requires z in g.conns && !request.Revise?
  {
    var conn, msg := g.conns[z], Made(g.conns[z].peer, request);
    Copies(Log(g, request.target), msg) + CopiesTo(conn.work, request.target, msg)
    + (if conn.todo == Some(request) then 1 else 0)
  }

  /** What a step does away with: a request carried out while its target is not in the room, or all that an aborted worker
      still had to do. */
  function Lost(g: State, step: Step, z: Uuid, request: Request): nat
    requires z in g.conns && !request.Revise?
  {
    var conn := g.conns[z];
    var waiting := if conn.todo == Some(request) then 1 else 0;
    match step
    case Handle(id, _) => if id == z && request.target !in Room(g.rooms, conn.group) then waiting else 0
    case Abort(id) =>
      if id == z then waiting + CopiesTo(conn.work, request.target, Made(conn.peer, request)) else 0
    case _ => 0
  }

  /** How much of a request was lost over a run. */
  function LostIn(limits: Limits, steps: seq<Step>, z: Uuid, request: Request): nat
    requires !request.Revise?
    decreases |steps|
  {
    if steps == [] then 0
    else
      var n := |steps| - 1;
      LostIn(limits, steps[..n], z, request) +
      match Run(limits, steps[..n])
      case None => 0
      case Some(g) => if z in g.conns then Lost(g, steps[n], z, request) else 0
  }

  /** A delivered description comes from a connection in the same room, under the identity the server gave it. */
  predicate Genuine(g: State, c: Uuid, msg: ServerMessage) {
    msg.Offer? || msg.Answer? ==>
      var origin := Origin(msg);
      Together(g, c, origin.id) && g.conns[origin.id].peer == origin
  }

  ghost predicate AllGenuine(g: State) {
    forall c, msg :: c in g.conns && msg in Log(g, c) ==> Genuine(g, c, msg)
  }

  lemma CopiesSnoc(log: seq<ServerMessage>, last: ServerMessage, msg: ServerMessage)
    ensures Copies(log + [last], msg) == Copies(log, msg) + (if last == msg then 1 else 0)
  {
    assert (log + [last])[..|log|] == log;
  }

  lemma {:induction false} NoCopies(log: seq<ServerMessage>, msg: ServerMessage)
    ensures Copies(log, msg) > 0 <==> msg in log
    decreases |log|
  {
    if log != [] {
      NoCopies(log[..|log| - 1], msg);
      assert log == log[..|log| - 1] + [log[|log| - 1]];
    }
  }

  lemma {:induction false} NoCopiesTo(work: seq<Envelope>, c: Uuid, msg: ServerMessage)
    ensures CopiesTo(work, c, msg) > 0 <==> Envelope(c, msg) in work
  {
    if work != [] {
      NoCopiesTo(work[1..], c, msg);
      assert work == [work[0]] + work[1..];
    }
  }

  lemma {:induction false} TimesIff(asked: seq<Request>, request: Request)
    ensures Times(asked, request) > 0 <==> request in asked
    decreases |asked|
  {
    if asked != [] {
      TimesIff(asked[..|asked| - 1], request);
      assert asked == asked[..|asked| - 1] + [asked[|asked| - 1]];
    }
  }

  // ---- Every step keeps the routes --------------------------------------------------------------

  /** Every step accounts for every request: asked for anew, still live or lost. */
  lemma NextLive(limits: Limits, g: State, step: Step, z: Uuid, request: Request)
    requires Sound(limits, g) && AllGenuine(g) && Enabled(g, step) && z in g.conns && !request.Revise?
    ensures var g' := Next(limits, g, step);
            && z in g'.conns
            && Live(g', z, request) + Lost(g, step, z, request) - Live(g, z, request)
               == Times(g'.conns[z].asked, request) - Times(g.conns[z].asked, request)
  {
    hide Sound, AllGenuine, Live, Times, CopiesTo;
    match step
    case Connect(group, peer, order) => ConnectLive(limits, g, group, peer, order, z, request);
    case Deliver(id) => DeliverLive(limits, g, id, z, request);
    case Send(id) => SendLive(limits, g, id, z, request);
    case Ask(id, asked) => AskLive(limits, g, id, asked, z, request);
    case Handle(id, order) => HandleLive(limits, g, id, order, z, request);
    case Close(id) => CloseLive(limits, g, id, z, request);
    case Abort(id) => AbortLive(limits, g, id, z, request);
    case Remove(id, order) => RemoveLive(limits, g, id, order, z, request);
    case Clear => ClearLive(g, z, request);
  }

  /** A newcomer starts with nothing. */
  lemma NewcomerLive(limits: Limits, g: State, step: Step, z: Uuid, request: Request)
    requires Sound(limits, g) && AllGenuine(g) && Enabled(g, step) && !request.Revise?
    requires z !in g.conns && z in Next(limits, g, step).conns
    ensures var g' := Next(limits, g, step);
            Live(g', z, request) == 0 && Times(g'.conns[z].asked, request) == 0
  {
    hide Registered, RoomsAgree, Bounded, Copies, CopiesTo, Infos, Answering, Protected, Dismissed;
    var g', c, msg := Next(limits, g, step), request.target, Made(step.peer, request);
    NoCopies(Log(g', c), msg);
    NoCopiesTo([], c, msg);
    NotYetGenuine(g, c, msg);
  }

  lemma ConnectLive(limits: Limits, g: State, group: string, peer: ClientInfo, order: seq<Uuid>, z: Uuid, request: Request)
    requires Sound(limits, g) && Enabled(g, Connect(group, peer, order)) && z in g.conns && !request.Revise?
    ensures var g' := Connected(limits, g, group, peer, order);
            Live(g', z, request) == Live(g, z, request) && g'.conns[z] == g.conns[z]
  {
    hide Registered, RoomsAgree, Bounded, CopiesTo, Times, ToAll, Infos;
  }

  lemma NotYetGenuine(g: State, c: Uuid, msg: ServerMessage)
    requires ConnsAgree(g) && AllGenuine(g) && (msg.Offer? || msg.Answer?) && Origin(msg).id !in g.conns
    ensures msg !in Log(g, c)
  {
    assert c in g.conns && msg in Log(g, c) ==> Genuine(g, c, msg);
  }

  /** What a connection sends itself is never a session description. */
  lemma DeliverLive(limits: Limits, g: State, id: Uuid, z: Uuid, request: Request)
    requires Sound(limits, g) && Enabled(g, Deliver(id)) && z in g.conns && !request.Revise?
    ensures var g' := Next(limits, g, Deliver(id));
            Live(g', z, request) == Live(g, z, request) && g'.conns[z].asked == g.conns[z].asked
  {
    hide RoomsAgree, Bounded, Times, Copies, CopiesTo;
    var e, msg := g.conns[id].out[0], Made(g.conns[z].peer, request);
    assert e in g.conns[id].out && Proper(g, id, e);
    CopiesSnoc(Log(g, request.target), e.msg, msg);
  }

  lemma SendLive(limits: Limits, g: State, id: Uuid, z: Uuid, request: Request)
    requires Sound(limits, g) && Enabled(g, Send(id)) && z in g.conns && !request.Revise?
    ensures var g' := Next(limits, g, Send(id));
            Live(g', z, request) == Live(g, z, request) && g'.conns[z].asked == g.conns[z].asked
  {
    var g', c, msg := Next(limits, g, Send(id)), request.target, Made(g.conns[z].peer, request);
    SendCopies(limits, g, id, c, msg);
    if g.conns[id].work[0].msg == msg {
      SenderOfMade(limits, g, id, z, request);
    }
    hide Sound, Times, Copies, CopiesTo;
    assert z != id ==> g'.conns[z] == g.conns[z];
  }

  /** A worker moves one copy from what it has to send to the log. */
  lemma SendCopies(limits: Limits, g: State, id: Uuid, c: Uuid, msg: ServerMessage)
    requires Sound(limits, g) && Enabled(g, Send(id))
    ensures var (g', moved) := (Next(limits, g, Send(id)), if g.conns[id].work[0] == Envelope(c, msg) then 1 else 0);
            && Copies(Log(g', c), msg) == Copies(Log(g, c), msg) + moved
            && CopiesTo(g'.conns[id].work, c, msg) == CopiesTo(g.conns[id].work, c, msg) - moved
  {
    hide RoomsAgree, Bounded;
    var e := g.conns[id].work[0];
    assert e in g.conns[id].work;
    assert Fitting(g, id, e);
    CopiesSnoc(Log(g, c), e.msg, msg);
  }

  lemma SenderOfMade(limits: Limits, g: State, id: Uuid, z: Uuid, request: Request)
    requires Sound(limits, g) && Enabled(g, Send(id)) && z in g.conns && !request.Revise?
    requires g.conns[id].work[0].msg == Made(g.conns[z].peer, request)
    ensures id == z
  {
    hide RoomsAgree, Bounded;
    assert g.conns[id].work[0] in g.conns[id].work;
    assert Fitting(g, id, g.conns[id].work[0]);
  }

  lemma AskLive(limits: Limits, g: State, id: Uuid, asked: Request, z: Uuid, request: Request)
    requires Enabled(g, Ask(id, asked)) && z in g.conns && !request.Revise?
    ensures var g' := Asked(limits, g, id, asked);
            Live(g', z, request) - Live(g, z, request)
            == Times(g'.conns[z].asked, request) - Times(g.conns[z].asked, request)
  {
    hide Protected, Copies;
    var before := g.conns[id].asked;
    assert (before + [asked])[..|before|] == before;
    NoCopiesTo([Envelope(id, Error(TOO_MANY_REQUESTS))], request.target, Made(g.conns[z].peer, request));
  }

  /** Carrying out a request turns it into one message on its way, if its target is in the room of its origin; and nothing
      else becomes of any request. */
  lemma HandleLive(limits: Limits, g: State, id: Uuid, order: seq<Uuid>, z: Uuid, request: Request)
    requires Sound(limits, g) && Enabled(g, Handle(id, order)) && z in g.conns && !request.Revise?
    ensures var (conn, g') := (g.conns[z], Next(limits, g, Handle(id, order)));
            && g'.conns[z].asked == conn.asked
            && Live(g', z, request) == Live(g, z, request) -
                 (if id == z && conn.todo == Some(request) && request.target !in Room(g.rooms, conn.group) then 1 else 0)
  {
    hide RoomsAgree, Bounded, Times, Copies, Answering, CopiesTo;
    if z == id {
      AnswerRoutes(g, id, order, request);
      NoCopiesTo([], request.target, Made(g.conns[z].peer, request));
    }
  }

  /** The answer to a request goes to nobody but its target, once, and says what the request says. */
  lemma AnswerRoutes(g: State, id: Uuid, order: seq<Uuid>, request: Request)
    requires id in g.conns && g.conns[id].todo.Some? && !request.Revise?
    ensures var out := Answering(g, id, g.conns[id].todo.value, order);
            CopiesTo(out, request.target, Made(g.conns[id].peer, request))
            == if g.conns[id].todo.value == request && request.target in Room(g.rooms, g.conns[id].group) then 1 else 0
  {
    var todo := g.conns[id].todo.value;
    var e := Envelope(request.target, Made(g.conns[id].peer, request));
    var out := Answering(g, id, todo, order);
    NoCopiesTo(out, request.target, e.msg);
    if todo.Revise? {
      ToAllIn(order, ServerMessage.Update(ClientInfo(id, todo.info)), e);
    } else if out != [] {
      assert out[1..] == [];
    }
  }

  lemma CloseLive(limits: Limits, g: State, id: Uuid, z: Uuid, request: Request)
    requires Enabled(g, Close(id)) && z in g.conns && !request.Revise?
    ensures var g' := Next(limits, g, Close(id));
            Live(g', z, request) == Live(g, z, request) && g'.conns[z].asked == g.conns[z].asked
  {
    hide Copies, CopiesTo;
  }

  lemma AbortLive(limits: Limits, g: State, id: Uuid, z: Uuid, request: Request)
    requires Enabled(g, Abort(id)) && z in g.conns && !request.Revise?
    ensures var g' := Next(limits, g, Abort(id));
            Live(g', z, request) + Lost(g, Abort(id), z, request) == Live(g, z, request)
            && g'.conns[z].asked == g.conns[z].asked
  {
    hide Copies, CopiesTo;
    NoCopiesTo([], request.target, Made(g.conns[z].peer, request));
  }

  lemma RemoveLive(limits: Limits, g: State, id: Uuid, order: seq<Uuid>, z: Uuid, request: Request)
    requires Enabled(g, Remove(id, order)) && z in g.conns && !request.Revise?
    ensures var g' := Removed(g, id, order);
            Live(g', z, request) == Live(g, z, request) && g'.conns[z].asked == g.conns[z].asked
  {
    hide Copies, CopiesTo, Dismissed, ToAll;
  }

  lemma ClearLive(g: State, z: Uuid, request: Request)
    requires z in g.conns && !request.Revise?
    ensures Live(g.(counts := map[]), z, request) == Live(g, z, request)
  {
  }

  lemma NextGenuine(limits: Limits, g: State, step: Step, c: Uuid, msg: ServerMessage)
    requires Sound(limits, g) && AllGenuine(g) && Enabled(g, step)
    requires c in Next(limits, g, step).conns && msg in Log(Next(limits, g, step), c)
    ensures Genuine(Next(limits, g, step), c, msg)
  {
    hide Sound, Registered, Answering, Protected, Dismissed, Genuine;
    if msg in Log(g, c) {
      LoggedIsConnected(limits, g, c, msg);
    } else {
      if step.Deliver? {
        DeliveredIsGenuine(limits, g, step.id, c, msg);
      } else {
        SentIsGenuine(limits, g, step.id, c, msg);
      }
    }
    StaysTogether(limits, g, step, c, msg);
  }

  lemma LoggedIsConnected(limits: Limits, g: State, c: Uuid, msg: ServerMessage)
    requires Sound(limits, g) && AllGenuine(g) && msg in Log(g, c)
    ensures c in g.conns && Genuine(g, c, msg)
  {
  }

  /** Nobody changes rooms or identity. */
  lemma StaysTogether(limits: Limits, g: State, step: Step, c: Uuid, msg: ServerMessage)
    requires Enabled(g, step) && c in g.conns && Genuine(g, c, msg)
    ensures Genuine(Next(limits, g, step), c, msg)
  {
    hide Registered, Answering, Protected, Dismissed;
  }

  lemma DeliveredIsGenuine(limits: Limits, g: State, id: Uuid, c: Uuid, msg: ServerMessage)
    requires Sound(limits, g) && Enabled(g, Deliver(id)) && g.conns[id].out[0] == Envelope(c, msg)
    ensures c in g.conns && Genuine(g, c, msg)
  {
    hide RoomsAgree, Bounded;
    assert g.conns[id].out[0] in g.conns[id].out;
    assert Proper(g, id, g.conns[id].out[0]);
  }

  lemma SentIsGenuine(limits: Limits, g: State, id: Uuid, c: Uuid, msg: ServerMessage)
    requires Sound(limits, g) && Enabled(g, Send(id)) && g.conns[id].work[0] == Envelope(c, msg)
    ensures c in g.conns && Genuine(g, c, msg)
  {
    hide RoomsAgree, Bounded;
    assert g.conns[id].work[0] in g.conns[id].work;
    assert Fitting(g, id, g.conns[id].work[0]);
  }

  lemma {:induction false} RunGenuine(limits: Limits, steps: seq<Step>, g: State)
    requires Run(limits, steps) == Some(g)
    ensures AllGenuine(g)
    decreases |steps|
  {
    hide Next, Enabled, Sound;
    if steps != [] {
      hide Genuine;
      var n := |steps| - 1;
      var before := Run(limits, steps[..n]).value;
      RunSound(limits, steps[..n], before);
      RunGenuine(limits, steps[..n], before);
      forall c, msg | c in g.conns && msg in Log(g, c) ensures Genuine(g, c, msg) {
        NextGenuine(limits, before, steps[n], c, msg);
      }
    }
  }

  /** Over every run, each time a connection asked for a description to be passed on is accounted for: it was delivered to
      the target, is under way, is still to be carried out, or was lost, because the target was not in the room or the
      worker was aborted. */
  lemma {:induction false} RequestsAccounted(limits: Limits, steps: seq<Step>, g: State, z: Uuid, request: Request)
    requires Run(limits, steps) == Some(g) && !request.Revise?
    ensures if z in g.conns then
              Times(g.conns[z].asked, request) == Live(g, z, request) + LostIn(limits, steps, z, request)
            else LostIn(limits, steps, z, request) == 0
    decreases |steps|
  {
    hide Next, Enabled, Sound, AllGenuine, Live, Times, Lost;
    if steps != [] {
      var n := |steps| - 1;
      var before := Run(limits, steps[..n]).value;
      RunSound(limits, steps[..n], before);
      RunGenuine(limits, steps[..n], before);
      RequestsAccounted(limits, steps[..n], before, z, request);
      if z in before.conns {
        NextLive(limits, before, steps[n], z, request);
      } else if z in g.conns {
        NewcomerLive(limits, before, steps[n], z, request);
      }
    }
  }

  /** Over every run: a session description that reached `c` names an origin in the room of `c` by the identity the server
      gave it; that origin asked for exactly this description to go to `c`; and it arrived no more often than that. */
  lemma DescriptionsRouted(limits: Limits, steps: seq<Step>, g: State, c: Uuid, msg: ServerMessage)
    requires Run(limits, steps) == Some(g) && c in g.conns && msg in Log(g, c) && (msg.Offer? || msg.Answer?)
    ensures var (origin, sdp) := (Origin(msg).id, if msg.Offer? then msg.offer else msg.answer);
            var request := if msg.Offer? then SendOffer(sdp.sessionId, c, sdp.sdp) else SendAnswer(sdp.sessionId, c, sdp.sdp);
            && Together(g, c, origin) && g.conns[origin].peer == Origin(msg)
            && request in g.conns[origin].asked
            && Copies(Log(g, c), msg) <= Times(g.conns[origin].asked, request)
  {
    hide Run, Copies, CopiesTo, Times;
    RunSound(limits, steps, g);
    RunGenuine(limits, steps, g);
    assert Genuine(g, c, msg);
    var sdp := if msg.Offer? then msg.offer else msg.answer;
    var request := if msg.Offer? then SendOffer(sdp.sessionId, c, sdp.sdp) else SendAnswer(sdp.sessionId, c, sdp.sdp);
    var origin := Origin(msg).id;
    assert Made(g.conns[origin].peer, request) == msg;
    RequestsAccounted(limits, steps, g, origin, request);
    NoCopies(Log(g, c), msg);
    TimesIff(g.conns[origin].asked, request);
  }
}
