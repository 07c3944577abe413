/** What becomes of a client's requests on the server, and how it is greeted. */
module ServerRequests {
  import opened Basics
  import opened Model
  import opened Registry
  import opened Server

  // ---- Requests that are taken, and requests that are not ---------------------------------------

  /** The requests of a connection that came while the counter of its group was below the limit. */
  function GrantedTo(limits: Limits, steps: seq<Step>, id: Uuid): seq<Request>
    decreases |steps|
  {
    if steps == [] then []
    else
      var n := |steps| - 1;
      GrantedTo(limits, steps[..n], id) +
      match Run(limits, steps[..n])
      case None => []
      case Some(g) =>
        if steps[n].Ask? && steps[n].id == id && id in g.conns && CountOf(g.counts, g.conns[id].group) < limits.requests
        then [steps[n].request]
        else []
  }

  /** What the registry should hold of a peer that said `first` when it connected and then made these requests. */
  function LastSaid(first: ClientInfoWithoutId, requests: seq<Request>): ClientInfoWithoutId
    decreases |requests|
  {
    if requests == [] then first
    else
      var last := requests[|requests| - 1];
      if last.Revise? then last.info else LastSaid(first, requests[..|requests| - 1])
  }

  /** The requests carried out, as long as the worker is not aborted: all but the one still to do. */
  function CarriedOut(conn: Conn): seq<Request> {
    if conn.todo.Some? && conn.asked != [] then conn.asked[..|conn.asked| - 1] else conn.asked
  }

  ghost predicate SaidAgrees(g: State, x: Uuid) {
    x in g.conns ==>
      var (conn, room) := (g.conns[x], Room(g.rooms, g.conns[x].group));
      && (conn.todo.Some? ==> conn.asked != [] && conn.asked[|conn.asked| - 1] == conn.todo.value)
      && (!conn.phase.Closing? && !conn.phase.Gone? ==>
            x in room && room[x] == LastSaid(conn.peer.info, CarriedOut(conn)))
  }

  lemma NextSaid(limits: Limits, g: State, step: Step, x: Uuid)
    requires Sound(limits, g) && Enabled(g, step) && SaidAgrees(g, x)
    ensures SaidAgrees(Next(limits, g, step), x)
  {
    match step
    case Connect(group, peer, order) => hide SaidAgrees, Sound; ConnectSaid(limits, g, group, peer, order, x);
    case Ask(id, request) => hide SaidAgrees, Sound; AskSaid(limits, g, id, request, x);
    case Handle(id, order) => hide SaidAgrees, Sound; HandleSaid(g, id, order, x);
    case Remove(id, order) => hide SaidAgrees, Sound; RemoveSaid(g, id, order, x);
    case _ => hide Sound, LastSaid, CarriedOut;
  }

  lemma ConnectSaid(limits: Limits, g: State, group: string, peer: ClientInfo, order: seq<Uuid>, x: Uuid)
    requires Enabled(g, Connect(group, peer, order)) && SaidAgrees(g, x)
    ensures SaidAgrees(Connected(limits, g, group, peer, order), x)
  {
    hide Registered, Infos, ToAll;
    AdmittedIff(limits, g.rooms, g.counts, group, peer);
  }

  lemma AskSaid(limits: Limits, g: State, id: Uuid, request: Request, x: Uuid)
    requires Enabled(g, Ask(id, request)) && SaidAgrees(g, x)
    ensures SaidAgrees(Asked(limits, g, id, request), x)
  {
    hide Protected, LastSaid;
    if id == x {
      var asked := g.conns[x].asked;
      assert (asked + [request])[..|asked|] == asked;
    }
  }

  lemma HandleSaid(g: State, id: Uuid, order: seq<Uuid>, x: Uuid)
    requires Enabled(g, Handle(id, order)) && SaidAgrees(g, x)
    ensures SaidAgrees(Handled(g, id, order), x)
  {
    hide Answering, IsOrder;
    if id == x {
      var asked := g.conns[x].asked;
      assert asked == asked[..|asked| - 1] + [g.conns[x].todo.value];
    }
  }

  lemma RemoveSaid(g: State, id: Uuid, order: seq<Uuid>, x: Uuid)
    requires Enabled(g, Remove(id, order)) && SaidAgrees(g, x)
    ensures SaidAgrees(Removed(g, id, order), x)
  {
    hide Dismissed, LastSaid, ToAll, IsOrder;
    if x in g.conns {
      DismissedRoom(g.rooms, g.conns[id].group, id, g.conns[x].group);
    }
  }

  lemma NextGranted(limits: Limits, g: State, step: Step, x: Uuid)
    requires Enabled(g, step)
    ensures var (asked, g') := (if x in g.conns then g.conns[x].asked else [], Next(limits, g, step));
            (if x in g'.conns then g'.conns[x].asked else []) ==
            asked + (if step.Ask? && step.id == x && CountOf(g.counts, g.conns[x].group) < limits.requests
                     then [step.request] else [])
  {
    hide Registered, Answering, Dismissed, Infos, ToAll;
  }

  /** Over every run: the requests that a connection's worker took on are exactly those that came below the limit, and the
      registry holds what the last of those carried out said about the peer, or else what it said when it connected,
      unless the connection is closed. */
  lemma {:induction false} RegistryIsLastSaid(limits: Limits, steps: seq<Step>, g: State, x: Uuid)
    requires Run(limits, steps) == Some(g)
    ensures SaidAgrees(g, x)
    ensures GrantedTo(limits, steps, x) == if x in g.conns then g.conns[x].asked else []
    decreases |steps|
  {
    if steps != [] {
      hide Sound, SaidAgrees, Next, Enabled;
      var n := |steps| - 1;
      var before := Run(limits, steps[..n]).value;
      RunSound(limits, steps[..n], before);
      RegistryIsLastSaid(limits, steps[..n], before, x);
      NextSaid(limits, before, steps[n], x);
      NextGranted(limits, before, steps[n], x);
    }
  }

  /** A request over the limit is the last one the worker takes: all that it then does is to tell its own client why. */
  lemma RefusalIsTold(limits: Limits, g: State, id: Uuid, request: Request)
    requires Sound(limits, g) && Enabled(g, Ask(id, request)) && CountOf(g.counts, g.conns[id].group) >= limits.requests
    ensures var g1 := Next(limits, g, Ask(id, request));
            && g1.rooms == g.rooms && g1.conns[id].asked == g.conns[id].asked
            && !Enabled(g1, Ask(id, request)) && Enabled(g1, Send(id))
            && var g2 := Next(limits, g1, Send(id));
               && g2.logs == g.logs[id := g.logs[id] + [Error(429)]]
               && g2.conns[id] == g.conns[id].(worker := Absent)
  {
    hide RoomsAgree, Bounded;
    var error := Envelope(id, Error(429));
    assert [error][1..] == [];
  }

  /** Whether a request of the connection was refused. */
  predicate RefusedIn(limits: Limits, steps: seq<Step>, id: Uuid)
    decreases |steps|
  {
    steps != [] &&
    var n := |steps| - 1;
    || RefusedIn(limits, steps[..n], id)
    || (match Run(limits, steps[..n])
        case None => false
        case Some(g) =>
          steps[n].Ask? && steps[n].id == id && id in g.conns && CountOf(g.counts, g.conns[id].group) >= limits.requests)
  }

  /** Over every run: while a connection is open its worker takes requests, unless one was refused. */
  lemma {:induction false} WorkerServes(limits: Limits, steps: seq<Step>, g: State, id: Uuid)
    requires Run(limits, steps) == Some(g)
    ensures id in g.conns && g.conns[id].phase.Running? ==> (g.conns[id].worker.Busy? <==> !RefusedIn(limits, steps, id))
    ensures id !in g.conns || g.conns[id].phase.Greeting? ==> !RefusedIn(limits, steps, id)
    decreases |steps|
  {
    if steps != [] {
      hide Next, Enabled, Sound;
      var n := |steps| - 1;
      var before := Run(limits, steps[..n]).value;
      RunSound(limits, steps[..n], before);
      WorkerServes(limits, steps[..n], before, id);
      NextServes(limits, before, steps[n], id);
    }
  }

  lemma NextServes(limits: Limits, g: State, step: Step, id: Uuid)
    requires Sound(limits, g) && Enabled(g, step)
    ensures var g' := Next(limits, g, step);
            var refused := step.Ask? && step.id == id && CountOf(g.counts, g.conns[id].group) >= limits.requests;
            && (id in g.conns ==> id in g'.conns)
            && (id in g'.conns && id !in g.conns ==> g'.conns[id].phase.Greeting?)
            && (id in g.conns && g'.conns[id].phase.Greeting? ==> g.conns[id].phase.Greeting? && !refused)
            && (id in g.conns && g'.conns[id].phase.Running? ==>
                  if g.conns[id].phase.Greeting? then g'.conns[id].worker.Busy? && !refused
                  else && g.conns[id].phase.Running?
                       && (g'.conns[id].worker.Busy? <==> g.conns[id].worker.Busy? && !refused))
  {
    hide RoomsAgree, Bounded, Registered, Answering, Dismissed, Infos, ToAll;
  }

  // ---- Greetings --------------------------------------------------------------------------------

  function Hellos(msgs: seq<ServerMessage>): nat
    decreases |msgs|
  {
    if msgs == [] then 0 else Hellos(msgs[..|msgs| - 1]) + (if msgs[|msgs| - 1].Hello? then 1 else 0)
  }

  /** While a client is being greeted the Hello is the last message to go out; afterwards it has been delivered. It tells
      the client what it said about itself. */
  ghost predicate GreetingAgrees(conn: Conn, log: seq<ServerMessage>) {
    && Hellos(log) == (if conn.phase.Greeting? then 0 else 1)
    && (forall msg :: msg in log && msg.Hello? ==> msg.client == conn.peer)
    && (conn.phase.Greeting? ==>
          var n := |conn.out| - 1;
          && n >= 0 && conn.out[n].msg.Hello?
          && forall i :: 0 <= i < n ==> !conn.out[i].msg.Hello?)
  }

  ghost predicate Greeted(g: State, c: Uuid) {
    c in g.conns ==> c in g.logs && GreetingAgrees(g.conns[c], g.logs[c])
  }

  lemma HellosSnoc(log: seq<ServerMessage>, msg: ServerMessage)
    ensures Hellos(log + [msg]) == Hellos(log) + (if msg.Hello? then 1 else 0)
  {
    assert (log + [msg])[..|log|] == log;
  }

  lemma NextGreets(limits: Limits, g: State, step: Step, c: Uuid)
    requires Sound(limits, g) && Enabled(g, step) && Greeted(g, c)
    ensures Greeted(Next(limits, g, step), c)
  {
    hide RoomsAgree, Bounded;
    match step
    case Connect(group, peer, order) => ConnectGreets(limits, g, group, peer, order, c);
    case Deliver(id) => DeliverGreets(limits, g, id, c);
    case Send(id) => SendGreets(limits, g, id, c);
    case Ask(_, _) => hide Protected;
    case Handle(_, _) => hide Answering;
    case Remove(_, _) => hide Dismissed, ToAll;
    case _ => hide ConnsAgree;
  }

  lemma ConnectGreets(limits: Limits, g: State, group: string, peer: ClientInfo, order: seq<Uuid>, c: Uuid)
    requires Enabled(g, Connect(group, peer, order)) && Greeted(g, c)
    ensures Greeted(Connected(limits, g, group, peer, order), c)
  {
    hide Registered, Infos, ToAll, IsOrder;
    forall e ensures e in ToAll(order, Join(peer)) ==> e.msg == Join(peer) {
      ToAllIn(order, Join(peer), e);
    }
  }

  /** A delivery as the connection itself sees it: the Hello comes last and is for itself, and all else is for others. */
  lemma DeliveredGreets(conn: Conn, log: seq<ServerMessage>)
    requires GreetingAgrees(conn, log) && conn.out != [] && (conn.phase.Greeting? || !conn.out[0].msg.Hello?)
    requires conn.out[0].msg.Hello? ==> conn.out[0].msg.client == conn.peer
    ensures GreetingAgrees(Delivered(conn), if conn.out[0].msg.Hello? then log + [conn.out[0].msg] else log)
  {
    HellosSnoc(log, conn.out[0].msg);
  }

  /** A message that is no Hello changes nothing. */
  lemma OthersGreet(conn: Conn, log: seq<ServerMessage>, msg: ServerMessage)
    requires GreetingAgrees(conn, log) && !msg.Hello?
    ensures GreetingAgrees(conn, log + [msg])
  {
    HellosSnoc(log, msg);
  }

  lemma DeliverGreets(limits: Limits, g: State, id: Uuid, c: Uuid)
    requires ConnsAgree(g) && Enabled(g, Deliver(id)) && Greeted(g, c)
    ensures Greeted(Next(limits, g, Deliver(id)), c)
  {
    if c in g.conns {
      var e := g.conns[id].out[0];
      assert e in g.conns[id].out && Proper(g, id, e);
      hide ConnsAgree, GreetingAgrees;
      if id == c {
        DeliveredGreets(g.conns[c], g.logs[c]);
      } else if e.to == c {
        OthersGreet(g.conns[c], g.logs[c], e.msg);
      }
    }
  }

  lemma SendGreets(limits: Limits, g: State, id: Uuid, c: Uuid)
    requires ConnsAgree(g) && Enabled(g, Send(id)) && Greeted(g, c)
    ensures Greeted(Next(limits, g, Send(id)), c)
  {
    if c in g.conns {
      var e := g.conns[id].work[0];
      assert e in g.conns[id].work && Fitting(g, id, e);
      hide ConnsAgree;
      OthersGreet(g.conns[c], g.logs[c], e.msg);
    }
  }

  /** Over every run each client is greeted once, with what it said about itself. */
  lemma {:induction false} RunGreets(limits: Limits, steps: seq<Step>, g: State, c: Uuid)
    requires Run(limits, steps) == Some(g)
    ensures Greeted(g, c)
    decreases |steps|
  {
    if steps != [] {
      hide Next, Enabled, Sound, Greeted;
      var n := |steps| - 1;
      var before := Run(limits, steps[..n]).value;
      RunSound(limits, steps[..n], before);
      RunGreets(limits, steps[..n], before, c);
      NextGreets(limits, before, steps[n], c);
    }
  }
}
